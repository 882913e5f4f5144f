/** Accounts, sign-in and password reset: the users, the signed-in user and
    the outstanding reset tokens, and each operation as a function from the
    old state to the new state and the error it raises, if any. */
module Accounts {
  import opened Collections

  datatype Role = Admin | Staff | Visitor

  /** A user as the rest of the application sees it: no password. */
  datatype User = User(id: string, username: string, email: string, role: Role, createdAt: int)

  /** A user as the account list keeps it. */
  datatype StoredUser = StoredUser(id: string, username: string, email: string, password: string,
                                   role: Role, createdAt: int)

  /** An outstanding reset: whose password it resets and until when. */
  datatype ResetTicket = ResetTicket(email: string, expiresAt: int)

  /** The errors the operations raise. */
  datatype AuthError =
    | EmailAlreadyRegistered  // "Email already registered"
    | UsernameTaken           // "Username already taken"
    | InvalidCredentials      // "Invalid email or password"
    | EmailNotFound           // "Email not found"
    | InvalidToken            // "Invalid or expired reset token"
    | TokenExpired            // "Reset token has expired"

  datatype AuthState = AuthState(user: Option<User>, users: seq<StoredUser>, resetTokens: map<string, ResetTicket>)

  /** The state after an operation, and the error it raised. */
  datatype Outcome = Outcome(state: AuthState, error: Option<AuthError>)

  /** A reset token is good for 15 minutes, in milliseconds. */
  const ResetWindow: int := 15 * 60 * 1000

  /** The user without the password. */
  function Public(u: StoredUser): User
  {
    User(u.id, u.username, u.email, u.role, u.createdAt)
  }

  function Email(u: StoredUser): string { u.email }
  function Username(u: StoredUser): string { u.username }

  function Credentials(email: string, password: string): StoredUser -> bool
  {
    (u: StoredUser) => u.email == email && u.password == password
  }

  function HasEmail(email: string): StoredUser -> bool { (u: StoredUser) => u.email == email }

  /** isAuthenticated: someone is signed in. */
  predicate IsAuthenticated(s: AuthState)
  {
    s.user.Some?
  }

  predicate EmailTaken(users: seq<StoredUser>, email: string)
  {
    exists u :: u in users && u.email == email
  }

  predicate UsernameInUse(users: seq<StoredUser>, username: string)
  {
    exists u :: u in users && u.username == username
  }

  /** No two accounts share an email or a username. */
  predicate AccountsUnique(users: seq<StoredUser>)
  {
    UniqueBy(users, Email) && UniqueBy(users, Username)
  }

  /** Every account with that email gets the new password. */
  function WithPassword(users: seq<StoredUser>, email: string, password: string): (r: seq<StoredUser>)
    ensures |r| == |users|
    ensures forall i :: 0 <= i < |users| && users[i].email == email ==> r[i] == users[i].(password := password)
    ensures forall i :: 0 <= i < |users| && users[i].email != email ==> r[i] == users[i]
  {
    seq(|users|, i requires 0 <= i < |users| =>
          if users[i].email == email then users[i].(password := password) else users[i])
  }

  /** register: the email is checked first, then the username; a new account
      is appended and signed in. A failure changes nothing. */
  function Register(s: AuthState, username: string, email: string, password: string, role: Role,
                    id: string, now: int): (o: Outcome)
    ensures EmailTaken(s.users, email) ==> o == Outcome(s, Some(EmailAlreadyRegistered))
    ensures !EmailTaken(s.users, email) && UsernameInUse(s.users, username) ==> o == Outcome(s, Some(UsernameTaken))
    ensures o.error.None? <==> !EmailTaken(s.users, email) && !UsernameInUse(s.users, username)
    ensures o.error.None? ==>
              && o.state.users == s.users + [StoredUser(id, username, email, password, role, now)]
              && o.state.user == Some(User(id, username, email, role, now))
              && IsAuthenticated(o.state)
              && o.state.resetTokens == s.resetTokens
  {
    if EmailTaken(s.users, email) then Outcome(s, Some(EmailAlreadyRegistered))
    else if UsernameInUse(s.users, username) then Outcome(s, Some(UsernameTaken))
    else
      var u := StoredUser(id, username, email, password, role, now);
      Outcome(s.(users := s.users + [u], user := Some(Public(u))), None)
  }

  /** login: succeeds exactly when some account has both the email and the
      password, and signs in the first such account; a failure changes nothing. */
  function Login(s: AuthState, email: string, password: string): (o: Outcome)
    ensures o.error.None? <==> exists u :: u in s.users && u.email == email && u.password == password
    ensures o.error.Some? ==> o == Outcome(s, Some(InvalidCredentials))
    ensures o.error.None? ==>
              && o.state.users == s.users && o.state.resetTokens == s.resetTokens
              && exists k :: 0 <= k < |s.users| && o.state.user == Some(Public(s.users[k]))
                             && s.users[k].email == email && s.users[k].password == password
                             && forall j :: 0 <= j < k ==> !(s.users[j].email == email && s.users[j].password == password)
  {
    match Find(s.users, Credentials(email, password))
    case None => Outcome(s, Some(InvalidCredentials))
    case Some(u) => Outcome(s.(user := Some(Public(u))), None)
  }

  /** logout: nobody is signed in afterwards; the accounts are untouched. */
  function Logout(s: AuthState): (r: AuthState)
    ensures !IsAuthenticated(r)
    ensures r.users == s.users && r.resetTokens == s.resetTokens
  {
    s.(user := None)
  }

  /** requestPasswordReset: for a known email, the given token is recorded
      with an expiry 15 minutes from now, replacing any entry under the same
      token; an unknown email is an error and changes nothing. */
  function RequestPasswordReset(s: AuthState, email: string, token: string, now: int): (o: Outcome)
    ensures o.error.Some? <==> !EmailTaken(s.users, email)
    ensures o.error.Some? ==> o == Outcome(s, Some(EmailNotFound))
    ensures o.error.None? ==>
              && o.state.resetTokens == s.resetTokens[token := ResetTicket(email, now + ResetWindow)]
              && o.state.users == s.users && o.state.user == s.user
  {
    match Find(s.users, HasEmail(email))
    case None => Outcome(s, Some(EmailNotFound))
    case Some(_) => Outcome(s.(resetTokens := s.resetTokens[token := ResetTicket(email, now + ResetWindow)]), None)
  }

  /** resetPassword: an unknown token is an error and changes nothing; an
      expired one is discarded and is an error; otherwise every account with
      the token's email gets the new password and the token is used up. */
  function ResetPassword(s: AuthState, token: string, newPassword: string, now: int): (o: Outcome)
    ensures token !in s.resetTokens ==> o == Outcome(s, Some(InvalidToken))
    ensures token in s.resetTokens && now > s.resetTokens[token].expiresAt ==>
              o == Outcome(s.(resetTokens := s.resetTokens - {token}), Some(TokenExpired))
    ensures o.error.None? <==> token in s.resetTokens && now <= s.resetTokens[token].expiresAt
    ensures o.error.None? ==>
              && o.state.users == WithPassword(s.users, s.resetTokens[token].email, newPassword)
              && o.state.resetTokens == s.resetTokens - {token}
              && o.state.user == s.user
    ensures token !in o.state.resetTokens
  {
    if token !in s.resetTokens then Outcome(s, Some(InvalidToken))
    else
      var ticket := s.resetTokens[token];
      if now > ticket.expiresAt then Outcome(s.(resetTokens := s.resetTokens - {token}), Some(TokenExpired))
      else Outcome(s.(users := WithPassword(s.users, ticket.email, newPassword),
                      resetTokens := s.resetTokens - {token}), None)
  }

  // ---------------------------------------------------------------------------
  // Properties

  /** A newly registered account can sign in with its email and password, and
      it is the account that signs in. */
  lemma RegisterThenLogin(s: AuthState, username: string, email: string, password: string, role: Role,
                          id: string, now: int)
    requires Register(s, username, email, password, role, id, now).error.None?
    ensures var after := Register(s, username, email, password, role, id, now).state;
            var o := Login(Logout(after), email, password);
            o.error.None? && o.state.user == Some(User(id, username, email, role, now))
  {
    var after := Register(s, username, email, password, role, id, now).state;
    var u := StoredUser(id, username, email, password, role, now);
    assert after.users[|s.users|] == u;
    var o := Login(Logout(after), email, password);
    var k :| 0 <= k < |after.users| && o.state.user == Some(Public(after.users[k]))
             && after.users[k].email == email && after.users[k].password == password;
    assert k == |s.users|;
  }

  /** A reset requested for an account's email and used in time lets that email
      sign in with the new password, and the token cannot be used again. */
  lemma ResetThenLogin(s: AuthState, email: string, token: string, requestedAt: int,
                       newPassword: string, usedAt: int)
    requires EmailTaken(s.users, email)
    requires usedAt <= requestedAt + ResetWindow
    ensures var requested := RequestPasswordReset(s, email, token, requestedAt).state;
            var reset := ResetPassword(requested, token, newPassword, usedAt);
            && reset.error.None?
            && Login(reset.state, email, newPassword).error.None?
            && ResetPassword(reset.state, token, newPassword, usedAt).error == Some(InvalidToken)
  {
    var requested := RequestPasswordReset(s, email, token, requestedAt).state;
    var reset := ResetPassword(requested, token, newPassword, usedAt);
    var u :| u in s.users && u.email == email;
    var i :| 0 <= i < |s.users| && s.users[i] == u;
    assert reset.state.users[i].email == email && reset.state.users[i].password == newPassword;
    assert reset.state.users[i] in reset.state.users;
  }

  /** `isAuthenticated` is `!!user`: a sign-in sets it exactly when it
      succeeds (or someone was already signed in), logout clears it, and the
      password-reset steps leave it as it was. */
  lemma SignedInAfter(s: AuthState, email: string, password: string, token: string, newPassword: string, now: int)
    ensures IsAuthenticated(Login(s, email, password).state)
            <==> IsAuthenticated(s) || Login(s, email, password).error.None?
    ensures !IsAuthenticated(Logout(s))
    ensures IsAuthenticated(RequestPasswordReset(s, email, token, now).state) == IsAuthenticated(s)
    ensures IsAuthenticated(ResetPassword(s, token, newPassword, now).state) == IsAuthenticated(s)
  {
  }

  /** A failed sign-in leaves whoever was signed in signed in. */
  lemma FailedLoginKeepsSession(s: AuthState, email: string, password: string)
    requires forall u :: u in s.users ==> u.email != email || u.password != password
    ensures Login(s, email, password).state.user == s.user
    ensures Login(s, email, password).error == Some(InvalidCredentials)
  {
  }

  /** Registration keeps emails and usernames unique: it refuses a taken one. */
  lemma RegisterKeepsAccountsUnique(s: AuthState, username: string, email: string, password: string, role: Role,
                                    id: string, now: int)
    requires AccountsUnique(s.users)
    ensures AccountsUnique(Register(s, username, email, password, role, id, now).state.users)
  {
    var o := Register(s, username, email, password, role, id, now);
    if o.error.None? {
      var users := o.state.users;
      forall i, j | 0 <= i < j < |users| ensures Email(users[i]) != Email(users[j]) {
        if j == |s.users| {
          assert users[i] in s.users;
        }
      }
      forall i, j | 0 <= i < j < |users| ensures Username(users[i]) != Username(users[j]) {
        if j == |s.users| {
          assert users[i] in s.users;
        }
      }
    }
  }

  /** A password reset changes passwords only, so it keeps accounts unique. */
  lemma ResetKeepsAccountsUnique(s: AuthState, token: string, newPassword: string, now: int)
    requires AccountsUnique(s.users)
    ensures AccountsUnique(ResetPassword(s, token, newPassword, now).state.users)
  {
    var o := ResetPassword(s, token, newPassword, now);
    if o.error.None? {
      UniqueAlong(s.users, Email, o.state.users, Email);
      UniqueAlong(s.users, Username, o.state.users, Username);
    }
  }

  /** The three accounts every session starts with. */
  function SampleUsers(now: int): seq<StoredUser>
  {
    [ StoredUser("1", "admin", "admin@example.com", "admin123", Admin, now),
      StoredUser("2", "staff", "staff@example.com", "staff123", Staff, now),
      StoredUser("3", "visitor", "visitor@example.com", "visitor123", Visitor, now) ]
  }

  /** The sample accounts have distinct emails and usernames, and each signs
      in with its own password. */
  lemma SampleAccounts(now: int)
    ensures AccountsUnique(SampleUsers(now))
    ensures Login(AuthState(None, SampleUsers(now), map[]), "admin@example.com", "admin123").state.user
            == Some(User("1", "admin", "admin@example.com", Admin, now))
  {
  }
}

/** The auth provider: the signed-in user, the account list and the reset
    tokens are fields; each operation returns the error it raises, if any,
    instead of throwing it. */
module AuthContext {
  import opened Collections
  import opened Accounts

  class AuthStore {
    var user: Option<User>
    var users: seq<StoredUser>
    var resetTokens: map<string, ResetTicket>

    function State(): AuthState
      reads this
    {
      AuthState(user, users, resetTokens)
    }

    /** Nobody signed in, the sample accounts, no reset tokens. */
    constructor (now: int)
      ensures State() == AuthState(None, SampleUsers(now), map[])
      ensures AccountsUnique(users)
    {
      user, users, resetTokens := None, SampleUsers(now), map[];
      SampleAccounts(now);
    }

    method Register(username: string, email: string, password: string, role: Role, id: string, now: int)
      returns (error: Option<AuthError>)
      modifies this
      ensures Outcome(State(), error) == Accounts.Register(old(State()), username, email, password, role, id, now)
      ensures old(AccountsUnique(users)) ==> AccountsUnique(users)
    {
      ghost var before := State();
      if AccountsUnique(users) {
        RegisterKeepsAccountsUnique(before, username, email, password, role, id, now);
      }
      if exists u :: u in users && u.email == email {
        return Some(EmailAlreadyRegistered);
      }
      if exists u :: u in users && u.username == username {
        return Some(UsernameTaken);
      }
      var newUser := StoredUser(id, username, email, password, role, now);
      users := users + [newUser];
      user := Some(Public(newUser));
      error := None;
    }

    method Login(email: string, password: string) returns (error: Option<AuthError>)
      modifies this
      ensures Outcome(State(), error) == Accounts.Login(old(State()), email, password)
      ensures users == old(users)
    {
      var found := Find(users, Credentials(email, password));
      if found.None? {
        return Some(InvalidCredentials);
      }
      user := Some(Public(found.value));
      error := None;
    }

    method Logout()
      modifies this
      ensures State() == Accounts.Logout(old(State()))
    {
      user := None;
    }

    /** The token, random in the provider, is given. */
    method RequestPasswordReset(email: string, token: string, now: int) returns (error: Option<AuthError>)
      modifies this
      ensures Outcome(State(), error) == Accounts.RequestPasswordReset(old(State()), email, token, now)
      ensures users == old(users)
    {
      var found := Find(users, HasEmail(email));
      if found.None? {
        return Some(EmailNotFound);
      }
      resetTokens := resetTokens[token := ResetTicket(email, now + ResetWindow)];
      error := None;
    }

    method ResetPassword(token: string, newPassword: string, now: int) returns (error: Option<AuthError>)
      modifies this
      ensures Outcome(State(), error) == Accounts.ResetPassword(old(State()), token, newPassword, now)
      ensures old(AccountsUnique(users)) ==> AccountsUnique(users)
    {
      ghost var before := State();
      if AccountsUnique(users) {
        ResetKeepsAccountsUnique(before, token, newPassword, now);
      }
      if token !in resetTokens {
        return Some(InvalidToken);
      }
      var ticket := resetTokens[token];
      if now > ticket.expiresAt {
        resetTokens := resetTokens - {token};
        return Some(TokenExpired);
      }
      users := WithPassword(users, ticket.email, newPassword);
      resetTokens := resetTokens - {token};
      error := None;
    }
  }
}
