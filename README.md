# Cemetery administration stores, modelled in Dafny

The cemetery administration application keeps its state in four in-memory
stores (React context providers):

- the **grave inventory**: graveyards own plots, and plots own graves. Each
  graveyard carries a `totalPlots` count. Creating a plot creates its
  `rows * columns` graves. Deleting cascades down the hierarchy.
- the **finance ledger**: payments with a status (paid, pending or overdue),
  and totals by status.
- the **burial-record register**: records that are added, edited, deleted,
  approved or rejected.
- **authentication**: the account list, the signed-in user and the
  password-reset tokens.

Each store is modelled in two layers:

- A module of value types and pure functions. Each function gives the store's
  new state from the old one: `GraveInventory`, `PaymentLedger`,
  `BurialRegister`, `Accounts`. The lemmas about the stores are stated and
  proved against these functions.
- A class whose fields are the provider's state and whose methods perform the
  provider's steps: `GraveyardContext.GraveyardStore`,
  `FinanceContext.FinanceStore`, `BurialRecordContext.BurialRecordStore`,
  `AuthContext.AuthStore`. This includes the loop that builds a plot's graves
  and the loop that removes the graves of a graveyard's plots, one plot at a
  time; the plots themselves then go in one filter. Each method is proved to
  produce exactly the state the matching function describes. Each method also
  carries forward the invariant the lemmas prove: consistent counts and
  graves, unique ids, unique emails and usernames.

`Collections` holds the shared pieces:

- `Option`.
- `Pick`, one field of a `{ ...record, ...updates }` spread.
- `Filter` and `Find`, with the facts the proofs use.

A `Partial<T>` update is a datatype of `Option` fields. For an optional field
the patch holds an `Option<Option<T>>`, where `Some(None)` is a key set to
`undefined`, which clears the field. Fresh ids (`Date.now()`), the current
time, the randomly drawn grave statuses of the sample data and the random
reset token are parameters. Amounts are whole currency units (the app shows
them as US dollars) and times are milliseconds.

Two behaviours of the burial-record store are worth stating outright:

- `addRecord` keeps the status the caller passes
  (contexts/BurialRecordContext.tsx:69-76); the form passes `pending`
  (components/BurialRecordForm.tsx:62).
- `approveRecord` and `rejectRecord` apply whatever the record's current
  status is; only the page limits the buttons to pending records
  (app/burial-records/page.tsx:196).

## Model

| member | source | states |
|---|---|---|
| GraveInventory.AddGraveyard | contexts/GraveyardContext.tsx:110-118 | the new graveyard is appended with the given id, name, location and time and `totalPlots` 0; plots and graves are unchanged |
| GraveInventory.UpdateGraveyard | contexts/GraveyardContext.tsx:120-124 | graveyards with that id are merged with the update and no others change, the length is kept, plots and graves are unchanged, and an unknown id changes nothing |
| GraveInventory.DeleteGraveyard | contexts/GraveyardContext.tsx:126-133 | exactly the graveyards without that id and the plots outside it remain; no remaining grave belongs to one of its plots; every grave of another plot remains |
| GraveInventory.AddPlot | contexts/GraveyardContext.tsx:135-163 | the plot is appended with `totalGraves = rows * columns`; exactly that many graves follow the old ones, numbered 1..N with ids `${id}-${n}`, available, unreserved, on the new plot; the parent's `totalPlots` rises by one and every other graveyard is unchanged; an unknown parent leaves the graveyards unchanged |
| GraveInventory.UpdatePlot | contexts/GraveyardContext.tsx:165-169 | plots with that id are merged with the update and no others change, the grave list and graveyards are untouched, and an unknown id changes nothing |
| GraveInventory.DeletePlot | contexts/GraveyardContext.tsx:171-184 | no grave on that plot and no plot with that id remains, everything else remains; graveyards keep all fields but `totalPlots`; when a plot has that id, the graveyard named by the first such plot drops by one, floored at 0, and every other graveyard keeps its count; an unknown id leaves graveyards unchanged |
| GraveInventory.UpdateGrave | contexts/GraveyardContext.tsx:186-190 | graves with that id are merged with the update and no others change, the length is kept, and an unknown id changes nothing |
| GraveInventory.BulkUpdateGraves | contexts/GraveyardContext.tsx:192-196 | each grave whose id is listed is merged with the update, every other grave is unchanged, in place; ids matching no grave have no effect |
| GraveInventory.FreshGraveCount | contexts/GraveyardContext.tsx:145-153 | the graves built for a new plot all belong to it and there are `max(0, total)` of them |
| GraveInventory.PlotCountWithout | contexts/GraveyardContext.tsx:174-182 | with unique plot ids, removing a plot lowers its own graveyard's plot count by one and no other graveyard's |
| GraveInventory.FindUniquePlot | contexts/GraveyardContext.tsx:172 | with unique plot ids, the lookup by id finds that very plot |
| GraveInventory.SeedGraveCounts | contexts/GraveyardContext.tsx:95-108 | the sample graves number 30, 20 and 24 on plots 1, 2 and 3, and none elsewhere, whatever statuses were drawn |
| GraveInventory.SeedGravePlots | contexts/GraveyardContext.tsx:95-108 | every sample grave belongs to one of the sample plots |
| GraveInventory.PlotCountCons | contexts/GraveyardContext.tsx:127 | the first plot of a list counts towards its own graveyard only |
| GraveInventory.TwoAndOnePlots | contexts/GraveyardContext.tsx:48-93 | example on the shape of the sample data: two graveyards with counts 2 and 1, owning the first two and the last of three plots, have counts that agree |
| GraveInventory.SeedCountsAgree | contexts/GraveyardContext.tsx:48-93 | the sample plot ids are unique and each sample graveyard's `totalPlots` is its number of plots |
| GraveInventory.SeedGravesFilled | contexts/GraveyardContext.tsx:65-108 | every sample plot has exactly `totalGraves` graves |
| GraveInventory.SeedNoOrphans | contexts/GraveyardContext.tsx:48-108 | every sample grave's plot and every sample plot's graveyard exist |
| GraveInventory.Seed | contexts/GraveyardContext.tsx:48-108 | the initial lists: two graveyards, three plots and 74 graves, each grave unreserved with the status drawn for it (its consistency is `SeedIsConsistent`) |
| GraveInventory.SeedIsConsistent | contexts/GraveyardContext.tsx:48-108 | the sample data is consistent: unique plot ids, counts agree, plots full, no orphans |
| GraveInventory.AddGraveyardKeepsConsistent | contexts/GraveyardContext.tsx:110-118 | adding a graveyard with a fresh id keeps the store consistent |
| GraveInventory.UpdateGraveyardKeepsConsistent | contexts/GraveyardContext.tsx:120-124 | an edit that leaves id and `totalPlots` alone keeps the store consistent |
| GraveInventory.DeleteGraveyardKeepsCounts | contexts/GraveyardContext.tsx:126-133 | after the cascade, plot ids stay unique and every remaining graveyard's count is right |
| GraveInventory.DeleteGraveyardKeepsGraves | contexts/GraveyardContext.tsx:128-130 | every remaining plot still has all its graves |
| GraveInventory.DeleteGraveyardKeepsNoOrphans | contexts/GraveyardContext.tsx:126-133 | the cascade leaves no grave without its plot and no plot without its graveyard |
| GraveInventory.DeleteGraveyardKeepsConsistent | contexts/GraveyardContext.tsx:126-133 | deleting a graveyard keeps the store consistent |
| GraveInventory.AddPlotKeepsCounts | contexts/GraveyardContext.tsx:135-163 | with a fresh plot id, plot ids stay unique and every graveyard's count is still its number of plots |
| GraveInventory.AddPlotKeepsGraves | contexts/GraveyardContext.tsx:135-154 | the new plot has exactly its `totalGraves` graves and the old plots keep theirs |
| GraveInventory.AddPlotKeepsNoOrphans | contexts/GraveyardContext.tsx:135-163 | a plot added to an existing graveyard leaves no orphan |
| GraveInventory.AddPlotKeepsConsistent | contexts/GraveyardContext.tsx:135-163 | adding a plot with a fresh id to an existing graveyard keeps the store consistent |
| GraveInventory.UpdatePlotKeepsParts | contexts/GraveyardContext.tsx:165-169 | rewriting plots in place with the same ids, parents and grave counts keeps the store consistent |
| GraveInventory.UpdatePlotKeepsConsistent | contexts/GraveyardContext.tsx:165-169 | an edit that changes neither the id, the parent nor `totalGraves` keeps the store consistent |
| GraveInventory.DeletePlotDecrementsParent | contexts/GraveyardContext.tsx:171-184 | with unique plot ids and right counts, deleting a live plot lowers its graveyard's count by exactly one, leaves the other counts, and keeps every count right |
| GraveInventory.DeletePlotKeepsCounts | contexts/GraveyardContext.tsx:171-184 | plot ids stay unique, counts stay right, and the parent of a live plot loses exactly one |
| GraveInventory.DeletePlotKeepsGravesAndNoOrphans | contexts/GraveyardContext.tsx:171-184 | the other plots keep all their graves and nothing is orphaned |
| GraveInventory.DeletePlotKeepsConsistent | contexts/GraveyardContext.tsx:171-184 | deleting a plot keeps the store consistent, and its parent's count drops by exactly one |
| GraveInventory.PatchGravesKeepsConsistent | contexts/GraveyardContext.tsx:186-196 | merging an update that leaves `plotId` alone into any graves keeps the store consistent |
| GraveInventory.UpdateGraveKeepsConsistent | contexts/GraveyardContext.tsx:186-190 | such a single-grave update keeps the store consistent |
| GraveInventory.BulkUpdateGravesKeepsConsistent | contexts/GraveyardContext.tsx:192-196 | such a bulk update keeps the store consistent |
| GraveInventory.DeleteOnlyPlot | contexts/GraveyardContext.tsx:171-184 | deleting the only plot, holding every grave, leaves no graves and takes its graveyard's count from 1 to 0 |
| GraveInventory.ScenarioAddPlot | contexts/GraveyardContext.tsx:110-163 | worked example: a new graveyard counts 0 plots; a 2 x 3 plot added to it has `totalGraves` 6 and brings six available graves numbered 1..6, and the count becomes 1 |
| GraveInventory.ScenarioReserve | contexts/GraveyardContext.tsx:186-190 | worked example: reserving grave `p1-3` for Alice makes it unavailable and held by Alice and leaves the other five graves as they were |
| GraveInventory.ScenarioDeletePlot | contexts/GraveyardContext.tsx:171-184 | worked example, continued: deleting that plot afterwards leaves no graves and a count of 0 |
| GraveyardContext.FreshGravesStep | contexts/GraveyardContext.tsx:146-153 | one more pass of the grave-building loop appends grave n + 1, available and unreserved, to the first n |
| GraveyardContext.RemovePlotGraves | contexts/GraveyardContext.tsx:128-130 | removing the graves of one more plot after those of the first k removes the graves of the first k + 1 |
| GraveyardContext.GraveyardStore.constructor | contexts/GraveyardContext.tsx:48-108 | the store starts from the sample data with the given statuses, and it is consistent |
| GraveyardContext.GraveyardStore.AddGraveyard | contexts/GraveyardContext.tsx:110-118 | the new state is `AddGraveyard` of the old; consistency is kept for a fresh id |
| GraveyardContext.GraveyardStore.UpdateGraveyard | contexts/GraveyardContext.tsx:120-124 | the new state is `UpdateGraveyard` of the old; consistency is kept when id and count are not edited |
| GraveyardContext.GraveyardStore.DeleteGraveyard | contexts/GraveyardContext.tsx:126-133 | removing each plot's graves in a loop, then the plots and the graveyard, gives `DeleteGraveyard` of the old state; consistency is kept |
| GraveyardContext.GraveyardStore.AddPlot | contexts/GraveyardContext.tsx:135-163 | building the graves one by one in a loop gives `AddPlot` of the old state; consistency is kept for a fresh id and a live parent |
| GraveyardContext.GraveyardStore.UpdatePlot | contexts/GraveyardContext.tsx:165-169 | the new state is `UpdatePlot` of the old and the graves are untouched; consistency is kept when id, parent and grave count are not edited |
| GraveyardContext.GraveyardStore.DeletePlot | contexts/GraveyardContext.tsx:171-184 | the new state is `DeletePlot` of the old, no grave or plot with that id remains, and consistency is kept |
| GraveyardContext.GraveyardStore.UpdateGrave | contexts/GraveyardContext.tsx:186-190 | the new state is `UpdateGrave` of the old; consistency is kept when `plotId` is not edited |
| GraveyardContext.GraveyardStore.BulkUpdateGraves | contexts/GraveyardContext.tsx:192-196 | the new state is `BulkUpdateGraves` of the old; consistency is kept when `plotId` is not edited |
| PaymentLedger.PaymentById | contexts/FinanceContext.tsx:137-139 | nothing exactly when no payment has that id; otherwise the first payment with that id |
| PaymentLedger.OverduePayments | contexts/FinanceContext.tsx:163-165 | exactly the overdue payments, and their amounts add up to the overdue amount |
| PaymentLedger.PendingPayments | contexts/FinanceContext.tsx:167-169 | exactly the pending payments, and their amounts add up to the pending amount |
| PaymentLedger.AddPayment | contexts/FinanceContext.tsx:112-121 | the new payment comes first, followed by the old list; it carries every field the caller gave (name, amount, dates, plot and grave, service type, status, description), the given id, and `createdAt` and `updatedAt` from the two clock readings |
| PaymentLedger.UpdatePayment | contexts/FinanceContext.tsx:123-131 | the length is kept, other payments are unchanged, and matching payments are merged with `updatedAt = now`; an unknown id changes nothing |
| PaymentLedger.DeletePayment | contexts/FinanceContext.tsx:133-135 | exactly the payments with another id remain |
| PaymentLedger.DeleteKeepsOrder | contexts/FinanceContext.tsx:133-135 | deletion works piecewise over a split list, so the remaining payments keep their order |
| PaymentLedger.SumAppend | contexts/FinanceContext.tsx:141-143 | the sum of two lists joined is the sum of their sums |
| PaymentLedger.TotalRevenue | contexts/FinanceContext.tsx:141-143 | the total revenue is the paid plus the pending plus the overdue amount, and is never negative when no amount is |
| PaymentLedger.PaidAmount | contexts/FinanceContext.tsx:145-149 | with no negative amounts the paid amount lies between 0 and the sum of all amounts; it is 0 when no payment is paid and the whole sum when every payment is |
| PaymentLedger.PendingAmount | contexts/FinanceContext.tsx:151-155 | the same bounds for the pending amount and the pending payments |
| PaymentLedger.OverdueAmount | contexts/FinanceContext.tsx:157-161 | the same bounds for the overdue amount and the overdue payments |
| PaymentLedger.RevenueSplitsByStatus | contexts/FinanceContext.tsx:141-161 | the sum of all amounts equals the sums over the paid, the pending and the overdue payments, for every ledger |
| PaymentLedger.StatusAmountBounds | contexts/FinanceContext.tsx:145-161 | a status total is between 0 and the whole sum when no amount is negative, 0 when no payment has that status, the whole sum when all have it |
| PaymentLedger.AddPaymentAddsAmount | contexts/FinanceContext.tsx:112-161 | a new payment raises the total and its own status's amount by its amount, and no other status's amount |
| PaymentLedger.RewriteMovesAmount | contexts/FinanceContext.tsx:145-161 | changing one payment's status, with the amount kept, moves its amount from the old status's sum to the new one's |
| PaymentLedger.UpdateKeepsRevenue | contexts/FinanceContext.tsx:123-143 | an update that does not set `amount` keeps the total revenue |
| PaymentLedger.StatusChangeMovesAmount | contexts/FinanceContext.tsx:123-161 | with unique ids, a status change keeps the total and moves exactly that payment's amount between the status sums |
| PaymentLedger.DeleteLowersRevenue | contexts/FinanceContext.tsx:133-143 | with unique ids, deleting a payment lowers the total by exactly its amount |
| PaymentLedger.OneOfEachStatus | contexts/FinanceContext.tsx:141-165 | for a paid, a pending and an overdue payment, each status amount is that payment's amount, the total is their sum, and the overdue list is the overdue payment alone |
| PaymentLedger.StatusAmountCons | contexts/FinanceContext.tsx:145-161 | the first payment adds its amount to its own status's sum and to no other |
| PaymentLedger.SampleTotals | contexts/FinanceContext.tsx:59-100 | the sample payments total 10500: 5000 paid, 3500 pending, 2000 overdue, and only payment 3 is overdue |
| FinanceContext.FinanceStore.constructor | contexts/FinanceContext.tsx:59-101 | the ledger starts with the sample payments, whose ids are unique |
| FinanceContext.FinanceStore.AddPayment | contexts/FinanceContext.tsx:112-121 | returns the payment stamped with the given id and the two clock readings and puts it first; ids stay unique when the id is fresh |
| FinanceContext.FinanceStore.UpdatePayment | contexts/FinanceContext.tsx:123-131 | the new list is `UpdatePayment` of the old; ids stay unique when the update does not set `id` |
| FinanceContext.FinanceStore.DeletePayment | contexts/FinanceContext.tsx:133-135 | the new list is `DeletePayment` of the old; ids stay unique |
| BurialRegister.AddRecord | contexts/BurialRecordContext.tsx:69-76 | the new record comes first, followed by the old list; it has the given id and time and every field the caller gave, status included |
| BurialRegister.UpdateRecord | contexts/BurialRecordContext.tsx:78-84 | the length is kept, other records are unchanged, matching records are merged, and an unknown id changes nothing |
| BurialRegister.DeleteRecord | contexts/BurialRecordContext.tsx:86-88 | exactly the records with another id remain |
| BurialRegister.ApproveRecord | contexts/BurialRecordContext.tsx:90-96 | whatever its status, a matching record becomes approved with the approver and time; its subject fields and notes are unchanged, as are all other records |
| BurialRegister.RejectRecord | contexts/BurialRecordContext.tsx:98-103 | whatever its status, a matching record becomes rejected with the notes; its approver, approval time and subject fields are unchanged, as are all other records |
| BurialRegister.DeleteKeepsOrder | contexts/BurialRecordContext.tsx:86-88 | deletion works piecewise over a split list, so the remaining records keep their order |
| BurialRegister.DeleteRemovesOne | contexts/BurialRecordContext.tsx:86-88 | with unique ids, deleting a present record shortens the list by exactly one |
| BurialRegister.ApproveThenReject | contexts/BurialRecordContext.tsx:90-103 | a record approved and then rejected is rejected with the notes and still names its approver and approval time |
| BurialRegister.UpdateKeepsIdsUnique | contexts/BurialRecordContext.tsx:78-84 | an update that does not set `id` keeps ids unique |
| BurialRecordContext.BurialRecordStore.constructor | contexts/BurialRecordContext.tsx:36-67 | the register starts with the two approved sample records, with unique ids |
| BurialRecordContext.BurialRecordStore.AddRecord | contexts/BurialRecordContext.tsx:69-76 | the new list is `AddRecord` of the old; ids stay unique when the id is fresh |
| BurialRecordContext.BurialRecordStore.UpdateRecord | contexts/BurialRecordContext.tsx:78-84 | the new list is `UpdateRecord` of the old; ids stay unique when the update does not set `id` |
| BurialRecordContext.BurialRecordStore.DeleteRecord | contexts/BurialRecordContext.tsx:86-88 | the new list is `DeleteRecord` of the old; ids stay unique |
| BurialRecordContext.BurialRecordStore.ApproveRecord | contexts/BurialRecordContext.tsx:90-96 | going through the generic update gives `ApproveRecord` of the old list; ids stay unique |
| BurialRecordContext.BurialRecordStore.RejectRecord | contexts/BurialRecordContext.tsx:98-103 | going through the generic update gives `RejectRecord` of the old list; ids stay unique |
| Accounts.SignedInAfter | contexts/AuthContext.tsx:210 | `isAuthenticated` holds after a sign-in exactly when it succeeded or someone was already signed in; it is false after logout; the password-reset steps leave it unchanged |
| Accounts.WithPassword | contexts/AuthContext.tsx:191-197 | every account with the email gets the new password; every other account is unchanged |
| Accounts.Register | contexts/AuthContext.tsx:81-117 | a taken email fails first with nothing changed; then a taken username does; it succeeds iff both are free, appending the account and signing it in without the password |
| Accounts.Login | contexts/AuthContext.tsx:119-142 | succeeds iff some account has both the email and the password, and signs in the first such account without its password; a failure changes nothing |
| Accounts.Logout | contexts/AuthContext.tsx:144-147 | nobody is signed in afterwards, so `isAuthenticated` is false; the accounts and tokens are unchanged |
| Accounts.RequestPasswordReset | contexts/AuthContext.tsx:149-168 | fails iff no account has the email, changing nothing; otherwise the token maps to the email and now + 15 minutes, overwriting any earlier entry |
| Accounts.ResetPassword | contexts/AuthContext.tsx:170-206 | an unknown token fails and changes nothing; an expired one (now > expiry) is removed and fails; otherwise the email's accounts get the password and the token is removed; the token is never left behind |
| Accounts.RegisterThenLogin | contexts/AuthContext.tsx:81-142 | after a successful registration and a sign-out, signing in with the same email and password succeeds, as the new account |
| Accounts.ResetThenLogin | contexts/AuthContext.tsx:149-206 | a reset requested for a known email and used within 15 minutes succeeds; the email then signs in with the new password; a second use of the token fails as invalid |
| Accounts.FailedLoginKeepsSession | contexts/AuthContext.tsx:123-128 | wrong credentials fail and leave the signed-in user as it was |
| Accounts.RegisterKeepsAccountsUnique | contexts/AuthContext.tsx:90-109 | emails and usernames stay unique across a registration |
| Accounts.ResetKeepsAccountsUnique | contexts/AuthContext.tsx:191-197 | a password reset keeps emails and usernames unique |
| Accounts.SampleAccounts | contexts/AuthContext.tsx:38-63 | the sample accounts have distinct emails and usernames, and the admin signs in with its password |
| AuthContext.AuthStore.constructor | contexts/AuthContext.tsx:36-67 | nobody signed in, the sample accounts with unique emails and usernames, no reset tokens |
| AuthContext.AuthStore.Register | contexts/AuthContext.tsx:81-117 | the checks with early exits give `Register` of the old state, error included; accounts stay unique |
| AuthContext.AuthStore.Login | contexts/AuthContext.tsx:119-142 | the new state and error are `Login` of the old state; the accounts are unchanged |
| AuthContext.AuthStore.Logout | contexts/AuthContext.tsx:144-147 | the new state is `Logout` of the old |
| AuthContext.AuthStore.RequestPasswordReset | contexts/AuthContext.tsx:149-168 | the new state and error are `RequestPasswordReset` of the old state with the given token; the accounts are unchanged |
| AuthContext.AuthStore.ResetPassword | contexts/AuthContext.tsx:170-206 | the new state and error are `ResetPassword` of the old state; accounts stay unique |

## Left out

- Persistence. The payment list is loaded from and saved to browser storage (contexts/FinanceContext.tsx:44-110). The model starts from the sample payments, as the store does when nothing is stored. The signed-in user is restored from and written to storage (contexts/AuthContext.tsx:69-79, 114, 139, 146). Storage is I/O, and the model keeps only the in-memory state.
- Ids from `Date.now()`, `new Date()` timestamps, the random statuses of the sample graves (contexts/GraveyardContext.tsx:103) and the random reset token (contexts/AuthContext.tsx:160) are parameters. Each `new Date()` in addPayment (contexts/FinanceContext.tsx:116-117) is a parameter of its own (`created`, `updated`). The three `new Date()` calls of the demo accounts (contexts/AuthContext.tsx:45, 53, 61) are modelled as one instant `now` in `Accounts.SampleUsers`; nothing depends on their order. The `console.log` of the token is left out. Fresh ids appear only as conditions of the invariant-keeping clauses, because the source does not check them.
- The artificial `setTimeout` delays and the `isLoading` flag of the auth operations. They are UI timing, with no effect on the state.
- Floating point. The forms read amounts with `parseFloat` (components/PaymentForm.tsx:55), so an amount may have a fractional part; the model's amounts are whole currency units, the sums are exact, and `reduce` is modelled as a sum. Rounding of fractional sums is not modelled. Dates are whole milliseconds, and date strings are kept as strings.
- Asynchrony. Each auth operation is modelled as one atomic step that returns its error instead of throwing.
- React plumbing: the providers, the `use*` hooks and their "must be used within" errors. The pages and forms, including their validation, are also left out. None of these is part of the stores' logic.
- GraveyardContext.GraveyardStore.UpdateGraveyard, UpdatePlot, UpdateGrave, BulkUpdateGraves: they keep the store consistent only when the update leaves ids, parents and counts alone. The source applies any `Partial` update unguarded. Only the forms keep those fields fixed, for example the disabled graveyard select in components/PlotForm.tsx:56.
