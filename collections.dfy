/** Small helpers shared by the stores: an optional value, the field-by-field
    merge of a partial update (`{ ...record, ...updates }`), and `Array.filter`
    over sequences with the facts the stores rely on. */
module Collections {

  datatype Option<T> = None | Some(value: T)

  /** One field of `{ ...current, ...updates }`: a key present in the update
      wins, an absent key keeps the current value. For a field that is itself
      optional, T is an Option, and `Some(None)` is a key explicitly set to
      `undefined`, which clears the field. */
  function Pick<T>(update: Option<T>, current: T): T
  {
    match update
    case Some(v) => v
    case None => current
  }

  /** `s.filter(keep)`: the elements of s that satisfy keep, in their order. */
  function Filter<T(!new)>(s: seq<T>, keep: T -> bool): (r: seq<T>)
    ensures |r| <= |s|
    ensures forall x :: x in r <==> x in s && keep(x)
    ensures (forall x :: x in s ==> keep(x)) ==> r == s
    ensures (forall x :: x in s ==> !keep(x)) ==> r == []
  {
    if s == [] then []
    else if keep(s[0]) then [s[0]] + Filter(s[1..], keep)
    else Filter(s[1..], keep)
  }

  /** Filtering distributes over concatenation, so the relative order of the
      kept elements is the order they had in the input. */
  lemma {:induction false} FilterAppend<T(!new)>(a: seq<T>, b: seq<T>, keep: T -> bool)
    ensures Filter(a + b, keep) == Filter(a, keep) + Filter(b, keep)
  {
    if a == [] {
      assert a + b == b;
    } else {
      assert (a + b)[1..] == a[1..] + b;
      FilterAppend(a[1..], b, keep);
    }
  }

  /** Two filters in a row keep what passes both. */
  lemma {:induction false} FilterTwice<T(!new)>(s: seq<T>, first: T -> bool, second: T -> bool, both: T -> bool)
    requires forall x :: x in s ==> both(x) == (first(x) && second(x))
    ensures Filter(Filter(s, first), second) == Filter(s, both)
  {
    if s != [] {
      FilterTwice(s[1..], first, second, both);
    }
  }

  /** Counting is unaffected by an element-wise rewrite that keeps the
      filtered property of each element. */
  lemma {:induction false} FilterCountAlong<T(!new), U(!new)>(s: seq<T>, f: T -> bool, t: seq<U>, g: U -> bool)
    requires |s| == |t|
    requires forall i :: 0 <= i < |s| ==> f(s[i]) == g(t[i])
    ensures |Filter(s, f)| == |Filter(t, g)|
  {
    if s != [] {
      FilterCountAlong(s[1..], f, t[1..], g);
    }
  }

  /** `s.find(matches)`: the first element that matches, if any. */
  function Find<T(!new)>(s: seq<T>, matches: T -> bool): (r: Option<T>)
    ensures r.None? <==> forall x :: x in s ==> !matches(x)
    ensures r.Some? ==> exists k :: 0 <= k < |s| && s[k] == r.value && matches(s[k])
                                    && forall j :: 0 <= j < k ==> !matches(s[j])
  {
    if s == [] then None
    else if matches(s[0]) then Some(s[0])
    else
      var r := Find(s[1..], matches);
      assert r.Some? ==> exists k :: 0 < k < |s| && s[k] == r.value && matches(s[k])
                                     && forall j :: 0 <= j < k ==> !matches(s[j]) by {
        if r.Some? {
          var k :| 0 <= k < |s[1..]| && s[1..][k] == r.value && matches(s[1..][k])
                   && forall j :: 0 <= j < k ==> !matches(s[1..][j]);
          assert forall j :: 0 <= j < k + 1 ==> !matches(s[j]) by {
            forall j | 0 <= j < k + 1 ensures !matches(s[j]) {
              if j > 0 { assert s[j] == s[1..][j - 1]; }
            }
          }
        }
      }
      r
  }

  /** No two elements of s share a key. */
  predicate UniqueBy<T, K(==)>(s: seq<T>, key: T -> K)
  {
    forall i, j :: 0 <= i < j < |s| ==> key(s[i]) != key(s[j])
  }

  /** In a sequence with unique keys, the key identifies the element. */
  lemma UniqueKeyIdentifies<T, K>(s: seq<T>, key: T -> K, x: T, y: T)
    requires UniqueBy(s, key)
    requires x in s && y in s && key(x) == key(y)
    ensures x == y
  {
  }

  /** Filtering keeps keys unique. */
  lemma {:induction false} FilterUnique<T(!new), K>(s: seq<T>, keep: T -> bool, key: T -> K)
    requires UniqueBy(s, key)
    ensures UniqueBy(Filter(s, keep), key)
  {
    if s != [] {
      UniqueTail(s, key);
      FilterUnique(s[1..], keep, key);
      if keep(s[0]) {
        var rest := Filter(s[1..], keep);
        forall j | 0 <= j < |rest| ensures key(s[0]) != key(rest[j]) {
          assert rest[j] in rest;
        }
      }
    }
  }

  /** Keys that stay the same position by position stay unique. */
  lemma UniqueAlong<T, U, K>(s: seq<T>, key: T -> K, t: seq<U>, key': U -> K)
    requires UniqueBy(s, key)
    requires |s| == |t|
    requires forall i :: 0 <= i < |s| ==> key(s[i]) == key'(t[i])
    ensures UniqueBy(t, key')
  {
  }

  /** The tail of a sequence with unique keys has unique keys, none of them the head's. */
  lemma UniqueTail<T, K>(s: seq<T>, key: T -> K)
    requires UniqueBy(s, key) && s != []
    ensures UniqueBy(s[1..], key)
    ensures forall x :: x in s[1..] ==> key(x) != key(s[0])
  {
    forall x | x in s[1..] ensures key(x) != key(s[0]) {
      var j :| 0 <= j < |s[1..]| && s[1..][j] == x;
      assert s[j + 1] == x;
    }
  }
}
