/** Query-parameter lists (`Vec<(&str, String)>`) built field by field, and
    what such a list says about the fields it was built from. Fields of a
    record `r` are numbered `0 .. n-1`; `key(i)` is field `i`'s query key and
    `val(r, i)` its rendered value, `None` when the field is unset. */
module QueryLists {
  import opened Primitives

  /** One query parameter: a key and its rendered value. */
  type QueryPair = (string, string)

  /** What one `if let Some(v)` contributes: a pair when set, nothing when not. */
  function Piece(key: string, value: Option<string>): seq<QueryPair> {
    match value case Some(v) => [(key, v)] case None => []
  }

  /** The pairs contributed by fields `0 .. n-1`, in field order. */
  function Collect<R>(key: nat -> string, val: (R, nat) -> Option<string>, r: R, n: nat): seq<QueryPair> {
    if n == 0 then [] else Collect(key, val, r, n - 1) + Piece(key(n - 1), val(r, n - 1))
  }

  /** The value of the first pair with key `k`, as a server reading the
      query string would see it. */
  function Lookup(q: seq<QueryPair>, k: string): Option<string> {
    if q == [] then None
    else if q[0].0 == k then Some(q[0].1)
    else Lookup(q[1..], k)
  }

  /** The number of set values among fields `0 .. n-1`. */
  function SetCount<R>(val: (R, nat) -> Option<string>, r: R, n: nat): nat {
    if n == 0 then 0 else SetCount(val, r, n - 1) + (if val(r, n - 1).Some? then 1 else 0)
  }

  predicate Distinct(key: nat -> string, n: nat) {
    forall i, j :: 0 <= i < j < n ==> key(i) != key(j)
  }

  /** The first field below `n` whose key is `k` (`n` when there is none). */
  function IndexOf(key: nat -> string, n: nat, k: string): (i: nat)
    ensures i <= n
    ensures i < n ==> key(i) == k
    ensures forall m :: 0 <= m < i ==> key(m) != k
  {
    if n == 0 then 0
    else if IndexOf(key, n - 1, k) < n - 1 then IndexOf(key, n - 1, k)
    else if key(n - 1) == k then n - 1
    else n
  }

  /** With distinct keys, a field's key leads back to that field. */
  lemma IndexOfDistinct(key: nat -> string, n: nat, i: nat)
    requires Distinct(key, n) && i < n
    ensures IndexOf(key, n, key(i)) == i
  {
  }

  /** Nothing set, nothing emitted. */
  lemma {:induction false} NoValuesNoPairs<R>(key: nat -> string, val: (R, nat) -> Option<string>, r: R, n: nat)
    requires forall i :: 0 <= i < n ==> val(r, i) == None
    ensures Collect(key, val, r, n) == []
  {
    if n > 0 {
      NoValuesNoPairs(key, val, r, n - 1);
    }
  }

  /** One pair per set value. */
  lemma {:induction false} CollectCount<R>(key: nat -> string, val: (R, nat) -> Option<string>, r: R, n: nat)
    ensures |Collect(key, val, r, n)| == SetCount(val, r, n)
  {
    if n > 0 {
      CollectCount(key, val, r, n - 1);
    }
  }

  lemma {:induction false} LookupAppend(a: seq<QueryPair>, b: seq<QueryPair>, k: string)
    ensures Lookup(a + b, k) == if Lookup(a, k).Some? then Lookup(a, k) else Lookup(b, k)
  {
    if a != [] {
      assert (a + b)[1..] == a[1..] + b;
      LookupAppend(a[1..], b, k);
    } else {
      assert a + b == b;
    }
  }

  /** With distinct keys, looking up field `i`'s key finds exactly its value,
      or nothing if it is unset or not among the first `n`. */
  lemma {:induction false} CollectLookup<R>(key: nat -> string, val: (R, nat) -> Option<string>, r: R, n: nat, m: nat, i: nat)
    requires Distinct(key, m) && n <= m && i < m
    ensures Lookup(Collect(key, val, r, n), key(i)) == if i < n then val(r, i) else None
  {
    if n > 0 {
      CollectLookup(key, val, r, n - 1, m, i);
      LookupAppend(Collect(key, val, r, n - 1), Piece(key(n - 1), val(r, n - 1)), key(i));
    }
  }

  /** Every pair is some set field's key and value, and keys appear in
      strictly increasing field order. */
  lemma {:induction false} CollectOrdered<R>(key: nat -> string, val: (R, nat) -> Option<string>, r: R, n: nat, m: nat)
    requires Distinct(key, m) && n <= m
    ensures forall a :: 0 <= a < |Collect(key, val, r, n)| ==>
      var (k, v) := Collect(key, val, r, n)[a];
      IndexOf(key, m, k) < n && val(r, IndexOf(key, m, k)) == Some(v)
    ensures forall a, b :: 0 <= a < b < |Collect(key, val, r, n)| ==>
      IndexOf(key, m, Collect(key, val, r, n)[a].0) < IndexOf(key, m, Collect(key, val, r, n)[b].0)
  {
    if n > 0 {
      CollectOrdered(key, val, r, n - 1, m);
      IndexOfDistinct(key, m, n - 1);
    }
  }
}
