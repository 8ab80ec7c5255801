/** The CPython list operations the IR core relies on: `insert` with its
    index clamping, `remove` of the first equal element, and a `for` loop
    that removes from the list it is iterating over. */
module PyList {

  /** Where `list.insert(idx, x)` places `x` in a list of length `n`:
      a negative index counts from the end, and an index outside the list
      is clamped to its nearer end. */
  function InsertPosition(idx: int, n: nat): (p: nat)
    ensures p <= n
    ensures 0 <= idx <= n ==> p == idx
    ensures idx > n ==> p == n
    ensures -(n as int) <= idx < 0 ==> p == n + idx
    ensures idx < -(n as int) ==> p == 0
  {
    if idx < 0 then (if idx + n < 0 then 0 else idx + n)
    else if idx > n then n
    else idx
  }

  /** The element Python's `s[idx]` denotes, for an index inside the list. */
  function ElementIndex(idx: int, n: nat): (k: nat)
    requires -(n as int) <= idx < n
    ensures k < n
  {
    if idx < 0 then n + idx else idx
  }

  /** The list after `s.insert(idx, x)`. */
  function Inserted<T>(s: seq<T>, idx: int, x: T): (r: seq<T>)
    ensures |r| == |s| + 1
    ensures r[InsertPosition(idx, |s|)] == x
  {
    var p := InsertPosition(idx, |s|);
    s[..p] + [x] + s[p..]
  }

  /** Inserting grows the list by exactly `x`: deleting the new slot gives
      back the original list, in its original order. */
  lemma InsertedThenDeleted<T>(s: seq<T>, idx: int, x: T)
    ensures var p := InsertPosition(idx, |s|);
            Inserted(s, idx, x)[..p] + Inserted(s, idx, x)[p + 1..] == s
  {
    var p := InsertPosition(idx, |s|);
    var r := Inserted(s, idx, x);
    assert r[..p] == s[..p];
    assert r[p + 1..] == s[p..];
    assert s[..p] + s[p..] == s;
  }

  /** For an index inside the list, `insert(idx, x)` puts `x` immediately
      before the element that `s[idx]` denoted. */
  lemma {:induction false} InsertLandsBefore<T>(s: seq<T>, idx: int, x: T)
    requires -|s| <= idx < |s|
    ensures var p := InsertPosition(idx, |s|);
            p + 1 < |Inserted(s, idx, x)| && Inserted(s, idx, x)[p + 1] == s[ElementIndex(idx, |s|)]
  {
    var p := InsertPosition(idx, |s|);
    assert p == ElementIndex(idx, |s|);
    assert Inserted(s, idx, x)[p + 1] == s[p..][0];
  }

  /** Index of the first element equal to `x`. */
  function FirstIndex<T(==)>(s: seq<T>, x: T): (k: nat)
    requires x in s
    ensures k < |s| && s[k] == x
    ensures forall j :: 0 <= j < k ==> s[j] != x
  {
    if s[0] == x then 0 else 1 + FirstIndex(s[1..], x)
  }

  /** `list.remove(x)`: the list without its first element equal to `x`. */
  function RemoveFirst<T(==)>(s: seq<T>, x: T): (r: seq<T>)
    requires x in s
    ensures |r| == |s| - 1
    ensures multiset(r) == multiset(s) - multiset{x}
    ensures forall j :: 0 <= j < FirstIndex(s, x) ==> r[j] == s[j]
    ensures forall j :: FirstIndex(s, x) <= j < |r| ==> r[j] == s[j + 1]
  {
    var k := FirstIndex(s, x);
    assert s == s[..k] + [s[k]] + s[k + 1..];
    s[..k] + s[k + 1..]
  }

  /** The list left by
        for e in s:
            if e == x: s.remove(e)
      A CPython list iterator walks an index `i` over the list as it is at
      each step, so after a removal the element that slides into the
      removed slot is skipped. */
  function Sweep<T(==)>(s: seq<T>, i: nat, x: T): (r: seq<T>)
    ensures multiset(r) <= multiset(s)
    decreases |s| - i
  {
    if i >= |s| then s
    else if s[i] == x then Sweep(RemoveFirst(s, x), i + 1, x)
    else Sweep(s, i + 1, x)
  }

  /** The list without any element equal to `x`, in the original order. */
  function Without<T(==)>(s: seq<T>, x: T): (r: seq<T>)
    ensures x !in r
  {
    if s == [] then []
    else if s[0] == x then Without(s[1..], x)
    else [s[0]] + Without(s[1..], x)
  }

  lemma {:induction false} WithoutConcat<T>(a: seq<T>, b: seq<T>, x: T)
    ensures Without(a + b, x) == Without(a, x) + Without(b, x)
    decreases |a|
  {
    if a == [] {
      assert a + b == b;
    } else {
      assert (a + b)[1..] == a[1..] + b;
      WithoutConcat(a[1..], b, x);
    }
  }

  lemma RemoveFirstKeepsOthers<T>(s: seq<T>, x: T)
    requires x in s
    ensures Without(RemoveFirst(s, x), x) == Without(s, x)
  {
    var k := FirstIndex(s, x);
    assert s == s[..k] + ([s[k]] + s[k + 1..]);
    WithoutConcat(s[..k], [s[k]] + s[k + 1..], x);
    WithoutConcat([s[k]], s[k + 1..], x);
    WithoutConcat(s[..k], s[k + 1..], x);
  }

  /** A sweep for an element the list does not hold changes nothing. */
  lemma {:induction false} SweepAbsent<T>(s: seq<T>, i: nat, x: T)
    requires x !in s
    ensures Sweep(s, i, x) == s
    decreases |s| - i
  {
    if i < |s| {
      SweepAbsent(s, i + 1, x);
    }
  }

  /** The sweep never touches the other elements: they stay, in their order. */
  lemma {:induction false} SweepKeepsOthers<T>(s: seq<T>, i: nat, x: T)
    ensures Without(Sweep(s, i, x), x) == Without(s, x)
    decreases |s| - i
  {
    if i < |s| {
      if s[i] == x {
        RemoveFirstKeepsOthers(s, x);
        SweepKeepsOthers(RemoveFirst(s, x), i + 1, x);
      } else {
        SweepKeepsOthers(s, i + 1, x);
      }
    }
  }

  /** The sweep removes at least one copy of `x` when the part of the list
      still to be visited holds one, and never adds any. */
  lemma {:induction false} SweepRemoves<T>(s: seq<T>, i: nat, x: T)
    ensures multiset(Sweep(s, i, x))[x] <= multiset(s)[x]
    ensures i <= |s| && x in s[i..] ==> multiset(Sweep(s, i, x))[x] < multiset(s)[x]
    decreases |s| - i
  {
    if i < |s| {
      if s[i] == x {
        SweepRemoves(RemoveFirst(s, x), i + 1, x);
      } else {
        assert x in s[i..] ==> x in s[i + 1..] by {
          if x in s[i..] {
            var j :| 0 <= j < |s[i..]| && s[i..][j] == x;
            assert j != 0;
            assert s[i + 1..][j - 1] == x;
          }
        }
        SweepRemoves(s, i + 1, x);
      }
    }
  }

  /** When `x` occurs exactly once, the sweep removes exactly that
      occurrence and keeps every other element in order. */
  lemma SweepSingle<T>(s: seq<T>, x: T)
    requires multiset(s)[x] == 1
    ensures var k := FirstIndex(s, x); Sweep(s, 0, x) == s[..k] + s[k + 1..]
  {
    var k := FirstIndex(s, x);
    SweepSkipsTo(s, 0, k, x);
    var r := RemoveFirst(s, x);
    assert r == s[..k] + s[k + 1..];
    assert Sweep(s, k, x) == Sweep(r, k + 1, x);
    assert multiset(r)[x] == 0;
    assert x !in r;
    SweepAbsent(r, k + 1, x);
  }

  lemma {:induction false} SweepSkipsTo<T>(s: seq<T>, i: nat, k: nat, x: T)
    requires i <= k < |s| && s[k] == x
    requires forall j :: i <= j < k ==> s[j] != x
    ensures Sweep(s, i, x) == Sweep(s, k, x)
    decreases k - i
  {
    if i < k {
      assert s[i] != x;
      assert Sweep(s, i, x) == Sweep(s, i + 1, x);
      SweepSkipsTo(s, i + 1, k, x);
    }
  }
}
