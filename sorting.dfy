/**
 * Python's stable `list.sort(key=...)` on `(id, value)` pairs, ascending or
 * with `reverse=True`: equal values keep their original order either way.
 */
module Sorting {
  type Entry = (string, real)

  /** `a` belongs strictly before `b` in the requested order. */
  predicate Precedes(a: Entry, b: Entry, descending: bool)
  {
    if descending then a.1 > b.1 else a.1 < b.1
  }

  predicate Ordered(xs: seq<Entry>, descending: bool)
  {
    forall i, j :: 0 <= i < j < |xs| ==> !Precedes(xs[j], xs[i], descending)
  }

  /** Stable insertion of an entry that came earlier than all of `ys`: it goes before the first entry not strictly ahead of it. */
  function Insert(x: Entry, ys: seq<Entry>, descending: bool): (r: seq<Entry>)
    ensures multiset(r) == multiset(ys) + multiset{x}
    ensures |r| == |ys| + 1
  {
    if |ys| == 0 then [x]
    else if !Precedes(ys[0], x, descending) then [x] + ys
    else
      assert ys == [ys[0]] + ys[1..];
      [ys[0]] + Insert(x, ys[1..], descending)
  }

  lemma {:induction false} InsertOrdered(x: Entry, ys: seq<Entry>, descending: bool)
    requires Ordered(ys, descending)
    ensures Ordered(Insert(x, ys, descending), descending)
  {
    if |ys| > 0 && Precedes(ys[0], x, descending) {
      var rest := ys[1..];
      InsertOrdered(x, rest, descending);
      InsertMembers(x, rest, descending);
      var r := Insert(x, rest, descending);
      forall j | 0 <= j < |r| ensures !Precedes(r[j], ys[0], descending) {
        assert r[j] in r;
        if r[j] != x {
          var t :| 0 <= t < |rest| && rest[t] == r[j];
          assert ys[t + 1] == r[j];
        }
      }
      ConsOrdered(ys[0], r, descending);
    }
  }

  /** Every entry of the insertion is the inserted one or one of the list. */
  lemma {:induction false} InsertMembers(x: Entry, ys: seq<Entry>, descending: bool)
    ensures forall e :: e in Insert(x, ys, descending) ==> e == x || e in ys
  {
    if |ys| > 0 && Precedes(ys[0], x, descending) {
      InsertMembers(x, ys[1..], descending);
      assert ys == [ys[0]] + ys[1..];
    }
  }

  /** An entry no later entry is strictly ahead of can lead an ordered list. */
  lemma ConsOrdered(y: Entry, r: seq<Entry>, descending: bool)
    requires Ordered(r, descending)
    requires forall j :: 0 <= j < |r| ==> !Precedes(r[j], y, descending)
    ensures Ordered([y] + r, descending)
  {
    forall i, j | 0 <= i < j < |r| + 1 ensures !Precedes(([y] + r)[j], ([y] + r)[i], descending) {
      assert ([y] + r)[j] == r[j - 1];
      if i > 0 {
        assert ([y] + r)[i] == r[i - 1];
      }
    }
  }

  /** The stable sort, by insertion from the back. */
  function SortBy(xs: seq<Entry>, descending: bool): seq<Entry>
  {
    if |xs| == 0 then [] else Insert(xs[0], SortBy(xs[1..], descending), descending)
  }

  /** The sort orders its input and is a permutation of it. */
  lemma {:induction false} SortByCorrect(xs: seq<Entry>, descending: bool)
    ensures Ordered(SortBy(xs, descending), descending)
    ensures multiset(SortBy(xs, descending)) == multiset(xs)
    ensures |SortBy(xs, descending)| == |xs|
  {
    if |xs| > 0 {
      SortByCorrect(xs[1..], descending);
      InsertOrdered(xs[0], SortBy(xs[1..], descending), descending);
      assert xs == [xs[0]] + xs[1..];
    }
  }

  /**
   * Stability at the head: the sorted list starts with the first entry
   * that no other entry is strictly ahead of.
   */
  lemma {:induction false} SortByHead(xs: seq<Entry>, descending: bool, i: nat)
    requires i < |xs|
    requires forall j :: 0 <= j < |xs| ==> !Precedes(xs[j], xs[i], descending)
    requires forall j :: 0 <= j < i ==> Precedes(xs[i], xs[j], descending)
    ensures SortBy(xs, descending)[0] == xs[i]
  {
    if |xs| > 1 {
      var tail := xs[1..];
      if i == 0 {
        FirstStaysFirst(xs, descending);
      } else {
        forall j | 0 <= j < |tail| ensures !Precedes(tail[j], tail[i - 1], descending) {
          assert tail[j] == xs[j + 1];
        }
        SortByHead(tail, descending, i - 1);
        InsertBehindHead(xs[0], SortBy(tail, descending), descending);
      }
    }
  }

  /** A first entry nothing is strictly ahead of stays first. */
  lemma FirstStaysFirst(xs: seq<Entry>, descending: bool)
    requires |xs| > 1
    requires forall j :: 0 <= j < |xs| ==> !Precedes(xs[j], xs[0], descending)
    ensures SortBy(xs, descending)[0] == xs[0]
  {
    var tail := xs[1..];
    SortByCorrect(tail, descending);
    var s := SortBy(tail, descending);
    assert s[0] in multiset(tail);
    var t :| 0 <= t < |tail| && tail[t] == s[0];
    assert xs[t + 1] == s[0];
  }

  /** An entry that the head of a list is strictly ahead of goes behind that head. */
  lemma InsertBehindHead(x: Entry, ys: seq<Entry>, descending: bool)
    requires |ys| > 0 && Precedes(ys[0], x, descending)
    ensures Insert(x, ys, descending)[0] == ys[0]
  {
  }
}
