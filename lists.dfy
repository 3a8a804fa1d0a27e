/**
 * The list operations the views apply to their cached collections:
 * `filter`, the replace-by-id `map`, remove-by-id, the three-item previews
 * and the "View All" condition.
 */
module ListCache {
  import opened Base
  import opened Records

  /** `s.filter(keep)`. */
  function Filter<T(!new)>(s: seq<T>, keep: T -> bool): (r: seq<T>)
    ensures |r| <= |s|
    ensures forall x {:trigger x in r} :: x in r <==> x in s && keep(x)
    ensures (forall i :: 0 <= i < |s| ==> keep(s[i])) ==> r == s
  {
    if |s| == 0 then []
    else if keep(s[0]) then [s[0]] + Filter(s[1..], keep)
    else Filter(s[1..], keep)
  }

  /** Filtering keeps the relative order: it distributes over concatenation. */
  lemma {:induction false} FilterConcat<T(!new)>(a: seq<T>, b: seq<T>, keep: T -> bool)
    ensures Filter(a + b, keep) == Filter(a, keep) + Filter(b, keep)
  {
    if |a| == 0 {
      assert a + b == b;
    } else {
      assert (a + b)[0] == a[0];
      assert (a + b)[1..] == a[1..] + b;
      FilterConcat(a[1..], b, keep);
    }
  }

  /** A filter that keeps nothing of `s` gives the empty list. */
  lemma {:induction false} FilterNone<T(!new)>(s: seq<T>, keep: T -> bool)
    requires forall x :: x in s ==> !keep(x)
    ensures Filter(s, keep) == []
  {
    if |s| > 0 {
      assert s[0] in s;
      assert forall x :: x in s[1..] ==> x in s;
      FilterNone(s[1..], keep);
    }
  }

  /** Filtering twice with the same test is filtering once. */
  lemma {:induction false} FilterIdempotent<T(!new)>(s: seq<T>, keep: T -> bool)
    ensures Filter(Filter(s, keep), keep) == Filter(s, keep)
  {
    if |s| > 0 {
      FilterIdempotent(s[1..], keep);
      if keep(s[0]) {
        var r := Filter(s, keep);
        assert r[0] == s[0] && r[1..] == Filter(s[1..], keep);
      }
    }
  }

  /** Two tests that agree on every element of `s` select the same elements. */
  lemma {:induction false} FilterAgree<T(!new)>(s: seq<T>, k1: T -> bool, k2: T -> bool)
    requires forall x :: x in s ==> k1(x) == k2(x)
    ensures Filter(s, k1) == Filter(s, k2)
  {
    if |s| > 0 {
      assert s[0] in s;
      assert forall x :: x in s[1..] ==> x in s;
      FilterAgree(s[1..], k1, k2);
    }
  }

  /** Whether record `r` has the id `id` under property `key` (`r[key] === id`). */
  predicate HasId(r: Record, key: string, id: Option<Value>) {
    Get(r, key) == id
  }

  /** `[...s, x]`. */
  function Append(s: seq<Record>, x: Record): (r: seq<Record>)
    ensures |r| == |s| + 1 && r[..|s|] == s && r[|s|] == x
  {
    s + [x]
  }

  /** `s.map(e => e[key] === updated[key] ? updated : e)`. */
  function ReplaceById(s: seq<Record>, key: string, updated: Record): (r: seq<Record>)
    ensures |r| == |s|
    ensures forall i :: 0 <= i < |s| && HasId(s[i], key, Get(updated, key)) ==> r[i] == updated
    ensures forall i :: 0 <= i < |s| && !HasId(s[i], key, Get(updated, key)) ==> r[i] == s[i]
  {
    seq(|s|, i requires 0 <= i < |s| => if HasId(s[i], key, Get(updated, key)) then updated else s[i])
  }

  /** `s.filter(e => e[key] !== id)`. */
  function RemoveById(s: seq<Record>, key: string, id: Option<Value>): (r: seq<Record>)
    ensures |r| <= |s|
    ensures forall x :: x in r <==> x in s && !HasId(x, key, id)
    ensures (forall i :: 0 <= i < |s| ==> !HasId(s[i], key, id)) ==> r == s
  {
    Filter(s, (x: Record) => !HasId(x, key, id))
  }

  /** Removing by id keeps the order of what remains: it distributes over concatenation. */
  lemma RemoveByIdConcat(a: seq<Record>, b: seq<Record>, key: string, id: Option<Value>)
    ensures RemoveById(a + b, key, id) == RemoveById(a, key, id) + RemoveById(b, key, id)
  {
    FilterConcat(a, b, (x: Record) => !HasId(x, key, id));
  }

  /** Deleting an id that is not in the list leaves the list as it was. */
  lemma RemoveAbsentId(s: seq<Record>, key: string, id: Option<Value>)
    requires forall x :: x in s ==> !HasId(x, key, id)
    ensures RemoveById(s, key, id) == s
  {
    assert forall i :: 0 <= i < |s| ==> s[i] in s;
  }

  /** Adding a record and then deleting its id gives the same list as deleting
      that id before the add. */
  lemma RemoveAfterAppend(s: seq<Record>, key: string, x: Record)
    ensures RemoveById(Append(s, x), key, Get(x, key)) == RemoveById(s, key, Get(x, key))
  {
    RemoveByIdConcat(s, [x], key, Get(x, key));
    assert RemoveById([x], key, Get(x, key)) == [];
  }

  /** Two lists of equal length whose elements pass the test at the same
      positions, and agree wherever they pass, filter to the same list. */
  lemma {:induction false} FilterPointwise<T(!new)>(s: seq<T>, t: seq<T>, keep: T -> bool)
    requires |s| == |t|
    requires forall i :: 0 <= i < |s| ==> keep(s[i]) == keep(t[i])
    requires forall i :: 0 <= i < |s| && keep(s[i]) ==> s[i] == t[i]
    ensures Filter(s, keep) == Filter(t, keep)
  {
    if |s| > 0 {
      assert keep(s[0]) == keep(t[0]);
      FilterPointwise(s[1..], t[1..], keep);
    }
  }

  /** Updating a record and then deleting its id gives the same list as deleting
      it straight away. */
  lemma RemoveAfterReplace(s: seq<Record>, key: string, updated: Record)
    ensures RemoveById(ReplaceById(s, key, updated), key, Get(updated, key))
         == RemoveById(s, key, Get(updated, key))
  {
    var id := Get(updated, key);
    var keep := (x: Record) => !HasId(x, key, id);
    FilterPointwise(s, ReplaceById(s, key, updated), keep);
  }

  /** Replacing with the same record twice is replacing once. */
  lemma ReplaceIdempotent(s: seq<Record>, key: string, updated: Record)
    ensures ReplaceById(ReplaceById(s, key, updated), key, updated) == ReplaceById(s, key, updated)
  {
  }

  /** `s.slice(0, 3)`. */
  function Preview<T>(s: seq<T>): (r: seq<T>)
    ensures |r| == Min(3, |s|)
    ensures forall i :: 0 <= i < |r| ==> r[i] == s[i]
  {
    s[..Min(3, |s|)]
  }

  /** "View All" is offered when `count > 3`. */
  predicate ShowViewAll(count: int) { count > 3 }

  /** "View All" is offered exactly when the preview leaves something out. */
  lemma ViewAllIffPreviewShort<T>(s: seq<T>)
    ensures ShowViewAll(|s|) <==> Preview(s) != s
  {
    if !ShowViewAll(|s|) {
      assert Preview(s) == s[..|s|] == s;
    }
  }

  /** Adding to a list whose preview is full leaves the preview as it was;
      adding to a shorter one shows the whole list, the new item last. */
  lemma PreviewAfterAppend(s: seq<Record>, x: Record)
    ensures |s| >= 3 ==> Preview(Append(s, x)) == Preview(s)
    ensures |s| < 3 ==> Preview(Append(s, x)) == Append(s, x)
  {
  }

  predicate IsPending(b: Record) { Get(b, "status") == Some(Str("pending")) }

  /** The bookings whose status is `'pending'`. */
  function PendingBookings(bookings: seq<Record>): (r: seq<Record>)
    ensures forall b :: b in r <==> b in bookings && IsPending(b)
  {
    Filter(bookings, IsPending)
  }

  /** The dashboard's active-bookings preview:
      `bookings.filter(b => b.status === 'pending').slice(0, 3)`. */
  function ActivePreview(bookings: seq<Record>): (r: seq<Record>)
    ensures |r| <= 3
    ensures forall b :: b in r ==> b in bookings && IsPending(b)
  {
    Preview(PendingBookings(bookings))
  }

  /** The active preview is the first `min(3, n)` pending bookings, in the order
      of the list: prepending non-pending bookings does not change it, and a
      pending booking in front comes first. */
  lemma ActivePreviewOrder(front: seq<Record>, rest: seq<Record>)
    ensures (forall b :: b in front ==> !IsPending(b)) ==>
              ActivePreview(front + rest) == ActivePreview(rest)
    ensures |front| == 1 && IsPending(front[0]) ==>
              ActivePreview(front + rest)[0] == front[0]
  {
    FilterConcat(front, rest, IsPending);
    if forall b :: b in front ==> !IsPending(b) {
      FilterNone(front, IsPending);
    }
    if |front| == 1 && IsPending(front[0]) {
      assert PendingBookings(front) == [front[0]];
    }
  }

  /** The bookings section offers "View All" exactly when its preview leaves
      out a pending booking. */
  lemma BookingsViewAllIffPendingHidden(bookings: seq<Record>)
    ensures ShowViewAll(|PendingBookings(bookings)|) <==> ActivePreview(bookings) != PendingBookings(bookings)
  {
    ViewAllIffPreviewShort(PendingBookings(bookings));
  }
}
