/** Capacity accounting: what the grant table holds against a path or a resource. */
module Accounting {
  import opened Tables
  import opened Model

  /** What can be held: units on a path, units of a resource, or the exclusive slot of a path. */
  datatype Key = OnPath(id: Id) | OnResource(id: Id) | Slot(id: Id)

  function Weight(k: Key, g: Grant): nat
  {
    if !HoldsCapacity(g.state) then 0 else
    match k
    case OnPath(id) => if g.binding.path == id then g.units else 0
    case OnResource(id) => if g.binding.resource == id then g.units else 0
    case Slot(id) => if g.binding.path == id then 1 else 0
  }

  /** Sum over the table, leaving out the grant named by `skip`. */
  function Held(t: Table<Grant>, k: Key, skip: Option<Id>): nat
  {
    if t == [] then 0 else
      var last := t[|t| - 1];
      Held(t[..|t| - 1], k, skip) + (if skip == Some(last.id) then 0 else Weight(k, last.val))
  }

  function Total(t: Table<Grant>, k: Key): nat { Held(t, k, None) }

  function Saturated(n: nat): nat { if n > U64_MAX then U64_MAX else n }

  lemma {:induction false} HeldConcat(a: Table<Grant>, b: Table<Grant>, k: Key, skip: Option<Id>)
    ensures Held(a + b, k, skip) == Held(a, k, skip) + Held(b, k, skip)
  {
    if b == [] {
      assert a + b == a;
    } else {
      var n := |b| - 1;
      assert (a + b)[..|a + b| - 1] == a + b[..n];
      HeldConcat(a, b[..n], k, skip);
    }
  }

  lemma HeldSplit(t: Table<Grant>, i: nat, k: Key, skip: Option<Id>)
    requires i < |t|
    ensures Held(t, k, skip)
            == Held(t[..i], k, skip) + Held([t[i]], k, skip) + Held(t[i + 1..], k, skip)
  {
    assert t == t[..i] + [t[i]] + t[i + 1..];
    HeldConcat(t[..i] + [t[i]], t[i + 1..], k, skip);
    HeldConcat(t[..i], [t[i]], k, skip);
  }

  lemma HeldOne(r: Row<Grant>, k: Key, skip: Option<Id>)
    ensures Held([r], k, skip) == if skip == Some(r.id) then 0 else Weight(k, r.val)
  {
    assert [r][..0] == [];
  }

  /** A table update moves the sum by exactly the difference of the two rows. */
  lemma TotalPut(t: Table<Grant>, id: Id, g: Grant, k: Key)
    ensures Total(Put(t, id, g), k) + (if Has(t, id) then Weight(k, Get(t, id).value) else 0)
            == Total(t, k) + Weight(k, g)
  {
    var i := LowerBound(t, id);
    var r := Put(t, id, g);
    HeldOne(Row(id, g), k, None);
    if Has(t, id) {
      HeldSplit(t, i, k, None);
      HeldSplit(r, i, k, None);
      assert r[..i] == t[..i] && r[i + 1..] == t[i + 1..];
      HeldOne(t[i], k, None);
    } else {
      HeldConcat(t[..i] + [Row(id, g)], t[i..], k, None);
      HeldConcat(t[..i], [Row(id, g)], k, None);
      HeldConcat(t[..i], t[i..], k, None);
      assert t == t[..i] + t[i..];
    }
  }

  lemma {:induction false} HeldAbsent(t: Table<Grant>, k: Key, id: Id)
    requires forall i :: 0 <= i < |t| ==> t[i].id != id
    ensures Held(t, k, Some(id)) == Total(t, k)
  {
    if t != [] { HeldAbsent(t[..|t| - 1], k, id); }
  }

  /** Leaving one grant out of the sum takes exactly its own weight away. */
  lemma HeldSkip(t: Table<Grant>, k: Key, id: Id)
    requires Sorted(t)
    ensures Held(t, k, Some(id)) + (if Has(t, id) then Weight(k, Get(t, id).value) else 0) == Total(t, k)
  {
    RowFoundIff(t, id);
    if Has(t, id) {
      var i := LowerBound(t, id);
      forall j | 0 <= j < |t| && t[j].id == id ensures j == i { IdsDistinct(t, i, j); }
      HeldSplit(t, i, k, Some(id));
      HeldSplit(t, i, k, None);
      HeldOne(t[i], k, Some(id));
      HeldOne(t[i], k, None);
      HeldAbsent(t[..i], k, id);
      HeldAbsent(t[i + 1..], k, id);
    } else {
      HeldAbsent(t, k, id);
    }
  }

  /** A sum is at least each of its rows, and at least that of two different rows together. */
  lemma TotalAtLeast(t: Table<Grant>, i: nat, j: nat, k: Key)
    requires i < j < |t|
    ensures Total(t, k) >= Weight(k, t[i].val) + Weight(k, t[j].val)
  {
    HeldSplit(t, j, k, None);
    HeldSplit(t[..j], i, k, None);
    HeldOne(t[i], k, None);
    HeldOne(t[j], k, None);
  }

  ghost predicate UnitsBounded(t: Table<Grant>)
  {
    |t| <= MAX_GRANTS && forall i :: 0 <= i < |t| ==> t[i].val.units <= MAX_UNITS
  }

  lemma {:induction false} HeldBound(t: Table<Grant>, k: Key, skip: Option<Id>)
    requires forall i :: 0 <= i < |t| ==> t[i].val.units <= MAX_UNITS
    ensures Held(t, k, skip) <= |t| * MAX_UNITS
  {
    if t != [] {
      assert t[|t| - 1].val.units <= MAX_UNITS;
      HeldBound(t[..|t| - 1], k, skip);
    }
  }

  /** Within the table's bounds the saturating sum is the true sum: it never saturates. */
  lemma NeverSaturates(t: Table<Grant>, k: Key, skip: Option<Id>)
    requires UnitsBounded(t)
    ensures Saturated(Held(t, k, skip)) == Held(t, k, skip) <= MAX_GRANTS * MAX_UNITS < U64_MAX
  {
    HeldBound(t, k, skip);
    assert |t| * MAX_UNITS <= MAX_GRANTS * MAX_UNITS;
  }

  /** `path_committed_units`, `reserved_units` and the two sums inside `evaluate`: one loop that
      stops with the 64-bit maximum as soon as a partial sum would wrap. */
  method SumHeld(t: Table<Grant>, k: Key, skip: Option<Id>) returns (total: nat)
    requires k.OnPath? || k.OnResource?
    requires forall i :: 0 <= i < |t| ==> t[i].val.units <= U64_MAX
    ensures total == Saturated(Held(t, k, skip))
  {
    total := 0;
    for i := 0 to |t|
      invariant total == Held(t[..i], k, skip) <= U64_MAX
    {
      var g := t[i].val;
      assert t[..i + 1][..i] == t[..i];
      var other := if k.OnPath? then g.binding.path != k.id else g.binding.resource != k.id;
      if other || !HoldsCapacity(g.state) { continue; }
      if skip == Some(t[i].id) { continue; }
      if total > U64_MAX - g.units {
        assert t == t[..i + 1] + t[i + 1..];
        HeldConcat(t[..i + 1], t[i + 1..], k, skip);
        return U64_MAX;
      }
      total := total + g.units;
    }
    assert t[..|t|] == t;
  }

  /** `live_grants_for_path` as used by the exclusivity check: some holder of the path other than
      the requester's own attempt and the grant being renewed. */
  predicate OtherHolder(t: Table<Grant>, path: Id, attempt: Id, skip: Option<Id>)
  {
    exists i :: 0 <= i < |t| && HoldsCapacity(t[i].val.state) && t[i].val.binding.path == path
                && t[i].val.binding.attempt != attempt && skip != Some(t[i].id)
  }

  lemma {:induction false} NoHolderZero(t: Table<Grant>, path: Id, attempt: Id, skip: Option<Id>)
    requires !OtherHolder(t, path, attempt, skip)
    requires forall i :: 0 <= i < |t| && t[i].val.binding.attempt == attempt ==> skip == Some(t[i].id)
    ensures Held(t, Slot(path), skip) == 0
  {
    if t != [] {
      var n := |t| - 1;
      assert t[n].val.binding.attempt == attempt ==> skip == Some(t[n].id);
      assert !OtherHolder(t[..n], path, attempt, skip);
      NoHolderZero(t[..n], path, attempt, skip);
    }
  }
}
