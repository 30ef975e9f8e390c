/** Id-sorted tables, the shape of every table the controller keeps
    (grants, attempts, members, paths, exclusions, obligations, contracts). */
module Tables {

  datatype Option<+T> = None | Some(value: T)

  type Id = string

  /** `std::string::operator<`. */
  predicate Less(a: Id, b: Id)
  {
    b != [] && (a == [] || a[0] < b[0] || (a[0] == b[0] && Less(a[1..], b[1..])))
  }

  lemma {:induction false} LessIrreflexive(a: Id)
    ensures !Less(a, a)
  {
    if a != [] { LessIrreflexive(a[1..]); }
  }

  lemma {:induction false} LessTransitive(a: Id, b: Id, c: Id)
    requires Less(a, b) && Less(b, c)
    ensures Less(a, c)
  {
    if a != [] && a[0] == b[0] == c[0] { LessTransitive(a[1..], b[1..], c[1..]); }
  }

  lemma {:induction false} LessTotal(a: Id, b: Id)
    ensures a == b || Less(a, b) || Less(b, a)
  {
    if a != [] && b != [] && a[0] == b[0] {
      LessTotal(a[1..], b[1..]);
      if a[1..] == b[1..] { assert a == [a[0]] + a[1..] && b == [b[0]] + b[1..]; }
    }
  }

  datatype Row<+T> = Row(id: Id, val: T)
  type Table<+T> = seq<Row<T>>

  ghost predicate Sorted<T>(t: Table<T>)
  {
    forall i, j :: 0 <= i < j < |t| ==> Less(t[i].id, t[j].id)
  }

  /** `std::lower_bound` by id: the first position whose id is not below `id`. */
  function LowerBound<T>(t: Table<T>, id: Id): (i: nat)
    ensures i <= |t|
    ensures forall j :: 0 <= j < i ==> Less(t[j].id, id)
    ensures i < |t| ==> !Less(t[i].id, id)
  {
    if t == [] || !Less(t[0].id, id) then 0 else
      var i := LowerBound(t[1..], id);
      assert forall j :: 1 <= j < i + 1 ==> t[j] == t[1..][j - 1];
      i + 1
  }

  predicate Has<T>(t: Table<T>, id: Id)
  {
    var i := LowerBound(t, id);
    i < |t| && t[i].id == id
  }

  function Get<T>(t: Table<T>, id: Id): Option<T>
  {
    if Has(t, id) then Some(t[LowerBound(t, id)].val) else None
  }

  /** Replace the row with this id, or insert a new one at its sorted place. */
  function Put<T>(t: Table<T>, id: Id, v: T): (r: Table<T>)
    ensures |r| == if Has(t, id) then |t| else |t| + 1
  {
    var i := LowerBound(t, id);
    if Has(t, id) then t[i := Row(id, v)] else t[..i] + [Row(id, v)] + t[i..]
  }

  function Drop<T>(t: Table<T>, id: Id): Table<T>
  {
    var i := LowerBound(t, id);
    if Has(t, id) then t[..i] + t[i + 1..] else t
  }

  lemma {:induction false} LowerBoundUnique<T>(t: Table<T>, id: Id, i: nat)
    requires i <= |t|
    requires forall j :: 0 <= j < i ==> Less(t[j].id, id)
    requires i < |t| ==> !Less(t[i].id, id)
    ensures LowerBound(t, id) == i
  {
    if t != [] && Less(t[0].id, id) {
      assert i > 0;
      LowerBoundUnique(t[1..], id, i - 1);
    }
  }

  /** In a sorted table a row is found under its own id, at its own position. */
  lemma RowFound<T>(t: Table<T>, i: nat)
    requires Sorted(t) && i < |t|
    ensures LowerBound(t, t[i].id) == i && Has(t, t[i].id) && Get(t, t[i].id) == Some(t[i].val)
  {
    LessIrreflexive(t[i].id);
    LowerBoundUnique(t, t[i].id, i);
  }

  /** Where a row is depends on the ids alone. */
  lemma SameIds<T>(t: Table<T>, u: Table<T>, id: Id)
    requires |t| == |u| && forall i :: 0 <= i < |t| ==> u[i].id == t[i].id
    ensures LowerBound(u, id) == LowerBound(t, id) && Has(u, id) == Has(t, id)
  {
    LowerBoundUnique(u, id, LowerBound(t, id));
  }

  lemma RowFoundIff<T>(t: Table<T>, id: Id)
    requires Sorted(t)
    ensures Has(t, id) <==> exists i :: 0 <= i < |t| && t[i].id == id
  {
    if i :| 0 <= i < |t| && t[i].id == id { RowFound(t, i); }
  }

  lemma IdsDistinct<T>(t: Table<T>, i: nat, j: nat)
    requires Sorted(t) && i < |t| && j < |t| && t[i].id == t[j].id
    ensures i == j
  {
    RowFound(t, i);
    RowFound(t, j);
  }

  lemma IdsUnique<T>(t: Table<T>)
    requires Sorted(t)
    ensures forall i, j :: 0 <= i < j < |t| ==> t[i].id != t[j].id
  {
    forall i, j | 0 <= i < j < |t| ensures t[i].id != t[j].id { LessIrreflexive(t[i].id); }
  }

  lemma LessBelow<T>(t: Table<T>, id: Id, i: nat, k: nat)
    requires Sorted(t) && i <= k < |t| && !Less(t[i].id, id) && t[i].id != id
    ensures Less(id, t[k].id)
  {
    LessTotal(id, t[i].id);
    if k > i { LessTransitive(id, t[i].id, t[k].id); }
  }

  lemma PutSorted<T>(t: Table<T>, id: Id, v: T)
    requires Sorted(t)
    ensures Sorted(Put(t, id, v))
  {
    hide Less;
    var i := LowerBound(t, id);
    if !Has(t, id) {
      forall k | i <= k < |t| ensures Less(id, t[k].id) { LessBelow(t, id, i, k); }
      InsertSorted(t, i, Row(id, v));
    }
  }

  lemma InsertSorted<T>(t: Table<T>, i: nat, row: Row<T>)
    requires Sorted(t) && i <= |t|
    requires forall k :: 0 <= k < i ==> Less(t[k].id, row.id)
    requires forall k :: i <= k < |t| ==> Less(row.id, t[k].id)
    ensures Sorted(t[..i] + [row] + t[i..])
  {
    hide Less;
    var r := t[..i] + [row] + t[i..];
    forall a, b | 0 <= a < b < |r| ensures Less(r[a].id, r[b].id) {
      if a < i {
        if b > i { assert r[b] == t[b - 1]; }
      } else if a == i {
        assert r[b] == t[b - 1];
      } else {
        assert r[a] == t[a - 1] && r[b] == t[b - 1];
      }
    }
  }

  lemma DropSorted<T>(t: Table<T>, id: Id)
    requires Sorted(t)
    ensures Sorted(Drop(t, id))
  {}

  lemma GetPut<T>(t: Table<T>, id: Id, v: T, k: Id)
    requires Sorted(t)
    ensures Get(Put(t, id, v), k) == if k == id then Some(v) else Get(t, k)
  {
    hide Put, Sorted, LowerBound, Less;
    PutSorted(t, id, v);
    var r := Put(t, id, v);
    RowFoundIff(t, k);
    RowFoundIff(r, k);
    if k == id {
      PutFound(t, id, v);
      PutAt(t, id, v, LowerBound(t, id));
    } else {
      if Has(t, k) {
        NewPlace(t, id, v, LowerBound(t, k));
      }
      if Has(r, k) { OldPlace(t, id, v, LowerBound(r, k)); }
    }
  }

  /** The rows of an updated table. */
  lemma PutAt<T>(t: Table<T>, id: Id, v: T, i: nat)
    requires i < |Put(t, id, v)|
    ensures var k := LowerBound(t, id);
            if i == k then Put(t, id, v)[i] == Row(id, v)
            else var j := if Has(t, id) || i < k then i else i - 1; 0 <= j < |t| && Put(t, id, v)[i] == t[j]
  {}

  /** An old row under another id is found where the update left it. */
  lemma NewPlace<T>(t: Table<T>, id: Id, v: T, j: nat)
    requires Sorted(Put(t, id, v)) && j < |t| && t[j].id != id
    ensures Get(Put(t, id, v), t[j].id) == Some(t[j].val)
  {
    var r, i := Put(t, id, v), LowerBound(t, id);
    var m := if Has(t, id) || j < i then j else j + 1;
    assert r[m] == t[j];
    RowFound(r, m);
  }

  lemma OldPlace<T>(t: Table<T>, id: Id, v: T, m: nat)
    requires Sorted(t) && m < |Put(t, id, v)| && Put(t, id, v)[m].id != id
    ensures Get(t, Put(t, id, v)[m].id) == Some(Put(t, id, v)[m].val)
  {
    hide Put, Less;
    PutAt(t, id, v, m);
    var i := LowerBound(t, id);
    RowFound(t, if Has(t, id) || m < i then m else m - 1);
  }

  lemma GetDrop<T>(t: Table<T>, id: Id, k: Id)
    requires Sorted(t)
    ensures Get(Drop(t, id), k) == if k == id then None else Get(t, k)
  {
    var r := Drop(t, id);
    DropSorted(t, id);
    RowFoundIff(t, k);
    RowFoundIff(r, k);
    if Has(t, id) {
      var i := LowerBound(t, id);
      if Has(r, k) {
        var m := LowerBound(r, k);
        var j := if m < i then m else m + 1;
        assert t[j] == r[m];
        RowFound(t, j);
      }
      if Has(t, k) && k != id {
        var j := LowerBound(t, k);
        var m := if j < i then j else j - 1;
        assert r[m] == t[j];
        RowFound(r, m);
      }
    }
  }

  /** Putting twice under one id keeps only the second value. */
  lemma PutPut<T>(t: Table<T>, id: Id, v: T, w: T)
    ensures Put(Put(t, id, v), id, w) == Put(t, id, w)
  {
    PutFound(t, id, v);
    var i := LowerBound(t, id);
    var a, b := Put(Put(t, id, v), id, w), Put(t, id, w);
    forall j | 0 <= j < |b| ensures a[j] == b[j] {}
  }

  lemma PutFound<T>(t: Table<T>, id: Id, v: T)
    ensures LowerBound(Put(t, id, v), id) == LowerBound(t, id) && Has(Put(t, id, v), id)
  {
    var i := LowerBound(t, id);
    var r := Put(t, id, v);
    forall j | 0 <= j < i ensures Less(r[j].id, id) { assert r[j] == t[j]; }
    assert r[i] == Row(id, v);
    LessIrreflexive(id);
    LowerBoundUnique(r, id, i);
  }

  lemma PutSame<T>(t: Table<T>, i: nat, v: T)
    requires Sorted(t) && i < |t|
    ensures Put(t, t[i].id, v) == t[i := Row(t[i].id, v)]
  {
    RowFound(t, i);
  }

  /** `std::sort` by id, as insertion of each row in turn after its equals. */
  function SortById<T>(t: Table<T>): (r: Table<T>)
    ensures |r| == |t|
  {
    if t == [] then [] else InsertRow(SortById(t[..|t| - 1]), t[|t| - 1])
  }

  function InsertRow<T>(t: Table<T>, row: Row<T>): (r: Table<T>)
    ensures |r| == |t| + 1
  {
    if t != [] && Less(row.id, t[|t| - 1].id)
    then InsertRow(t[..|t| - 1], row) + [t[|t| - 1]]
    else t + [row]
  }

  lemma {:induction false} SortOfSorted<T>(t: Table<T>)
    requires Sorted(t)
    ensures SortById(t) == t
  {
    if t != [] {
      var n := |t| - 1;
      SortOfSorted(t[..n]);
      if n > 0 && Less(t[n].id, t[n - 1].id) {
        LessTransitive(t[n].id, t[n - 1].id, t[n].id);
        LessIrreflexive(t[n].id);
      }
    }
  }

  lemma {:induction false} SubsetSize<T>(a: set<T>, b: set<T>)
    requires a <= b
    ensures |a| <= |b|
    decreases a
  {
    if a != {} {
      var x :| x in a;
      SubsetSize(a - {x}, b - {x});
    }
  }

  /** The ids of a table as a set; sorted ids are distinct, so none is lost. */
  ghost function Ids<T>(t: Table<T>): set<Id>
  {
    set i | 0 <= i < |t| :: t[i].id
  }

  lemma {:induction false} IdsSize<T>(t: Table<T>)
    requires Sorted(t)
    ensures |Ids(t)| == |t|
  {
    if t != [] {
      var n := |t| - 1;
      IdsSize(t[..n]);
      if t[n].id in Ids(t[..n]) {
        var i :| 0 <= i < n && t[i].id == t[n].id;
        LessIrreflexive(t[n].id);
      }
      assert Ids(t) == Ids(t[..n]) + {t[n].id};
    }
  }
}
