/** What every reachable controller state keeps, live and on its log. */
module Safety {
  import opened Tables
  import opened Model
  import opened Cluster
  import opened Accounting
  import opened Eligibility
  import opened Engine
  import opened Replay
  import Decimal

  // ----- soundness of a store -----

  predicate Carries(o: Outcome) { o == Granted || o == Degraded }

  predicate GrantShape(g: Grant)
  {
    g.binding.attempt != [] && g.units <= MAX_UNITS && Carries(g.outcome)
  }

  ghost predicate GrantsWell(t: Table<Grant>)
  {
    && Sorted(t) && |t| <= MAX_GRANTS
    && (forall i :: 0 <= i < |t| ==> t[i].id != [] && GrantShape(t[i].val))
    && (forall i, j :: 0 <= i < j < |t| ==> t[i].val.binding.attempt != t[j].val.binding.attempt)
  }

  /** An attempt record belongs to the grant it names, and marks it over only once it is. */
  predicate Linked1(t: Table<Grant>, row: Row<Attempt>)
  {
    Has(t, row.val.grant)
    && var g := Get(t, row.val.grant).value;
       g.binding.attempt == row.id && (row.val.released || row.val.cancelled ==> IsTerminal(g.state))
  }

  ghost predicate AttemptsWell(t: Table<Grant>, a: Table<Attempt>)
  {
    Sorted(a) && forall i :: 0 <= i < |a| ==> Linked1(t, a[i])
  }

  /** No over-commit on one path: held units within its capacity, one holder if it is exclusive. */
  predicate FitPath(t: Table<Grant>, id: Id, p: Path)
  {
    Total(t, OnPath(id)) <= p.capacity && (p.exclusive ==> Total(t, Slot(id)) <= 1)
  }

  predicate Owns(m: Member, id: Id) { FindResource(m.resources, id).Some? }

  predicate FitResource(t: Table<Grant>, m: Member, id: Id)
  {
    id != [] && Owns(m, id) ==> Total(t, OnResource(id)) <= FindResource(m.resources, id).value.total
  }

  ghost predicate PathsFit(t: Table<Grant>, paths: Table<Path>)
  {
    forall i :: 0 <= i < |paths| ==> FitPath(t, paths[i].id, paths[i].val)
  }

  ghost predicate ResourcesFit(t: Table<Grant>, members: Table<Member>)
  {
    forall i, id :: 0 <= i < |members| ==> FitResource(t, members[i].val, id)
  }

  ghost predicate OneOwner(members: Table<Member>)
  {
    forall i, j, id :: 0 <= i < j < |members| && id != [] && Owns(members[i].val, id) ==> !Owns(members[j].val, id)
  }

  ghost predicate SpecWell(s: Spec)
  {
    s.id != [] && Sorted(s.members) && Sorted(s.paths) && Sorted(s.exclusions) && Sorted(s.obligations)
  }

  /** No over-commit anywhere. Resource units are summed by resource id over all members, so the
      claim includes that no two members own one id. */
  ghost predicate Fits(t: Table<Grant>, s: Spec)
  {
    PathsFit(t, s.paths) && ResourcesFit(t, s.members) && OneOwner(s.members)
  }

  ghost predicate ContractsWell(t: Table<Contract>)
  {
    Sorted(t) && forall i :: 0 <= i < |t| ==> ContractStatus(t[i].id, t[i].val) == Ok
  }

  /** A well-formed store; with `fit`, one that commits no more than there is. */
  ghost predicate Sound(s: Store, fit: bool)
  {
    SpecWell(s.spec) && ContractsWell(s.contracts) && GrantsWell(s.grants) && AttemptsWell(s.grants, s.attempts)
    && (fit ==> Fits(s.grants, s.spec))
  }

  lemma FitsOfEssences(t: Table<Grant>, s: Spec)
    ensures Fits(Essences(t), s) <==> Fits(t, s)
  {
    forall k ensures Total(Essences(t), k) == Total(t, k) { TotalOfEssences(t, k); }
    forall id, p ensures FitPath(Essences(t), id, p) == FitPath(t, id, p) {}
    forall m, id ensures FitResource(Essences(t), m, id) == FitResource(t, m, id) {}
  }

  lemma GrantsWellOfEssences(t: Table<Grant>)
    ensures GrantsWell(Essences(t)) <==> GrantsWell(t)
  {
    var r := Essences(t);
    EssencesSorted(t);
    if GrantsWell(r) {
      forall i | 0 <= i < |t| ensures GrantShape(t[i].val) { assert GrantShape(r[i].val); }
      forall i | 0 <= i < |t| ensures t[i].id != [] { assert r[i].id != []; }
      forall i, j | 0 <= i < j < |t| ensures t[i].val.binding.attempt != t[j].val.binding.attempt {
        assert r[i].val.binding.attempt != r[j].val.binding.attempt;
      }
    }
  }

  lemma AttemptsWellOfEssences(t: Table<Grant>, a: Table<Attempt>)
    ensures AttemptsWell(Essences(t), a) <==> AttemptsWell(t, a)
  {
    forall i | 0 <= i < |a| ensures Linked1(Essences(t), a[i]) == Linked1(t, a[i]) {
      EssencesFind(t, a[i].val.grant);
    }
  }

  /** Soundness is a matter of what the log determines. */
  lemma SoundOfAbs(s: Store, t: Store, fit: bool)
    requires Abs(s) == Abs(t)
    ensures Sound(s, fit) <==> Sound(t, fit)
  {
    forall u: Store ensures Sound(u, fit) <==> Sound(Abs(u), fit) {
      FitsOfEssences(u.grants, u.spec);
      GrantsWellOfEssences(u.grants);
      AttemptsWellOfEssences(u.grants, u.attempts);
    }
  }

  // ----- one grant changes -----

  /** Each row of an updated table is the new row or an old one under another id. */
  lemma RowsOfPut(t: Table<Grant>, id: Id, g: Grant, i: nat)
    requires Sorted(t) && i < |Put(t, id, g)|
    ensures var r := Put(t, id, g);
            var k := LowerBound(t, id);
            k < |r| && r[k] == Row(id, g)
            && (i != k ==> exists j :: 0 <= j < |t| && t[j] == r[i] && t[j].id != id)
  {
    hide LowerBound;
    PutSorted(t, id, g);
    var r := Put(t, id, g);
    var k := LowerBound(t, id);
    assert r[k] == Row(id, g);
    if i != k {
      var j := if Has(t, id) || i < k then i else i - 1;
      assert t[j] == r[i];
      if r[i].id == id { IdsDistinct(r, i, k); }
    }
  }

  lemma GrantsWellPut(t: Table<Grant>, id: Id, g: Grant)
    requires GrantsWell(t) && id != [] && GrantShape(g) && Room(t, id, MAX_GRANTS) == Ok
    requires forall i :: 0 <= i < |t| && t[i].id != id ==> t[i].val.binding.attempt != g.binding.attempt
    ensures GrantsWell(Put(t, id, g))
  {
    PutSorted(t, id, g);
    var r := Put(t, id, g);
    forall i | 0 <= i < |r| ensures r[i].id != [] && GrantShape(r[i].val) { RowsOfPut(t, id, g, i); }
    forall i, j | 0 <= i < j < |r| ensures r[i].val.binding.attempt != r[j].val.binding.attempt {
      AttemptsDiffer(t, id, g, i, j);
    }
  }

  lemma AttemptsDiffer(t: Table<Grant>, id: Id, g: Grant, i: nat, j: nat)
    requires GrantsWell(t) && i < j < |Put(t, id, g)|
    requires forall i :: 0 <= i < |t| && t[i].id != id ==> t[i].val.binding.attempt != g.binding.attempt
    ensures Put(t, id, g)[i].val.binding.attempt != Put(t, id, g)[j].val.binding.attempt
  {
    hide Put, LowerBound, GrantShape, Less, Has;
    var k := LowerBound(t, id);
    RowsOfPut(t, id, g, i);
    RowsOfPut(t, id, g, j);
    if i != k && j != k {
      OldRow(t, id, g, i);
      OldRow(t, id, g, j);
      InOrder(t, id, i, j);
    }
  }

  /** Where an old row of an updated table comes from. */
  function Whence<T>(t: Table<T>, id: Id, i: nat): int { if Has(t, id) || i < LowerBound(t, id) then i else i - 1 }

  lemma OldRow(t: Table<Grant>, id: Id, g: Grant, i: nat)
    requires i < |Put(t, id, g)| && i != LowerBound(t, id)
    ensures 0 <= Whence(t, id, i) < |t| && Put(t, id, g)[i] == t[Whence(t, id, i)]
  {
    hide Put, LowerBound, Has;
    PutAt(t, id, g, i);
  }

  lemma InOrder<T>(t: Table<T>, id: Id, i: nat, j: nat)
    requires i < j && i != LowerBound(t, id) && j != LowerBound(t, id)
    ensures Whence(t, id, i) < Whence(t, id, j)
  {
    hide LowerBound, Has;
  }

  lemma AttemptsWellPut(t: Table<Grant>, a: Table<Attempt>, id: Id, g: Grant)
    requires Sorted(t) && AttemptsWell(t, a)
    requires Has(t, id) ==> g.binding.attempt == Get(t, id).value.binding.attempt
                            && (IsTerminal(Get(t, id).value.state) ==> IsTerminal(g.state))
    ensures AttemptsWell(Put(t, id, g), a)
  {
    forall i | 0 <= i < |a| ensures Linked1(Put(t, id, g), a[i]) {
      assert Linked1(t, a[i]);
      GetPut(t, id, g, a[i].val.grant);
    }
  }

  /** A grant replaced by one that holds no more leaves every limit kept. */
  lemma FitsShrink(t: Table<Grant>, s: Spec, id: Id, g: Grant)
    requires Fits(t, s)
    requires HoldsCapacity(g.state) ==>
               Has(t, id) && HoldsCapacity(Get(t, id).value.state)
               && g.binding == Get(t, id).value.binding && g.units <= Get(t, id).value.units
    ensures Fits(Put(t, id, g), s)
    ensures forall k :: Total(Put(t, id, g), k) <= Total(t, k)
  {
    forall k ensures Total(Put(t, id, g), k) <= Total(t, k) { TotalPut(t, id, g, k); }
    forall i | 0 <= i < |s.paths| ensures FitPath(Put(t, id, g), s.paths[i].id, s.paths[i].val) {
      assert FitPath(t, s.paths[i].id, s.paths[i].val);
    }
    forall i, r | 0 <= i < |s.members| ensures FitResource(Put(t, id, g), s.members[i].val, r) {
      assert FitResource(t, s.members[i].val, r);
    }
  }

  /** A grant that may hold more keeps the limits when its own path and resource still have room. */
  lemma FitsGrow(t: Table<Grant>, s: Spec, id: Id, g: Grant)
    requires Fits(t, s) && Sorted(s.paths)
    requires Has(t, id) ==> g.binding == Get(t, id).value.binding
    requires Has(s.paths, g.binding.path) ==>
               FitPath(Put(t, id, g), g.binding.path, Get(s.paths, g.binding.path).value)
    requires forall i :: 0 <= i < |s.members| ==> FitResource(Put(t, id, g), s.members[i].val, g.binding.resource)
    ensures Fits(Put(t, id, g), s)
  {
    var u := Put(t, id, g);
    forall k ensures Total(u, k) <= Total(t, k) || k.id == g.binding.path || k.id == g.binding.resource {
      TotalPut(t, id, g, k);
    }
    forall i | 0 <= i < |s.paths| ensures FitPath(u, s.paths[i].id, s.paths[i].val) {
      assert FitPath(t, s.paths[i].id, s.paths[i].val);
      var p := s.paths[i].id;
      if p == g.binding.path {
        RowFound(s.paths, i);
      } else {
        TotalPut(t, id, g, OnPath(p));
        TotalPut(t, id, g, Slot(p));
      }
    }
    forall i, r | 0 <= i < |s.members| ensures FitResource(u, s.members[i].val, r) {
      assert FitResource(t, s.members[i].val, r);
      if r != g.binding.resource { TotalPut(t, id, g, OnResource(r)); }
    }
  }

  lemma SoundPut(s: Store, id: Id, g: Grant, fit: bool)
    requires Sound(s, fit) && id != [] && GrantShape(g) && Room(s.grants, id, MAX_GRANTS) == Ok
    requires forall i :: 0 <= i < |s.grants| && s.grants[i].id != id
                         ==> s.grants[i].val.binding.attempt != g.binding.attempt
    requires Has(s.grants, id) ==> g.binding.attempt == Get(s.grants, id).value.binding.attempt
                                   && (IsTerminal(Get(s.grants, id).value.state) ==> IsTerminal(g.state))
    requires fit ==> Fits(Put(s.grants, id, g), s.spec)
    ensures Sound(s.(grants := Put(s.grants, id, g)), fit)
  {
    GrantsWellPut(s.grants, id, g);
    AttemptsWellPut(s.grants, s.attempts, id, g);
  }

  /** A grant's row is rewritten in place, keeping what it binds and holding no more. */
  lemma SoundReplace(s: Store, i: nat, g: Grant, fit: bool)
    requires Sound(s, fit) && i < |s.grants| && GrantShape(g)
    requires g.binding == s.grants[i].val.binding
    requires IsTerminal(s.grants[i].val.state) ==> IsTerminal(g.state)
    requires HoldsCapacity(g.state) ==> HoldsCapacity(s.grants[i].val.state) && g.units <= s.grants[i].val.units
    ensures s.grants[i := Row(s.grants[i].id, g)] == Put(s.grants, s.grants[i].id, g)
    ensures Sound(s.(grants := s.grants[i := Row(s.grants[i].id, g)]), fit)
  {
    var id := s.grants[i].id;
    RowFound(s.grants, i);
    PutSame(s.grants, i, g);
    forall j | 0 <= j < |s.grants| && s.grants[j].id != id
      ensures s.grants[j].val.binding.attempt != g.binding.attempt
    {
      assert i != j;
    }
    if fit { FitsShrink(s.grants, s.spec, id, g); }
    SoundPut(s, id, g, fit);
  }

  lemma SoundPutAttempt(s: Store, id: Id, a: Attempt, fit: bool)
    requires Sound(s, fit) && Linked1(s.grants, Row(id, a))
    ensures Sound(s.(attempts := Put(s.attempts, id, a)), fit)
  {
    PutSorted(s.attempts, id, a);
    var r := Put(s.attempts, id, a);
    var k := LowerBound(s.attempts, id);
    forall i | 0 <= i < |r| ensures Linked1(s.grants, r[i]) {
      if i == k {
        assert r[i] == Row(id, a);
      } else {
        var j := if Has(s.attempts, id) || i < k then i else i - 1;
        assert r[i] == s.attempts[j];
      }
    }
  }

  /** There are no more attempt records than grants, and fewer while a grant still lacks its own;
      so the attempt table has room whenever the grant table is within bounds. */
  lemma AttemptRoom(s: Store, id: Id)
    requires GrantsWell(s.grants) && AttemptsWell(s.grants, s.attempts)
    requires Has(s.attempts, id) || exists i :: 0 <= i < |s.grants| && s.grants[i].val.binding.attempt == id
    ensures Room(s.attempts, id, MAX_ATTEMPTS) == Ok
  {
    if !Has(s.attempts, id) {
      var owners := set i | 0 <= i < |s.grants| :: s.grants[i].val.binding.attempt;
      forall x | x in Ids(s.attempts) ensures x in owners {
        var i :| 0 <= i < |s.attempts| && s.attempts[i].id == x;
        assert Linked1(s.grants, s.attempts[i]);
      }
      RowFoundIff(s.attempts, id);
      assert id in owners && id !in Ids(s.attempts);
      ProperSubset(Ids(s.attempts), owners, id);
      IdsSize(s.attempts);
      OwnersSize(s.grants, |s.grants|);
    }
  }

  lemma ProperSubset(a: set<Id>, b: set<Id>, x: Id)
    requires a <= b && x in b && x !in a
    ensures |a| < |b|
  {
    assert a <= b - {x};
    SubsetSize(a, b - {x});
  }

  lemma {:induction false} OwnersSize(t: Table<Grant>, n: nat)
    requires n <= |t|
    ensures |set i | 0 <= i < n :: t[i].val.binding.attempt| <= n
  {
    if n > 0 {
      OwnersSize(t, n - 1);
      assert (set i | 0 <= i < n :: t[i].val.binding.attempt)
             == (set i | 0 <= i < n - 1 :: t[i].val.binding.attempt) + {t[n - 1].val.binding.attempt};
    }
  }
}
