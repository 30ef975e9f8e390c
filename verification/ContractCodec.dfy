/** Contracts and sets of them (src/contract.cpp). A set is read by upserting its contracts one by one,
    so what is read is sorted and validated, but what was read need not have been. */
module ContractCodec {
  import opened Tables
  import opened Model
  import opened Text
  import opened Numbers
  import opened Bytes
  import opened Schema
  import opened GrantCodec
  import opened Cluster
  import opened ModelCodec

  const HEAD: Shape := Both(NAME, Both(U64, Both(NAME, NAME)))
  const LIMITS: Shape := Both(U64, Both(U64, Both(U32, Num(1, 255))))
  const SWITCHES: Shape := Both(FLAG, Both(Num(1, 2), Both(FLAG, Both(FLAG, Both(FLAG, FLAG)))))
  const CAPABILITIES: Shape := Many(MAX_CAPABILITIES, Str(MAX_IDENTIFIER, Identifier), false)
  const CONTRACT: Shape := Both(HEAD, Both(LIMITS, Both(SWITCHES, Both(CAPABILITIES, FLAG))))

  function ContractValue(row: Row<Contract>): Value
  {
    var k := row.val;
    Pair(Pair(Chars_(row.id), Pair(Number(k.generation), Pair(Chars_(k.sourceService), Chars_(k.destinationService)))),
    Pair(Pair(Number(k.minUnits), Pair(Number(k.maxUnits), Pair(Number(k.minDomains), Number(k.level)))),
    Pair(Pair(Flag(k.requireExclusive), Pair(Number(ModeNumber(k.maintenance)), Pair(Flag(k.allowDraining),
         Pair(Flag(k.allowFaulted), Pair(Flag(k.allowPartitioned), Flag(k.allowDegraded)))))),
    Pair(Items(All(k.capabilities, TextValue)), Flag(k.enabled)))))
  }

  function ContractOf(v: Value): Row<Contract>
  {
    var h, l, s, c := L(v), L(R(v)), L(R(R(v))), R(R(R(v)));
    Row(T(L(h)), Contract(N(L(R(h))), T(L(R(R(h)))), T(R(R(R(h)))), N(L(l)), N(L(R(l))), N(L(R(R(l)))), N(R(R(R(l)))),
                          N(L(s)) == 1, ModeOf(N(L(R(s)))), N(L(R(R(s)))) == 1, N(L(R(R(R(s))))) == 1,
                          N(L(R(R(R(R(s)))))) == 1, N(R(R(R(R(R(s)))))) == 1, All(I(L(c)), T), N(R(c)) == 1))
  }

  predicate ContractCodable(row: Row<Contract>) { Fits(CONTRACT, ContractValue(row)) }

  lemma ContractBack(row: Row<Contract>)
    ensures ContractOf(ContractValue(row)) == row
  {
    EnumsBack(Active, Operational, row.val.maintenance);
    TextsBack(row.val.capabilities);
    hide ModeNumber, ModeOf, All;
  }

  lemma ContractThere(v: Value)
    requires Fits(CONTRACT, v)
    ensures ContractValue(ContractOf(v)) == v
  {
    var s, c := L(R(R(v))), R(R(R(v)));
    Fields4(HEAD, LIMITS, SWITCHES, Both(CAPABILITIES, FLAG), v);
    Fields4(NAME, U64, NAME, NAME, L(v));
    Fields4(U64, U64, U32, Num(1, 255), L(R(v)));
    Fields4(FLAG, Num(1, 2), FLAG, Both(FLAG, Both(FLAG, FLAG)), s);
    Fields3(FLAG, FLAG, FLAG, R(R(R(s))));
    Fields2(CAPABILITIES, FLAG, c);
    EnumsThere(0, 0, N(L(R(s))));
    TextsThere(I(L(c)), MAX_IDENTIFIER, Identifier);
    hide ModeNumber, ModeOf, All;
  }

  lemma ContractShaped()
    ensures WellShaped(CONTRACT)
  {
    var v := Number(0);
    BaseValues();
    assert WellShaped(NAME) && WellShaped(U64) && WellShaped(U32) && WellShaped(FLAG) && WellShaped(Num(1, 2))
           && WellShaped(Num(1, 255)) && WellShaped(CAPABILITIES);
    hide WellShaped, Base;
    Fields4(NAME, U64, NAME, NAME, v);
    Fields4(U64, U64, U32, Num(1, 255), v);
    Fields4(FLAG, Num(1, 2), FLAG, Both(FLAG, Both(FLAG, FLAG)), v);
    Fields3(FLAG, FLAG, FLAG, v);
    Fields2(CAPABILITIES, FLAG, v);
    Fields4(HEAD, LIMITS, SWITCHES, Both(CAPABILITIES, FLAG), v);
  }

  function EncodeContract(row: Row<Contract>): seq<byte> { Emit(CONTRACT, ContractValue(row)) }

  function DecodeContract(bytes: seq<byte>): Read<Row<Contract>>
  {
    match Take(CONTRACT, bytes)
    case Bad(code) => Bad(code)
    case Got(v, rest) => Got(ContractOf(v), rest)
  }

  lemma ContractRoundTrip(row: Row<Contract>, rest: seq<byte>)
    requires ContractCodable(row)
    ensures DecodeContract(EncodeContract(row) + rest) == Got(row, rest)
  {
    hide ContractValue, ContractOf;
    ContractShaped();
    TakeBack(CONTRACT, ContractValue(row), rest);
    ContractBack(row);
  }

  /** A single contract has one encoding. */
  lemma ContractCanonical(bytes: seq<byte>)
    requires DecodeContract(bytes).Got?
    ensures var r := DecodeContract(bytes); ContractCodable(r.value) && bytes == EncodeContract(r.value) + r.rest
  {
    hide ContractValue, ContractOf;
    TakeThere(CONTRACT, bytes);
    ContractThere(Take(CONTRACT, bytes).value);
  }

  // ----- sets -----

  function EncodeRows(rs: seq<Row<Contract>>): seq<byte>
  {
    if rs == [] then [] else EncodeContract(rs[0]) + EncodeRows(rs[1..])
  }

  /** `ContractSet::encode`. */
  function EncodeSet(rs: seq<Row<Contract>>): seq<byte> { Varint(|rs|) + EncodeRows(rs) }

  function TakeRows(n: nat, bytes: seq<byte>, t: Table<Contract>): Read<Table<Contract>>
    decreases n
  {
    if n == 0 then Got(t, bytes) else
      match DecodeContract(bytes)
      case Bad(code) => Bad(code)
      case Got(row, rest) =>
        var e := ApplyContract(t, UpsertContract(row.id, row.val));
        if e.1 != Ok then Bad(e.1) else TakeRows(n - 1, rest, e.0)
  }

  /** `ContractSet::decode`. */
  function DecodeSet(bytes: seq<byte>): Read<Table<Contract>>
  {
    match TakeCount(bytes, MAX_CONTRACTS)
    case Bad(code) => Bad(code)
    case Got(n, rest) => TakeRows(n, rest, [])
  }

  /** All upserts in order, or the code of the first one refused. */
  function UpsertAll(t: Table<Contract>, rs: seq<Row<Contract>>): Result<Table<Contract>>
    decreases |rs|
  {
    if rs == [] then Success(t) else
      var e := ApplyContract(t, UpsertContract(rs[0].id, rs[0].val));
      if e.1 != Ok then Failure(e.1) else UpsertAll(e.0, rs[1..])
  }

  ghost predicate AllCodable(rs: seq<Row<Contract>>)
  {
    |rs| <= MAX_CONTRACTS && forall i :: 0 <= i < |rs| ==> ContractCodable(rs[i])
  }

  lemma {:induction false} TakeRowsBack(rs: seq<Row<Contract>>, rest: seq<byte>, t: Table<Contract>)
    requires AllCodable(rs)
    ensures TakeRows(|rs|, EncodeRows(rs) + rest, t)
            == match UpsertAll(t, rs) case Failure(code) => Bad(code) case Success(u) => Got(u, rest)
    decreases |rs|
  {
    hide EncodeContract, DecodeContract, ContractCodable, ApplyContract;
    if rs == [] {
      assert EncodeRows(rs) + rest == rest;
    } else {
      var more := EncodeRows(rs[1..]) + rest;
      Rejoin(EncodeContract(rs[0]), EncodeRows(rs[1..]), rest);
      ContractRoundTrip(rs[0], more);
      var e := ApplyContract(t, UpsertContract(rs[0].id, rs[0].val));
      if e.1 == Ok { TakeRowsBack(rs[1..], rest, e.0); }
    }
  }

  /** A written list of contracts, in whatever order, decodes to the upserts of all of them: duplicates
      are replaced, disabled or invalid ones refuse the whole set with their own code. */
  lemma DecodeSetIs(rs: seq<Row<Contract>>, rest: seq<byte>)
    requires AllCodable(rs)
    ensures DecodeSet(EncodeSet(rs) + rest)
            == match UpsertAll([], rs) case Failure(code) => Bad(code) case Success(u) => Got(u, rest)
  {
    hide EncodeContract, ApplyContract, TakeVarint;
    Rejoin(Varint(|rs|), EncodeRows(rs), rest);
    VarintBack(|rs|, EncodeRows(rs) + rest);
    TakeRowsBack(rs, rest, []);
  }

  lemma PutLast(t: Table<Contract>, row: Row<Contract>)
    requires Sorted(t + [row])
    ensures !Has(t, row.id) && Tables.Put(t, row.id, row.val) == t + [row]
  {
    var u := t + [row];
    forall j | 0 <= j < |t| ensures Less(t[j].id, row.id) { assert Less(u[j].id, u[|t|].id); }
    LowerBoundUnique(t, row.id, |t|);
  }

  lemma {:induction false} UpsertSorted(t: Table<Contract>, rs: seq<Row<Contract>>)
    requires Sorted(t + rs) && |t + rs| <= MAX_CONTRACTS
    requires forall i :: 0 <= i < |rs| ==> ContractStatus(rs[i].id, rs[i].val) == Ok
    ensures UpsertAll(t, rs) == Success(t + rs)
    decreases |rs|
  {
    hide ContractStatus, Less;
    if rs == [] {
      assert t + rs == t;
    } else {
      assert (t + rs)[..|t| + 1] == t + [rs[0]];
      PutLast(t, rs[0]);
      assert t + rs == (t + [rs[0]]) + rs[1..];
      UpsertSorted(t + [rs[0]], rs[1..]);
    }
  }

  /** A set the controller holds is read back as it was. */
  lemma SetRoundTrip(t: Table<Contract>, rest: seq<byte>)
    requires Sorted(t) && AllCodable(t)
    requires forall i :: 0 <= i < |t| ==> ContractStatus(t[i].id, t[i].val) == Ok
    ensures DecodeSet(EncodeSet(t) + rest) == Got(t, rest)
  {
    hide EncodeSet, DecodeSet, ContractStatus;
    assert [] + t == t;
    UpsertSorted([], t);
    DecodeSetIs(t, rest);
  }

  /** A set of which some contract does not fit, or that is too large, is not read. */
  lemma SetRefused(t: Table<Contract>, rest: seq<byte>)
    requires !AllCodable(t) && |t| < U64_LIMIT && forall i :: 0 <= i < |t| ==> Typed(CONTRACT, ContractValue(t[i]))
    ensures DecodeSet(EncodeSet(t) + rest).Bad?
  {
    hide EncodeContract, ApplyContract, TakeVarint, ContractValue, ContractCodable;
    Rejoin(Varint(|t|), EncodeRows(t), rest);
    VarintBack(|t|, EncodeRows(t) + rest);
    if |t| <= MAX_CONTRACTS { RowsRefused(t, rest, []); }
  }

  lemma {:induction false} RowsRefused(rs: seq<Row<Contract>>, rest: seq<byte>, t: Table<Contract>)
    requires forall i :: 0 <= i < |rs| ==> Typed(CONTRACT, ContractValue(rs[i]))
    requires exists i :: 0 <= i < |rs| && !ContractCodable(rs[i])
    ensures TakeRows(|rs|, EncodeRows(rs) + rest, t).Bad?
    decreases |rs|
  {
    hide EncodeContract, DecodeContract, ContractCodable, ApplyContract, ContractValue, Typed;
    var more := EncodeRows(rs[1..]) + rest;
    Rejoin(EncodeContract(rs[0]), EncodeRows(rs[1..]), rest);
    if ContractCodable(rs[0]) {
      ContractRoundTrip(rs[0], more);
      var e := ApplyContract(t, UpsertContract(rs[0].id, rs[0].val));
      var i :| 0 <= i < |rs| && !ContractCodable(rs[i]);
      assert rs[1..][i - 1] == rs[i];
      if e.1 == Ok { RowsRefused(rs[1..], rest, e.0); }
    } else {
      ContractRefused(rs[0], more);
    }
  }

  /** A contract that does not fit is not read. */
  lemma ContractRefused(row: Row<Contract>, rest: seq<byte>)
    requires Typed(CONTRACT, ContractValue(row)) && !ContractCodable(row)
    ensures DecodeContract(EncodeContract(row) + rest).Bad?
  {
    hide ContractValue, ContractOf;
    ContractShaped();
    TakeRefuses(CONTRACT, ContractValue(row), rest);
  }

  lemma {:induction false} UpsertGivesSorted(t: Table<Contract>, rs: seq<Row<Contract>>)
    requires Sorted(t)
    ensures UpsertAll(t, rs).Success? ==>
              Sorted(UpsertAll(t, rs).value) && |UpsertAll(t, rs).value| <= |t| + |rs|
    decreases |rs|
  {
    hide ContractStatus, Less;
    if rs != [] {
      PutSorted(t, rs[0].id, rs[0].val);
      UpsertGivesSorted(ApplyContract(t, UpsertContract(rs[0].id, rs[0].val)).0, rs[1..]);
    }
  }

  lemma {:induction false} RowsTell(a: seq<Row<Contract>>, b: seq<Row<Contract>>)
    requires |a| == |b| && EncodeRows(a) == EncodeRows(b) && AllCodable(a) && AllCodable(b)
    ensures a == b
    decreases |a|
  {
    hide EncodeContract, DecodeContract, ContractCodable;
    if a != [] {
      ContractRoundTrip(a[0], EncodeRows(a[1..]));
      ContractRoundTrip(b[0], EncodeRows(b[1..]));
      RowsTell(a[1..], b[1..]);
      assert a == [a[0]] + a[1..] && b == [b[0]] + b[1..];
    }
  }

  // ----- any bytes that decode as a set -----

  /** The contracts read one after another, before they are upserted. */
  function TakenRows(n: nat, bytes: seq<byte>): seq<Row<Contract>>
    decreases n
  {
    if n == 0 then [] else
      match DecodeContract(bytes)
      case Bad(_) => []
      case Got(row, rest) => [row] + TakenRows(n - 1, rest)
  }

  lemma {:induction false} TakeRowsThere(n: nat, bytes: seq<byte>, t: Table<Contract>)
    requires TakeRows(n, bytes, t).Got?
    ensures var rs := TakenRows(n, bytes);
            var r := TakeRows(n, bytes, t);
            && |rs| == n && bytes == EncodeRows(rs) + r.rest && UpsertAll(t, rs) == Success(r.value)
            && forall i :: 0 <= i < n ==> ContractCodable(rs[i])
    decreases n
  {
    hide EncodeContract, DecodeContract, ContractCodable, ApplyContract;
    if n > 0 {
      var row, rest := DecodeContract(bytes).value, DecodeContract(bytes).rest;
      var e := ApplyContract(t, UpsertContract(row.id, row.val));
      ContractCanonical(bytes);
      TakeRowsThere(n - 1, rest, e.0);
      var rs := TakenRows(n - 1, rest);
      assert ([row] + rs)[1..] == rs;
      Rejoin(EncodeContract(row), EncodeRows(rs), TakeRows(n, bytes, t).rest);
    } else {
      assert EncodeRows([]) + bytes == bytes;
    }
  }

  lemma PutCodable(t: Table<Contract>, row: Row<Contract>)
    requires (forall i :: 0 <= i < |t| ==> ContractCodable(t[i])) && ContractCodable(row)
    ensures var u := Tables.Put(t, row.id, row.val); forall i :: 0 <= i < |u| ==> ContractCodable(u[i])
  {
    hide ContractCodable;
    var u, k := Tables.Put(t, row.id, row.val), LowerBound(t, row.id);
    forall i | 0 <= i < |u| ensures ContractCodable(u[i]) {
      assert u[i] == if i == k then row else t[if Has(t, row.id) || i < k then i else i - 1];
    }
  }

  /** What was upserted is codable and in order, and every contract of the list was acceptable. */
  lemma {:induction false} UpsertedCodable(t: Table<Contract>, rs: seq<Row<Contract>>)
    requires Sorted(t) && (forall i :: 0 <= i < |t| ==> ContractCodable(t[i])) && (forall i :: 0 <= i < |rs| ==> ContractCodable(rs[i]))
    requires UpsertAll(t, rs).Success?
    ensures var u := UpsertAll(t, rs).value; Sorted(u) && forall i :: 0 <= i < |u| ==> ContractCodable(u[i])
    ensures forall i :: 0 <= i < |rs| ==> ContractStatus(rs[i].id, rs[i].val) == Ok
    decreases |rs|
  {
    hide ContractStatus, ContractCodable, Less;
    if rs != [] {
      PutSorted(t, rs[0].id, rs[0].val);
      PutCodable(t, rs[0]);
      UpsertedCodable(ApplyContract(t, UpsertContract(rs[0].id, rs[0].val)).0, rs[1..]);
    }
  }

  lemma SortedIff(rs: seq<Row<Contract>>, t: Table<Contract>)
    requires AllCodable(rs) && UpsertAll([], rs) == Success(t) && AllCodable(t)
    requires forall i :: 0 <= i < |rs| ==> ContractStatus(rs[i].id, rs[i].val) == Ok
    ensures EncodeSet(rs) == EncodeSet(t) <==> Sorted(rs)
  {
    hide ContractStatus, EncodeRows, ContractCodable, Less, UpsertAll, Varint;
    if Sorted(rs) {
      assert [] + rs == rs;
      UpsertSorted([], rs);
    }
    if EncodeSet(rs) == EncodeSet(t) {
      VarintBack(|rs|, EncodeRows(rs));
      VarintBack(|t|, EncodeRows(t));
      RowsTell(rs, t);
      UpsertGivesSorted([], rs);
    }
  }

  /** The contracts any bytes list, in the order in which they list them. */
  function Listed(bytes: seq<byte>): seq<Row<Contract>>
  {
    match TakeCount(bytes, MAX_CONTRACTS)
    case Bad(_) => []
    case Got(n, rest) => TakenRows(n, rest)
  }

  /** Sets are not canonical on input. Whatever decodes as a set is a written list of contracts, and is the encoding
      of the set it decodes to exactly when that list was strictly sorted by id. */
  lemma SetCanonicalIff(bytes: seq<byte>)
    requires DecodeSet(bytes).Got?
    ensures var r := DecodeSet(bytes);
            && bytes == EncodeSet(Listed(bytes)) + r.rest && UpsertAll([], Listed(bytes)) == Success(r.value)
            && (bytes == EncodeSet(r.value) + r.rest <==> Sorted(Listed(bytes)))
  {
    hide ContractStatus, EncodeRows, ContractCodable, Less, UpsertAll, Varint, TakeVarint, TakeRows, TakenRows;
    var c := TakeVarint(bytes, 0);
    VarintThere(bytes);
    TakeRowsThere(c.value, c.rest, []);
    var rs, r := Listed(bytes), DecodeSet(bytes);
    Rejoin(Varint(|rs|), EncodeRows(rs), r.rest);
    UpsertedCodable([], rs);
    UpsertGivesSorted([], rs);
    SortedIff(rs, r.value);
    if bytes == EncodeSet(r.value) + r.rest { SamePrefix(EncodeSet(rs), EncodeSet(r.value), r.rest); }
  }

  lemma SamePrefix(a: seq<byte>, b: seq<byte>, rest: seq<byte>)
    requires a + rest == b + rest
    ensures a == b
  {
    assert |a| == |b|;
    assert a == (a + rest)[..|a|] && b == (b + rest)[..|b|];
  }
}
