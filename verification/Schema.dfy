/** The field lists of the canonical codecs as data: one writer, one reader, and the two laws that hold
    of every field list (src/bytes.cpp, src/grant.cpp, src/model.cpp, src/contract.cpp). */
module Schema {
  import opened Tables
  import opened Model
  import opened Text
  import opened Numbers
  import opened Bytes

  datatype Rule = Free | Utf8 | Identifier | OptionalIdentifier

  /** What a record is made of, in the order it is written. */
  datatype Shape =
    | Num(width: nat, max: nat)
    | Fixed(size: nat)
    | Str(limit: nat, rule: Rule)
    | Many(bound: nat, item: Shape, keyed: bool)
    | Both(first: Shape, second: Shape)

  datatype Value =
    | Number(n: nat)
    | Raw(bytes: seq<byte>)
    | Chars_(text: string)
    | Items(items: seq<Value>)
    | Pair(left: Value, right: Value)

  predicate Allows(rule: Rule, s: string)
  {
    match rule
    case Free => true
    case Utf8 => IsUtf8(s)
    case Identifier => IsIdentifier(s, MAX_IDENTIFIER)
    case OptionalIdentifier => s == [] || IsIdentifier(s, MAX_IDENTIFIER)
  }

  /** The leading text of a record: its id. */
  function KeyOf(v: Value): Id
  {
    match v
    case Chars_(text) => text
    case Pair(left, _) => KeyOf(left)
    case _ => []
  }

  predicate Ascending(items: seq<Value>)
  {
    forall i :: 0 < i < |items| ==> Less(KeyOf(items[i - 1]), KeyOf(items[i]))
  }

  ghost predicate WellShaped(s: Shape)
  {
    match s
    case Num(width, max) => max < Base(width)
    case Fixed(_) => true
    case Str(limit, _) => limit < U64_LIMIT
    case Many(bound, item, _) => bound < U64_LIMIT && WellShaped(item)
    case Both(a, b) => WellShaped(a) && WellShaped(b)
  }

  /** The values a field list is for. */
  predicate Fits(s: Shape, v: Value)
  {
    match s
    case Num(_, max) => v.Number? && v.n <= max
    case Fixed(size) => v.Raw? && |v.bytes| == size
    case Str(limit, rule) => v.Chars_? && |v.text| <= limit && IsByteText(v.text) && Allows(rule, v.text)
    case Many(bound, item, keyed) =>
      v.Items? && |v.items| <= bound && (forall i :: 0 <= i < |v.items| ==> Fits(item, v.items[i]))
      && (keyed ==> Ascending(v.items))
    case Both(a, b) => v.Pair? && Fits(a, v.left) && Fits(b, v.right)
  }

  // ----- taking records apart -----

  function L(v: Value): Value { if v.Pair? then v.left else v }
  function R(v: Value): Value { if v.Pair? then v.right else v }
  function N(v: Value): nat { if v.Number? then v.n else 0 }
  function B(v: Value): seq<byte> { if v.Raw? then v.bytes else [] }
  function T(v: Value): string { if v.Chars_? then v.text else [] }
  function I(v: Value): seq<Value> { if v.Items? then v.items else [] }

  /** The two, three, four fields of a record, each as its own shape has it. */
  lemma Fields2(a: Shape, b: Shape, v: Value)
    ensures var s := Both(a, b);
            (Fits(s, v) <==> v.Pair? && Fits(a, v.left) && Fits(b, v.right))
            && (WellShaped(s) <==> WellShaped(a) && WellShaped(b))
  {}

  lemma Fields3(a: Shape, b: Shape, c: Shape, v: Value)
    ensures var s := Both(a, Both(b, c));
            (Fits(s, v) <==> v.Pair? && v.right.Pair? && Fits(a, v.left) && Fits(b, v.right.left) && Fits(c, v.right.right))
            && (WellShaped(s) <==> WellShaped(a) && WellShaped(b) && WellShaped(c))
  {
    Fields2(a, Both(b, c), v);
    Fields2(b, c, R(v));
  }

  lemma Fields4(a: Shape, b: Shape, c: Shape, d: Shape, v: Value)
    ensures var s := Both(a, Both(b, Both(c, d)));
            (Fits(s, v) <==> v.Pair? && v.right.Pair? && v.right.right.Pair? && Fits(a, v.left) && Fits(b, v.right.left)
                             && Fits(c, v.right.right.left) && Fits(d, v.right.right.right))
            && (WellShaped(s) <==> WellShaped(a) && WellShaped(b) && WellShaped(c) && WellShaped(d))
  {
    Fields2(a, Both(b, Both(c, d)), v);
    Fields3(b, c, d, R(v));
  }

  // ----- writing -----

  function Emit(s: Shape, v: Value): seq<byte>
    decreases s, 0
  {
    match s
    case Num(width, _) => Little(if v.Number? then v.n else 0, width)
    case Fixed(_) => if v.Raw? then v.bytes else []
    case Str(_, _) => PutText(if v.Chars_? then v.text else [])
    case Many(_, item, _) => if v.Items? then Varint(|v.items|) + EmitAll(item, v.items) else Varint(0)
    case Both(a, b) => if v.Pair? then Emit(a, v.left) + Emit(b, v.right) else []
  }

  function EmitAll(s: Shape, items: seq<Value>): seq<byte>
    decreases s, |items|
  {
    if items == [] then [] else Emit(s, items[0]) + EmitAll(s, items[1..])
  }

  // ----- reading -----

  function Take(s: Shape, bytes: seq<byte>): Read<Value>
    decreases s, 0
  {
    match s
    case Num(width, max) =>
      (match TakeInt(bytes, width)
       case Bad(code) => Bad(code)
       case Got(n, rest) => if n > max then Bad(Corruption) else Got(Number(n), rest))
    case Fixed(size) =>
      (match TakeRaw(bytes, size)
       case Bad(code) => Bad(code)
       case Got(b, rest) => Got(Raw(b), rest))
    case Str(limit, rule) =>
      (match TakeText(bytes, limit)
       case Bad(code) => Bad(code)
       case Got(t, rest) => if Allows(rule, t) then Got(Chars_(t), rest) else Bad(Corruption))
    case Many(bound, item, keyed) =>
      (match TakeCount(bytes, bound)
       case Bad(code) => Bad(code)
       case Got(n, rest) =>
         match TakeAll(item, n, rest, keyed, None)
         case Bad(code) => Bad(code)
         case Got(items, after) => Got(Items(items), after))
    case Both(a, b) =>
      match Take(a, bytes)
      case Bad(code) => Bad(code)
      case Got(x, rest) =>
        match Take(b, rest)
        case Bad(code) => Bad(code)
        case Got(y, after) => Got(Pair(x, y), after)
  }

  /** `n` items, each after the one before it when the list is sorted by id. */
  function TakeAll(s: Shape, n: nat, bytes: seq<byte>, keyed: bool, last: Option<Id>): Read<seq<Value>>
    decreases s, n
  {
    if n == 0 then Got([], bytes) else
      match Take(s, bytes)
      case Bad(code) => Bad(code)
      case Got(v, rest) =>
        if keyed && last.Some? && !Less(last.value, KeyOf(v)) then Bad(Corruption)
        else
          match TakeAll(s, n - 1, rest, keyed, Some(KeyOf(v)))
          case Bad(code) => Bad(code)
          case Got(items, after) => Got([v] + items, after)
  }

  // ----- the two laws -----

  ghost predicate Follows(items: seq<Value>, keyed: bool, last: Option<Id>)
  {
    keyed ==> Ascending(items) && (last.Some? && items != [] ==> Less(last.value, KeyOf(items[0])))
  }

  /** Whatever fits is read back as it was, whatever follows it. */
  lemma {:induction false} TakeBack(s: Shape, v: Value, rest: seq<byte>)
    requires WellShaped(s) && Fits(s, v)
    ensures Take(s, Emit(s, v) + rest) == Got(v, rest)
    decreases s, 0
  {
    hide EmitAll, TakeAll, Varint, TakeVarint, Little, FromLittle, Ascending, Allows;
    match s
    case Num(width, max) => TakeIntBack(v.n, width, rest);
    case Fixed(size) => assert (v.bytes + rest)[..size] == v.bytes;
    case Str(limit, _) => TextBack(v.text, limit, rest);
    case Many(bound, item, keyed) =>
      Rejoin(Varint(|v.items|), EmitAll(item, v.items), rest);
      VarintBack(|v.items|, EmitAll(item, v.items) + rest);
      TakeAllBack(item, v.items, rest, keyed, None);
    case Both(a, b) =>
      Rejoin(Emit(a, v.left), Emit(b, v.right), rest);
      TakeBack(a, v.left, Emit(b, v.right) + rest);
      TakeBack(b, v.right, rest);
  }

  lemma {:induction false} TakeAllBack(s: Shape, items: seq<Value>, rest: seq<byte>, keyed: bool, last: Option<Id>)
    requires WellShaped(s) && (forall i :: 0 <= i < |items| ==> Fits(s, items[i])) && Follows(items, keyed, last)
    ensures TakeAll(s, |items|, EmitAll(s, items) + rest, keyed, last) == Got(items, rest)
    decreases s, |items|
  {
    hide Emit, Take, Fits, KeyOf, Less;
    if items == [] {
      assert EmitAll(s, items) + rest == rest;
    } else {
      var more := EmitAll(s, items[1..]) + rest;
      Rejoin(Emit(s, items[0]), EmitAll(s, items[1..]), rest);
      TakeBack(s, items[0], more);
      TakeAllBack(s, items[1..], rest, keyed, Some(KeyOf(items[0])));
      assert items == [items[0]] + items[1..];
    }
  }

  /** The values a field list can be written from: numbers of its widths, raw fields of their sizes, texts and
      lists whose length is a 64-bit number. */
  ghost predicate Typed(s: Shape, v: Value)
  {
    match s
    case Num(width, _) => v.Number? && v.n < Base(width)
    case Fixed(size) => v.Raw? && |v.bytes| == size
    case Str(_, _) => v.Chars_? && |v.text| < U64_LIMIT && IsByteText(v.text)
    case Many(_, item, _) => v.Items? && |v.items| < U64_LIMIT && forall i :: 0 <= i < |v.items| ==> Typed(item, v.items[i])
    case Both(a, b) => v.Pair? && Typed(a, v.left) && Typed(b, v.right)
  }

  /** Whatever can be written but does not fit is refused by the reader, whatever follows it. */
  lemma {:induction false} TakeRefuses(s: Shape, v: Value, rest: seq<byte>)
    requires WellShaped(s) && Typed(s, v) && !Fits(s, v)
    ensures Take(s, Emit(s, v) + rest).Bad?
    decreases s, 0
  {
    hide EmitAll, TakeAll, Varint, TakeVarint, Little, FromLittle, Ascending, Allows;
    match s
    case Num(width, max) => TakeIntBack(v.n, width, rest);
    case Fixed(size) =>
    case Str(limit, _) =>
      Rejoin(Varint(|v.text|), Octets(v.text), rest);
      VarintBack(|v.text|, Octets(v.text) + rest);
      if |v.text| <= limit { TextBack(v.text, limit, rest); }
    case Many(bound, item, keyed) =>
      Rejoin(Varint(|v.items|), EmitAll(item, v.items), rest);
      VarintBack(|v.items|, EmitAll(item, v.items) + rest);
      if |v.items| <= bound { TakeAllRefuses(item, v.items, rest, keyed, None); }
    case Both(a, b) =>
      Rejoin(Emit(a, v.left), Emit(b, v.right), rest);
      if Fits(a, v.left) {
        TakeBack(a, v.left, Emit(b, v.right) + rest);
        TakeRefuses(b, v.right, rest);
      } else {
        TakeRefuses(a, v.left, Emit(b, v.right) + rest);
      }
  }

  ghost predicate AllFit(s: Shape, items: seq<Value>)
  {
    forall i :: 0 <= i < |items| ==> Fits(s, items[i])
  }

  lemma {:induction false} TakeAllRefuses(s: Shape, items: seq<Value>, rest: seq<byte>, keyed: bool, last: Option<Id>)
    requires WellShaped(s) && (forall i :: 0 <= i < |items| ==> Typed(s, items[i]))
    requires !(AllFit(s, items) && Follows(items, keyed, last))
    ensures TakeAll(s, |items|, EmitAll(s, items) + rest, keyed, last).Bad?
    decreases s, |items|
  {
    hide Emit, Take, Fits, Typed, KeyOf, Less, Follows;
    if items == [] {
      NoneFollow(keyed, last);
    } else {
      var more := EmitAll(s, items[1..]) + rest;
      Rejoin(Emit(s, items[0]), EmitAll(s, items[1..]), rest);
      if Fits(s, items[0]) {
        TakeBack(s, items[0], more);
        if keyed && last.Some? && !Less(last.value, KeyOf(items[0])) {
        } else {
          assert items == [items[0]] + items[1..];
          if AllFit(s, items[1..]) && Follows(items[1..], keyed, Some(KeyOf(items[0]))) { OneMore(s, items[0], items[1..], keyed, last); }
          TakeAllRefuses(s, items[1..], rest, keyed, Some(KeyOf(items[0])));
        }
      } else {
        TakeRefuses(s, items[0], more);
      }
    }
  }

  lemma {:induction false} FitsTyped(s: Shape, v: Value)
    requires WellShaped(s) && Fits(s, v)
    ensures Typed(s, v)
    decreases s
  {
    match s
    case Many(_, item, _) => forall i | 0 <= i < |v.items| ensures Typed(item, v.items[i]) { FitsTyped(item, v.items[i]); }
    case Both(a, b) =>
      FitsTyped(a, v.left);
      FitsTyped(b, v.right);
    case _ =>
  }

  /** Whatever is read fits, and is written as exactly the bytes it was read from. */
  lemma {:induction false} TakeThere(s: Shape, bytes: seq<byte>)
    requires Take(s, bytes).Got?
    ensures var r := Take(s, bytes); Fits(s, r.value) && bytes == Emit(s, r.value) + r.rest
    decreases s, 0
  {
    hide EmitAll, TakeAll, Varint, TakeVarint, Little, FromLittle, Ascending, Allows;
    match s
    case Num(width, _) => TakeIntThere(bytes, width);
    case Fixed(size) =>
    case Str(limit, _) => TextThere(bytes, limit);
    case Many(bound, item, keyed) =>
      var c := TakeVarint(bytes, 0);
      VarintThere(bytes);
      TakeAllThere(item, c.value, c.rest, keyed, None);
      var t := TakeAll(item, c.value, c.rest, keyed, None);
      Rejoin(Varint(c.value), EmitAll(item, t.value), t.rest);
    case Both(a, b) =>
      TakeThere(a, bytes);
      TakeThere(b, Take(a, bytes).rest);
      var x, y := Take(a, bytes), Take(b, Take(a, bytes).rest);
      Rejoin(Emit(a, x.value), Emit(b, y.value), y.rest);
  }

  lemma Rejoin(a: seq<byte>, b: seq<byte>, c: seq<byte>)
    ensures a + (b + c) == (a + b) + c
  {}

  lemma {:induction false} TakeAllThere(s: Shape, n: nat, bytes: seq<byte>, keyed: bool, last: Option<Id>)
    requires TakeAll(s, n, bytes, keyed, last).Got?
    ensures var r := TakeAll(s, n, bytes, keyed, last);
            && |r.value| == n && (forall i :: 0 <= i < n ==> Fits(s, r.value[i])) && Follows(r.value, keyed, last)
            && bytes == EmitAll(s, r.value) + r.rest
    decreases s, n
  {
    hide Fits, Emit, EmitAll, Take, KeyOf, Less, Follows;
    if n > 0 {
      var v := Take(s, bytes);
      TakeThere(s, bytes);
      TakeAllThere(s, n - 1, v.rest, keyed, Some(KeyOf(v.value)));
      var t := TakeAll(s, n - 1, v.rest, keyed, Some(KeyOf(v.value)));
      OneMore(s, v.value, t.value, keyed, last);
      EmitMore(s, v.value, t.value);
      Rejoin(Emit(s, v.value), EmitAll(s, t.value), t.rest);
    } else {
      NoneFollow(keyed, last);
      EmitNone(s, bytes);
    }
  }

  lemma EmitMore(s: Shape, v: Value, items: seq<Value>)
    ensures EmitAll(s, [v] + items) == Emit(s, v) + EmitAll(s, items)
  {
    hide Emit;
    assert ([v] + items)[1..] == items;
  }

  lemma EmitNone(s: Shape, rest: seq<byte>)
    ensures EmitAll(s, []) + rest == rest
  {}

  lemma NoneFollow(keyed: bool, last: Option<Id>)
    ensures Follows([], keyed, last)
  {}

  lemma OneMore(s: Shape, v: Value, items: seq<Value>, keyed: bool, last: Option<Id>)
    requires Fits(s, v) && (forall i :: 0 <= i < |items| ==> Fits(s, items[i])) && Follows(items, keyed, Some(KeyOf(v)))
    requires keyed && last.Some? ==> Less(last.value, KeyOf(v))
    ensures var all := [v] + items;
            Follows(all, keyed, last) && forall i :: 0 <= i < |all| ==> Fits(s, all[i])
  {
    hide Fits, KeyOf, Less;
    var all := [v] + items;
    if keyed {
      forall i | 0 < i < |all| ensures Less(KeyOf(all[i - 1]), KeyOf(all[i])) {
        if i > 1 { assert all[i] == items[i - 1] && all[i - 1] == items[i - 2]; }
      }
    }
  }

  // ----- the same, driving the writer and the reader -----

  method WriteValue(w: ByteWriter, s: Shape, v: Value)
    requires Fits(s, v)
    modifies w
    ensures w.sink == old(w.sink) + Emit(s, v)
    decreases s, 0
  {
    hide EmitAll, Varint, Little, Ascending, Allows;
    match s {
      case Num(width, _) => w.WriteInt(v.n, width);
      case Fixed(_) => w.WriteRaw(v.bytes);
      case Str(_, _) => w.WriteText(v.text);
      case Many(_, item, _) =>
        Rejoin(w.sink, Varint(|v.items|), EmitAll(item, v.items));
        w.WriteVarint(|v.items|);
        WriteItems(w, item, v.items);
      case Both(a, b) =>
        Rejoin(w.sink, Emit(a, v.left), Emit(b, v.right));
        WriteValue(w, a, v.left);
        WriteValue(w, b, v.right);
    }
  }

  method WriteItems(w: ByteWriter, s: Shape, items: seq<Value>)
    requires forall i :: 0 <= i < |items| ==> Fits(s, items[i])
    modifies w
    ensures w.sink == old(w.sink) + EmitAll(s, items)
    decreases s, 1
  {
    hide Emit, Fits;
    for i := 0 to |items|
      invariant w.sink + EmitAll(s, items[i..]) == old(w.sink) + EmitAll(s, items)
    {
      assert items[i..][1..] == items[i + 1..];
      Rejoin(w.sink, Emit(s, items[i]), EmitAll(s, items[i + 1..]));
      WriteValue(w, s, items[i]);
    }
    assert items[|items|..] == [] && w.sink + [] == w.sink;
  }

  method ReadValue(r: ByteReader, s: Shape) returns (ok: bool, v: Value)
    requires r.Valid()
    modifies r
    ensures r.Did(old(Take(s, r.Rest())), ok, v)
    decreases s, 0
  {
    hide TakeAll, TakeVarint, FromLittle, Allows;
    v := Number(0);
    match s {
      case Num(width, max) =>
        var n: nat;
        ok, n := r.ReadInt(width);
        if ok && n > max {
          r.Fail(Corruption);
          ok := false;
        }
        v := Number(n);
      case Fixed(size) =>
        var b: seq<byte>;
        ok, b := r.ReadRaw(size);
        v := Raw(b);
      case Str(limit, rule) =>
        var t: string;
        ok, t := r.ReadText(limit);
        if ok && !Allows(rule, t) {
          r.Fail(Corruption);
          ok := false;
        }
        v := Chars_(t);
      case Many(bound, item, keyed) =>
        var n: nat;
        ok, n := r.ReadCount(bound);
        if ok {
          var items: seq<Value>;
          ok, items := ReadItems(r, item, n, keyed);
          v := Items(items);
        }
      case Both(a, b) =>
        var x: Value;
        ok, x := ReadValue(r, a);
        if ok {
          var y: Value;
          ok, y := ReadValue(r, b);
          v := Pair(x, y);
        }
    }
  }

  /** A list read so far, and what is still to come. */
  function Joined(items: seq<Value>, r: Read<seq<Value>>): Read<seq<Value>>
  {
    match r case Bad(code) => Bad(code) case Got(more, rest) => Got(items + more, rest)
  }

  method ReadItems(r: ByteReader, s: Shape, n: nat, keyed: bool) returns (ok: bool, items: seq<Value>)
    requires r.Valid() && r.failure == Ok
    modifies r
    ensures r.Did(old(TakeAll(s, n, r.Rest(), keyed, None)), ok, items)
    decreases s, 1
  {
    hide Take, KeyOf, Less;
    items := [];
    ok := true;
    var last: Option<Id> := None;
    JoinNone(TakeAll(s, n, r.Rest(), keyed, None));
    for i := 0 to n
      invariant r.Valid() && r.failure == Ok && ok
      invariant Joined(items, TakeAll(s, n - i, r.Rest(), keyed, last)) == old(TakeAll(s, n, r.Rest(), keyed, None))
    {
      ghost var before := r.Rest();
      var v: Value;
      ok, v := ReadValue(r, s);
      if !ok { return; }
      if keyed && last.Some? && !Less(last.value, KeyOf(v)) {
        r.Fail(Corruption);
        ok := false;
        return;
      }
      JoinMore(items, v, TakeAll(s, n - i - 1, r.Rest(), keyed, Some(KeyOf(v))));
      items := items + [v];
      last := Some(KeyOf(v));
    }
    assert items + [] == items;
  }

  lemma JoinNone(r: Read<seq<Value>>)
    ensures Joined([], r) == r
  {
    if r.Got? { assert [] + r.value == r.value; }
  }

  lemma JoinMore(items: seq<Value>, v: Value, r: Read<seq<Value>>)
    ensures Joined(items + [v], r) == Joined(items, match r case Bad(code) => Bad(code) case Got(more, rest) => Got([v] + more, rest))
  {
    if r.Got? { assert items + ([v] + r.value) == items + [v] + r.value; }
  }
}
