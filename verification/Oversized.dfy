/** One cancellation of the run in `Witness`, for a reason one byte too long. */
module Oversized {
  import opened Tables
  import opened Model
  import opened Text
  import opened Accounting
  import opened Engine
  import opened Invariant
  import opened Runs
  import opened Numbers
  import opened Schema
  import opened GrantCodec
  import opened EntryCodec
  import opened Records
  import Decimal
  import Witness

  function Letters(n: nat): (s: string)
    ensures |s| == n && IsAscii(s)
  {
    seq(n, i => 'a')
  }

  lemma NameIsIdentifier(n: nat)
    requires n <= U64_MAX
    ensures IsIdentifier(GrantName(n), MAX_IDENTIFIER) && IsIdentifier(LeaseName(n), MAX_IDENTIFIER)
  {
    hide Decimal.Printed;
    Decimal.PrintedShort(n);
    var d := Decimal.Printed(n);
    forall i | 0 <= i < |d| ensures IdentifierChar(d[i]) { assert Decimal.IsDigit(d[i]); }
  }

  lemma NameFits(s: string)
    requires s == [] || IsIdentifier(s, MAX_IDENTIFIER)
    ensures Fits(NAME, Chars_(s))
  {
    if s != [] {
      IdentifierIsAscii(s, MAX_IDENTIFIER);
      AsciiIsUtf8(s);
    }
  }

  lemma LettersFit()
    ensures Fits(NAME, Chars_("")) && Fits(NAME, Chars_("c")) && Fits(NAME, Chars_("k")) && Fits(NAME, Chars_("s"))
    ensures Fits(NAME, Chars_("d")) && Fits(NAME, Chars_("a")) && Fits(NAME, Chars_("p")) && Fits(NAME, Chars_("x"))
  {
    hide Fits;
    NameFits("");
    NameFits("c");
    NameFits("k");
    NameFits("s");
    NameFits("d");
    NameFits("a");
    NameFits("p");
    NameFits("x");
  }

  lemma SampleBound(g: Grant)
    requires g.binding == Witness.Sample("x", "p", 6, g.binding.lease).binding
    ensures Fits(BOUND, BoundValue(g.binding))
  {
    LettersFit();
    var b := g.binding;
    var v := BoundValue(b);
    assert Fits(U64, Number(1)) && Fits(U64, Number(0)) && Fits(DIGEST, Raw(ZeroDigest()));
    hide Fits;
    Fields4(CONTRACT_PART, SIDE, SIDE, ROUTE, v);
    Fields4(NAME, U64, NAME, NAME, L(v));
    Fields3(NAME, U64, DIGEST, L(R(v)));
    Fields3(NAME, U64, DIGEST, L(R(R(v))));
    Fields4(NAME, NAME, NAME, Both(U64, Both(NAME, U64)), R(R(R(v))));
    Fields3(U64, NAME, U64, R(R(R(R(R(R(v)))))));
  }

  lemma SampleTerms(g: Grant, lease: Id)
    requires Witness.Holding(g, "x", "p", 6, lease) && IsIdentifier(lease, MAX_IDENTIFIER)
    ensures Fits(TERMS, TermsValue(g))
  {
    LettersFit();
    NameFits(lease);
    var v := TermsValue(g);
    assert Fits(U64, Number(6)) && Fits(U64, Number(0)) && Fits(U32, Number(1));
    hide Fits;
    Fields3(AMOUNTS, LEASE, ORIGIN, v);
    Fields3(U64, U64, U32, L(v));
    Fields3(NAME, U64, U64, L(R(v)));
    Fields3(NAME, NAME, NAME, R(R(v)));
  }

  lemma SampleRest(g: Grant, lease: Id)
    requires Witness.Holding(g, "x", "p", 6, lease) && g.prepareSeq <= U64_MAX && g.commitSeq <= U64_MAX
    ensures Fits(PROGRESS, ProgressValue(g)) && Fits(PROVENANCE, ProvenanceValue(g.binding.provenance))
    ensures Fits(COORDINATE, CoordinateValue(g.at)) && Fits(REASONS, Items(ReasonValues(GrantCodec.Kept(g.reductions))))
  {
    LettersFit();
    StatusFits(g);
    ReasonsFit([]);
    var v, p, c := ProgressValue(g), ProvenanceValue(g.binding.provenance), CoordinateValue(g.at);
    assert Fits(U64, Number(g.prepareSeq)) && Fits(U64, Number(g.commitSeq)) && Fits(U64, Number(0));
    assert Fits(U64, Number(4)) && Fits(U64, Number(1)) && Fits(INCARNATION, Raw(Witness.Life()));
    assert Fits(Str(MAX_IDENTIFIER, Utf8), Chars_(""));
    hide Fits;
    Fields3(STATUS, POSITIONS, FLAGS, v);
    Fields4(U64, U64, U64, U64, L(R(v)));
    Fields4(NAME, Str(MAX_IDENTIFIER, Utf8), Str(MAX_IDENTIFIER, Utf8), Both(U64, U64), p);
    Fields2(U64, U64, R(R(R(p))));
    Fields4(U64, U64, U64, INCARNATION, c);
  }

  lemma SampleCodable(id: Id, g: Grant, lease: Id)
    requires Witness.Holding(g, "x", "p", 6, lease) && g.prepareSeq <= U64_MAX && g.commitSeq <= U64_MAX
    requires IsIdentifier(id, MAX_IDENTIFIER) && IsIdentifier(lease, MAX_IDENTIFIER)
    ensures GrantCodable(id, g)
  {
    hide Fits, ReasonValues, CoordinateValue, BoundValue, TermsValue, ProgressValue, ProvenanceValue;
    LettersFit();
    NameFits(id);
    SampleBound(g);
    SampleTerms(g, lease);
    SampleRest(g, lease);
    GrantFields(GrantValue(id, g));
    Fields3(PROGRESS, REASONS, PROVENANCE, R(R(R(R(R(GrantValue(id, g)))))));
  }

  /** A cancel with a reason of `n` bytes of the first grant of `Witness`. */
  function Because(n: nat): CancelRequest { CancelRequest("r", "", Witness.First(), Letters(n)) }

  lemma BecauseEnds(n: nat)
    requires hide Reachable, GrantCodable, Witness.Full; n <= MAX_NOTE
    ensures CancelEnds(Witness.Full(), Because(n), Witness.First())
    ensures GrantCodable(Witness.First(), Get(Witness.Full().store.grants, Witness.First()).value)
    ensures Get(Witness.Full().store.grants, Witness.First()).value.reductions == []
    ensures Reachable(Witness.Full(), Loose) && Witness.Full().store.tick == 0
  {
    hide Witness.Full, Reachable, GrantName, LeaseName, LowerBound, GrantCodable, ValidFrom, Total, Witness.Homes,
         Witness.TwoLines, Witness.Deals;
    Witness.FullHeld();
    Witness.NamesPlain();
    AsciiIsUtf8(Letters(n));
    NameIsIdentifier(1);
    SampleCodable(Witness.First(), Get(Witness.Full().store.grants, Witness.First()).value, LeaseName(1));
  }

  /** The same grant of the same run, cancelled for a reason of 256 bytes and for one of 257: the one record is read
      back, the other is not. */
  lemma OneByteTooMany(x: Extras)
    requires hide Reachable, Cancel, Witness.Full; ExtrasFit(x)
    ensures Reachable(Witness.Full(), Loose) && CancelShape(Because(256)) == Ok == CancelShape(Because(257))
    ensures Writes(Witness.Full(), Cancel(Witness.Full(), Because(256)).0)
            && IsRead(FirstWritten(Witness.Full(), Cancel(Witness.Full(), Because(256)).0), x)
    ensures Writes(Witness.Full(), Cancel(Witness.Full(), Because(257)).0)
            && !IsRead(FirstWritten(Witness.Full(), Cancel(Witness.Full(), Because(257)).0), x)
  {
    hide Witness.Full, Reachable, GrantCodable, Cancel, CancelTarget, LowerBound, IsRead, ValidFrom, Writes, FirstWritten;
    BecauseEnds(256);
    BecauseEnds(257);
    AsciiIsUtf8(Letters(256));
    AsciiIsUtf8(Letters(257));
    CancelReads(Witness.Full(), Because(256), Witness.First(), x);
    CancelReads(Witness.Full(), Because(257), Witness.First(), x);
  }
}
