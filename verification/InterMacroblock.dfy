// Whole P and B macroblocks: what the bounded writers write, the decoder reads back.
module InterMacroblock {
  import opened BitMath
  import opened Bitstream
  import opened BitIo
  import opened BitReading
  import opened InterSyntax
  import opened InterMotion
  import opened InterMotionWriter
  import opened InterMotionReader
  import Residual = InterResidual
  import opened InterPayload
  import opened CavlcResidual
  import opened Options

  // ---------- coded block patterns ----------

  // Coded block patterns of inter macroblocks by code number (Table 9-4), with chroma and without.
  function ColourCbp(raw: nat): nat
  {
    match raw
    case 0 => 0 case 1 => 16 case 2 => 1 case 3 => 2 case 4 => 4 case 5 => 8
    case 6 => 32 case 7 => 3 case 8 => 5 case 9 => 10 case 10 => 12 case 11 => 15
    case 12 => 47 case 13 => 7 case 14 => 11 case 15 => 13 case 16 => 14 case 17 => 6
    case 18 => 9 case 19 => 31 case 20 => 35 case 21 => 37 case 22 => 42 case 23 => 44
    case 24 => 33 case 25 => 34 case 26 => 36 case 27 => 40 case 28 => 39 case 29 => 43
    case 30 => 45 case 31 => 46 case 32 => 17 case 33 => 18 case 34 => 20 case 35 => 24
    case 36 => 19 case 37 => 21 case 38 => 26 case 39 => 28 case 40 => 23 case 41 => 27
    case 42 => 29 case 43 => 30 case 44 => 22 case 45 => 25 case 46 => 38 case _ => 41
  }

  function GrayCbp(raw: nat): nat
  {
    match raw
    case 0 => 0 case 1 => 1 case 2 => 2 case 3 => 4 case 4 => 8 case 5 => 3
    case 6 => 5 case 7 => 10 case 8 => 12 case 9 => 15 case 10 => 7 case 11 => 11
    case 12 => 13 case 13 => 14 case 14 => 6 case _ => 9
  }

  function CbpTable(chroma: bool): (t: seq<nat>)
    ensures |t| == if chroma then 48 else 16
  {
    if chroma then seq(48, raw requires 0 <= raw => ColourCbp(raw)) else seq(16, raw requires 0 <= raw => GrayCbp(raw))
  }

  function FindValue(table: seq<nat>, v: int, k: nat): Option<nat>
    decreases |table| - k
  {
    if k >= |table| then None else if table[k] == v then Some(k) else FindValue(table, v, k + 1)
  }

  lemma {:induction false} FoundValue(table: seq<nat>, v: int, k: nat)
    ensures FindValue(table, v, k).Some? ==>
      FindValue(table, v, k).value < |table| && table[FindValue(table, v, k).value] == v
    decreases |table| - k
  {
    if k < |table| && table[k] != v {
      FoundValue(table, v, k + 1);
    }
  }

  function CbpWord(chroma: bool, cbp: int): Option<seq<bit>>
  {
    match FindValue(CbpTable(chroma), cbp, 0)
    case None => None
    case Some(raw) => UeWord(raw)
  }

  function ParseCbp(s: seq<bit>, p: nat, chroma: bool): Parse<nat>
  {
    match ReadUe(s, p)
    case Bad => Bad
    case Got(raw, q) => if raw < |CbpTable(chroma)| then Got(CbpTable(chroma)[raw], q) else Bad
  }

  lemma CbpRoundTrip(s: seq<bit>, p: nat, chroma: bool, cbp: int)
    requires CbpWord(chroma, cbp).Some? && Starts(s, p, CbpWord(chroma, cbp).value)
    ensures cbp >= 0 && ParseCbp(s, p, chroma) == Got(cbp, p + |CbpWord(chroma, cbp).value|)
  {
    hide CbpTable, Starts;
    FoundValue(CbpTable(chroma), cbp, 0);
    UeRoundTrip(s, p, FindValue(CbpTable(chroma), cbp, 0).value);
  }

  // Every pattern of four luma quarters and no, DC or all chroma blocks has a code, and no other.
  lemma CbpCodes(chroma: bool, cbp: int)
    ensures CbpWord(chroma, cbp).Some? <==> 0 <= cbp < if chroma then 48 else 16
  {
    var table := CbpTable(chroma);
    if 0 <= cbp < |table| {
      CodesOfPatterns(cbp);
      FindFrom(table, cbp, 0, if chroma then ColourCode(cbp) else GrayCode(cbp));
    } else {
      FoundValue(table, cbp, 0);
      TableRange(chroma);
    }
  }

  lemma TableRange(chroma: bool)
    ensures forall k :: 0 <= k < |CbpTable(chroma)| ==> CbpTable(chroma)[k] < |CbpTable(chroma)|
  {
  }

  lemma {:induction false} FindFrom(table: seq<nat>, v: int, k: nat, l: nat)
    requires k <= l < |table| && table[l] == v
    ensures FindValue(table, v, k).Some? && FindValue(table, v, k).value <= l
    decreases l - k
  {
    if k < l && table[k] != v {
      FindFrom(table, v, k + 1, l);
    }
  }

  // The code numbers of patterns, the inverse of the tables.
  function ColourCode(cbp: nat): nat
  {
    match cbp
    case 0 => 0 case 1 => 2 case 2 => 3 case 3 => 7 case 4 => 4 case 5 => 8
    case 6 => 17 case 7 => 13 case 8 => 5 case 9 => 18 case 10 => 9 case 11 => 14
    case 12 => 10 case 13 => 15 case 14 => 16 case 15 => 11 case 16 => 1 case 17 => 32
    case 18 => 33 case 19 => 36 case 20 => 34 case 21 => 37 case 22 => 44 case 23 => 40
    case 24 => 35 case 25 => 45 case 26 => 38 case 27 => 41 case 28 => 39 case 29 => 42
    case 30 => 43 case 31 => 19 case 32 => 6 case 33 => 24 case 34 => 25 case 35 => 20
    case 36 => 26 case 37 => 21 case 38 => 46 case 39 => 28 case 40 => 27 case 41 => 47
    case 42 => 22 case 43 => 29 case 44 => 23 case 45 => 30 case 46 => 31 case _ => 12
  }

  function GrayCode(cbp: nat): nat
  {
    match cbp
    case 0 => 0 case 1 => 1 case 2 => 2 case 3 => 5 case 4 => 3 case 5 => 6
    case 6 => 14 case 7 => 10 case 8 => 4 case 9 => 15 case 10 => 7 case 11 => 11
    case 12 => 8 case 13 => 12 case 14 => 13 case _ => 9
  }

  lemma CodesOfPatterns(cbp: nat)
    ensures cbp < 48 ==> ColourCode(cbp) < 48 && ColourCbp(ColourCode(cbp)) == cbp
    ensures cbp < 16 ==> GrayCode(cbp) < 16 && GrayCbp(GrayCode(cbp)) == cbp
  {
  }

  method WriteCbp(bw: BitWriter, chroma: bool, cbp: int) returns (ok: bool)
    requires bw.Valid()
    modifies bw
    ensures bw.Valid() && Outcome(ok, bw.Text()) == Append(old(bw.Text()), CbpWord(chroma, cbp))
    ensures ok ==> cbp >= 0
  {
    var table := CbpTable(chroma);
    FoundValue(table, cbp, 0);
    CbpCodes(chroma, cbp);
    hide CbpTable;
    if cbp < 0 || cbp > if chroma then 47 else 15 {
      return false;
    }
    for raw := 0 to |table|
      invariant FindValue(table, cbp, raw) == FindValue(table, cbp, 0)
    {
      if table[raw] == cbp {
        ok := bw.WriteUe(raw);
        return;
      }
    }
    return false;
  }

  method ReadCbp(gb: BitReader, chroma: bool) returns (ok: bool, cbp: nat)
    requires gb.Valid()
    modifies gb`bitPos
    ensures gb.Valid() && gb.Bits() == old(gb.Bits())
    ensures Reads(ParseCbp(gb.Bits(), old(gb.bitPos), chroma), ok, cbp, gb.bitPos)
  {
    cbp := 0;
    NothingToRead([], gb.bitPos);
    hide Bitstream.ReadUe, CbpTable;
    var raw;
    ok, raw := gb.ReadUe();
    if !ok {
      return;
    }
    if raw > if chroma then 47 else 15 {
      return false, 0;
    }
    cbp := CbpTable(chroma)[raw];
  }

  // ---------- the residual payload ----------

  // What the payload depends on beside its macroblock.
  datatype Setup = Setup(tables: Residual.Tables, format: nat, qscale: nat)
  {
    ghost predicate Valid()
    {
      tables.Valid() && tables.maxQp < 0x1000_0000 && qscale < 0x4000_0000
        && forall m, qp :: tables.chromaQp(m, qp) <= QpMaxNum
    }

    // Formats 4:2:0 and 4:2:2 code chroma in the pattern.
    predicate Chroma()
    {
      format == 1 || format == 2
    }
  }

  // A context: counts and coefficients.
  datatype Context = Context(counts: seq<int>, mb: seq<int>)
  {
    predicate Sized()
    {
      |counts| == 120 && |mb| == 768
    }
  }

  ghost function PayloadWord(c: Context, setup: Setup, kind: MbType, cbp: nat, next: nat): Option<seq<bit>>
    requires c.Sized() && Residual.Coefficients768(c.mb) && setup.Valid()
  {
    if kind.intra || kind.dct8x8 || setup.format != 1 then None
    else if cbp == 0 then Some([])
    else if next > QpMaxNum then None
    else Join(DQuantWord(setup.qscale, next, setup.tables.maxQp),
              Residual.StepsWord(c.mb, Residual.At(setup.tables, next), Residual.State(c.counts, 0), PayloadSteps(cbp)))
  }

  datatype Payload = Payload(context: Context, qscale: nat, cbpTable: nat)

  const Zeros768: seq<int> := seq(768, k => 0)

  function CbpAndCounts(cbp: nat, coded: nat): nat
  {
    Residual.Or(cbp, coded * 4096)
  }

  // A macroblock without 8x8 transform, with 4:2:0 chroma.
  function ParsePayload(s: seq<bit>, p: nat, c: Context, t: Residual.Tables, qscale: nat, cbp: nat): Parse<Payload>
    requires c.Sized() && forall qp :: |t.scan(qp)| == 16
  {
    if cbp == 0 then Got(Payload(c.(counts := Residual.Cleared(c.counts, Residual.ClearAll)), qscale, 0), p)
    else
      match ReadSe(s, p)
      case Bad => Bad
      case Got(dquant, q) =>
        match Updated(qscale, dquant, t.maxQp)
        case None => Bad
        case Some(next) =>
          if next > QpMaxNum then Bad
          else
            match Residual.ParseSteps(s, q, Residual.Progress(Residual.State(c.counts, 0), Zeros768),
                                      Residual.At(t, next), PayloadSteps(cbp))
            case Bad => Bad
            case Got(at, r) => Got(Payload(Context(at.state.counts, at.mb), next, CbpAndCounts(cbp, at.state.coded)), r)
  }

  // What is left behind by the writer, and what the decoder receives.
  ghost function PayloadAfter(c: Context, t: Residual.Tables, cbp: nat, next: nat): Residual.State
    requires c.Sized() && Residual.Coefficients768(c.mb) && forall qp :: |t.scan(qp)| == 16
  {
    if cbp == 0 then Residual.State(Residual.Cleared(c.counts, Residual.ClearAll), 0)
    else Residual.AfterAll(c.mb, Residual.At(t, next), Residual.State(c.counts, 0), PayloadSteps(cbp))
  }

  ghost function PayloadReceived(c: Context, d: Context, setup: Setup, cbp: nat, next: nat): Payload
    requires c.Sized() && d.Sized() && Residual.Coefficients768(c.mb) && forall qp :: |setup.tables.scan(qp)| == 16
  {
    var after := PayloadAfter(c, setup.tables, cbp, next);
    if cbp == 0 then Payload(Context(after.counts, d.mb), setup.qscale, 0)
    else Payload(Context(after.counts,
                         Residual.ReceivedAll(c.mb, Zeros768, Residual.At(setup.tables, next), PayloadSteps(cbp))),
                 next, CbpAndCounts(cbp, after.coded))
  }

  lemma DQuantRoundTrip(s: seq<bit>, p: nat, qscale: nat, next: nat, maxQp: nat)
    requires DQuantWord(qscale, next, maxQp).Some? && maxQp < 0x1000_0000
    requires Starts(s, p, DQuantWord(qscale, next, maxQp).value)
    ensures ReadSe(s, p) == Got(DQuant(qscale, next, maxQp), p + |DQuantWord(qscale, next, maxQp).value|)
    ensures Updated(qscale, DQuant(qscale, next, maxQp), maxQp) == Some(next)
  {
    hide Se, ReadSe, Starts;
    DQuantUpdates(qscale, next, maxQp);
    SeRoundTrip(s, p, DQuant(qscale, next, maxQp));
  }

  lemma PayloadWordIs(c: Context, setup: Setup, kind: MbType, cbp: nat, next: nat)
    requires c.Sized() && Residual.Coefficients768(c.mb) && setup.Valid() && cbp != 0
    requires PayloadWord(c, setup, kind, cbp, next).Some?
    ensures next <= QpMaxNum && |Residual.At(setup.tables, next).scan| == 16 && |c.counts| == 120
    ensures PayloadWord(c, setup, kind, cbp, next) ==
      Join(DQuantWord(setup.qscale, next, setup.tables.maxQp),
           Residual.StepsWord(c.mb, Residual.At(setup.tables, next), Residual.State(c.counts, 0), PayloadSteps(cbp)))
  {
    hide Residual.Coefficients768, DQuantWord, Residual.StepsWord, PayloadSteps;
  }

  lemma PayloadWordParts(s: seq<bit>, p: nat, c: Context, setup: Setup, kind: MbType, cbp: nat, next: nat)
    requires c.Sized() && Residual.Coefficients768(c.mb) && setup.Valid() && cbp != 0
    requires var w := PayloadWord(c, setup, kind, cbp, next); w.Some? && Starts(s, p, w.value)
    ensures var first, rest := DQuantWord(setup.qscale, next, setup.tables.maxQp),
                               Residual.StepsWord(c.mb, Residual.At(setup.tables, next), Residual.State(c.counts, 0),
                                                  PayloadSteps(cbp));
      && first.Some? && rest.Some? && next <= QpMaxNum
      && |PayloadWord(c, setup, kind, cbp, next).value| == |first.value| + |rest.value|
      && Starts(s, p, first.value) && Starts(s, p + |first.value|, rest.value)
  {
    hide *;
    ScansSized(setup);
    PayloadWordIs(c, setup, kind, cbp, next);
    var q := Residual.At(setup.tables, next);
    var first, rest := DQuantWord(setup.qscale, next, setup.tables.maxQp),
                       Residual.StepsWord(c.mb, q, Residual.State(c.counts, 0), PayloadSteps(cbp));
    JoinTwo(s, p, first, rest);
    JoinLength(first, rest);
  }

  lemma ParsePayloadIs(s: seq<bit>, p: nat, c: Context, t: Residual.Tables, qscale: nat, cbp: nat, q: nat, dquant: int,
                       next: nat)
    requires c.Sized() && (forall qp :: |t.scan(qp)| == 16) && cbp != 0
    requires ReadSe(s, p) == Got(dquant, q) && Updated(qscale, dquant, t.maxQp) == Some(next) && next <= QpMaxNum
    ensures ParsePayload(s, p, c, t, qscale, cbp) ==
      match Residual.ParseSteps(s, q, Residual.Progress(Residual.State(c.counts, 0), Zeros768), Residual.At(t, next),
                                PayloadSteps(cbp))
      case Bad => Bad
      case Got(at, r) => Got(Payload(Context(at.state.counts, at.mb), next, CbpAndCounts(cbp, at.state.coded)), r)
  {
    hide ReadSe, Updated, Residual.ParseSteps, Residual.At, PayloadSteps;
  }

  lemma CodedPayloadRoundTrip(s: seq<bit>, p: nat, c: Context, d: Context, setup: Setup, kind: MbType, cbp: nat,
                              next: nat)
    requires c.Sized() && d.Sized() && d.counts == c.counts && Residual.Coefficients768(c.mb) && setup.Valid()
      && cbp != 0
    requires var w := PayloadWord(c, setup, kind, cbp, next); w.Some? && Starts(s, p, w.value)
    ensures ParsePayload(s, p, d, setup.tables, setup.qscale, cbp) ==
      Got(PayloadReceived(c, d, setup, cbp, next), p + |PayloadWord(c, setup, kind, cbp, next).value|)
  {
    hide DQuant, DQuantWord, ReadSe, Residual.StepsWord, Residual.ParseSteps, Starts, PayloadSteps, Updated,
      Residual.Coefficients768;
    hide PayloadWord, ParsePayload, Residual.ReceivedAll, Residual.AfterAll, CbpAndCounts;
    PayloadWordParts(s, p, c, setup, kind, cbp, next);
    var t, state := setup.tables, Residual.State(c.counts, 0);
    var q := p + |DQuantWord(setup.qscale, next, t.maxQp).value|;
    DQuantRoundTrip(s, p, setup.qscale, next, t.maxQp);
    assert Residual.At(t, next).Valid();
    hide Setup.Valid, Residual.At;
    Residual.StepsRoundTrip(s, q, c.mb, Residual.Progress(state, Zeros768), Residual.At(t, next), PayloadSteps(cbp));
    ParsePayloadIs(s, p, d, t, setup.qscale, cbp, q, DQuant(setup.qscale, next, t.maxQp), next);
  }

  // Neighbouring counts are the same on both sides; coefficients are those of the writer.
  lemma PayloadRoundTrip(s: seq<bit>, p: nat, c: Context, d: Context, setup: Setup, kind: MbType, cbp: nat, next: nat)
    requires c.Sized() && d.Sized() && d.counts == c.counts && Residual.Coefficients768(c.mb) && setup.Valid()
    requires var w := PayloadWord(c, setup, kind, cbp, next); w.Some? && Starts(s, p, w.value)
    ensures ParsePayload(s, p, d, setup.tables, setup.qscale, cbp) ==
      Got(PayloadReceived(c, d, setup, cbp, next), p + |PayloadWord(c, setup, kind, cbp, next).value|)
  {
    if cbp != 0 {
      CodedPayloadRoundTrip(s, p, c, d, setup, kind, cbp, next);
    }
    hide Residual.StepsWord, Residual.ParseSteps, Residual.Coefficients768, Residual.At;
  }

  ghost function Held(r: ResidualContext): Context
    reads r
  {
    Context(r.NonZeroCountCache, r.MB)
  }

  ghost predicate WrittenPayload(c: Context, t: Residual.Tables, cbp: nat, next: nat, counts: seq<int>, cbpTable: nat)
    requires c.Sized() && Residual.Coefficients768(c.mb) && forall qp :: |t.scan(qp)| == 16
  {
    var after := PayloadAfter(c, t, cbp, next);
    counts == after.counts && cbpTable == if cbp == 0 then 0 else CbpAndCounts(cbp, after.coded)
  }

  ghost function CodedWord(c: Context, setup: Setup, cbp: nat, next: nat): Option<seq<bit>>
    requires c.Sized() && Residual.Coefficients768(c.mb) && setup.Valid()
  {
    Join(DQuantWord(setup.qscale, next, setup.tables.maxQp),
         Residual.StepsWord(c.mb, Residual.At(setup.tables, next), Residual.State(c.counts, 0), PayloadSteps(cbp)))
  }

  // Luma and chroma blocks follow the quantiser step.
  method WriteCoded(bw: BitWriter, r: ResidualContext, setup: Setup, cbp: nat, next: nat)
    returns (ok: bool, cbpTable: nat)
    requires bw.Valid() && r.Sized() && Residual.Coefficients768(r.MB) && setup.Valid() && cbp != 0 && next <= QpMaxNum
    modifies bw, r`NonZeroCountCache
    ensures bw.Valid() && r.Sized()
    ensures Outcome(ok, bw.Text()) == Append(old(bw.Text()), CodedWord(old(Held(r)), setup, cbp, next))
    ensures ok ==> WrittenPayload(old(Held(r)), setup.tables, cbp, next, r.NonZeroCountCache, cbpTable)
  {
    cbpTable := 0;
    ghost var c := Held(r);
    var t := setup.tables;
    ghost var q, state := Residual.At(t, next), Residual.State(c.counts, 0);
    ghost var blocks := Residual.StepsWord(c.mb, q, state, PayloadSteps(cbp));
    AppendJoin(bw.Text(), DQuantWord(setup.qscale, next, t.maxQp), blocks);
    NothingAfterNone(blocks);
    PayloadText(c, q, cbp);
    hide Append, Join, Residual.StepsWord, Residual.AfterAll, LumaSteps, ChromaSteps, PayloadSteps,
      Residual.Coefficients768, DQuantWord, CbpAndCounts;
    ok := WriteDQuant(bw, setup.qscale, next, t.maxQp);
    if !ok {
      return;
    }
    ghost var text := bw.Text();
    var coded;
    ok, coded := r.WriteLuma(bw, Residual.At(t, next), cbp);
    ghost var after := Residual.AfterAll(c.mb, q, state, LumaSteps(cbp, 0, 0));
    AppendJoin(text, Residual.StepsWord(c.mb, q, state, LumaSteps(cbp, 0, 0)),
               Residual.StepsWord(c.mb, q, after, ChromaSteps(cbp)));
    NothingAfterNone(Residual.StepsWord(c.mb, q, after, ChromaSteps(cbp)));
    if !ok {
      return;
    }
    ok := r.WriteChroma(bw, Residual.At(t, next), cbp, t.chromaQp(0, next), t.chromaQp(1, next), coded);
    if ok {
      cbpTable := CbpAndCounts(cbp, coded);
    }
  }

  lemma PayloadText(c: Context, q: Residual.Quantised, cbp: nat)
    requires c.Sized() && Residual.Coefficients768(c.mb) && |q.scan| == 16
    ensures var state := Residual.State(c.counts, 0);
      var after := Residual.AfterAll(c.mb, q, state, LumaSteps(cbp, 0, 0));
      && Residual.StepsWord(c.mb, q, state, PayloadSteps(cbp)) ==
         Join(Residual.StepsWord(c.mb, q, state, LumaSteps(cbp, 0, 0)),
              Residual.StepsWord(c.mb, q, after, ChromaSteps(cbp)))
      && Residual.AfterAll(c.mb, q, state, PayloadSteps(cbp)) == Residual.AfterAll(c.mb, q, after, ChromaSteps(cbp))
  {
    InterPayload.WordConcat(c.mb, q, Residual.State(c.counts, 0), LumaSteps(cbp, 0, 0), ChromaSteps(cbp));
  }

  method WritePayload(bw: BitWriter, r: ResidualContext, setup: Setup, kind: MbType, cbp: nat, next: nat)
    returns (ok: bool, cbpTable: nat)
    requires bw.Valid() && r.Sized() && Residual.Coefficients768(r.MB) && setup.Valid()
    modifies bw, r`NonZeroCountCache
    ensures bw.Valid() && r.Sized()
    ensures Outcome(ok, bw.Text()) == Append(old(bw.Text()), PayloadWord(old(Held(r)), setup, kind, cbp, next))
    ensures ok ==> WrittenPayload(old(Held(r)), setup.tables, cbp, next, r.NonZeroCountCache, cbpTable)
  {
    cbpTable := 0;
    hide Residual.StepsWord, Residual.AfterAll, PayloadSteps, Residual.Coefficients768, DQuantWord, Residual.Cleared;
    if kind.intra || kind.dct8x8 || setup.format != 1 {
      return false, 0;
    }
    if cbp == 0 {
      AppendNothing(bw.Text());
      r.NonZeroCountCache := Residual.Cleared(r.NonZeroCountCache, Residual.ClearAll);
      return true, 0;
    }
    if next > QpMaxNum {
      ok := WriteDQuant(bw, setup.qscale, next, setup.tables.maxQp);
      return false, 0;
    }
    ok, cbpTable := WriteCoded(bw, r, setup, cbp, next);
  }

  // Reading: the coefficients are cleared, the quantiser updated, and the blocks decoded.
  method ReadCoded(gb: BitReader, r: ResidualContext, setup: Setup, cbp: nat, next: nat) returns (ok: bool, coded: nat)
    requires gb.Valid() && r.Sized() && setup.Valid()
    modifies gb`bitPos, r
    ensures gb.Valid() && gb.Bits() == old(gb.Bits()) && r.Sized()
    ensures Reads(Residual.ParseSteps(gb.Bits(), old(gb.bitPos), old(r.At(0)), Residual.At(setup.tables, next),
                                      PayloadSteps(cbp)),
                  ok, r.At(coded), gb.bitPos)
  {
    var t := setup.tables;
    ghost var q := Residual.At(t, next);
    InterPayload.ParseConcat(gb.Bits(), gb.bitPos, r.At(0), q, LumaSteps(cbp, 0, 0), ChromaSteps(cbp));
    assert PayloadSteps(cbp) == LumaSteps(cbp, 0, 0) + ChromaSteps(cbp);
    hide Residual.ParseSteps, LumaSteps, ChromaSteps, PayloadSteps;
    ok, coded := r.ReadLuma(gb, Residual.At(t, next), cbp);
    if !ok {
      return;
    }
    ok := r.ReadChroma(gb, Residual.At(t, next), cbp, t.chromaQp(0, next), t.chromaQp(1, next), coded);
  }

  method ReadPayload(gb: BitReader, r: ResidualContext, setup: Setup, cbp: nat)
    returns (ok: bool, qscale: nat, cbpTable: nat)
    requires gb.Valid() && r.Sized() && setup.Valid()
    modifies gb`bitPos, r
    ensures gb.Valid() && gb.Bits() == old(gb.Bits()) && r.Sized()
    ensures Reads(ParsePayload(gb.Bits(), old(gb.bitPos), old(Held(r)), setup.tables, setup.qscale, cbp),
                  ok, Payload(Held(r), qscale, cbpTable), gb.bitPos)
  {
    qscale, cbpTable := setup.qscale, cbp;
    ghost var s, p, c := gb.Bits(), gb.bitPos, Held(r);
    NothingToRead([], gb.bitPos);
    hide Residual.ParseSteps, PayloadSteps, Residual.Cleared, ReadSe, Residual.At, CbpAndCounts;
    if cbp == 0 {
      r.NonZeroCountCache := Residual.Cleared(r.NonZeroCountCache, Residual.ClearAll);
      return true, qscale, 0;
    }
    r.MB := Zeros768;
    var dquant;
    ok, dquant := gb.ReadSe();
    if !ok {
      return;
    }
    var next := UpdateQScale(setup.qscale, dquant, setup.tables.maxQp);
    if next.None? || next.value > QpMaxNum {
      return false, qscale, cbpTable;
    }
    qscale := next.value;
    var coded;
    ok, coded := ReadCoded(gb, r, setup, cbp, qscale);
    if ok {
      cbpTable := CbpAndCounts(cbp, coded);
    }
  }

  // ---------- whole macroblocks ----------

  ghost function TailWord(c: Context, setup: Setup, mb: Macroblock, next: nat): Option<seq<bit>>
    requires c.Sized() && Residual.Coefficients768(c.mb) && setup.Valid()
  {
    if mb.cbp < 0 then None
    else Join(CbpWord(setup.Chroma(), mb.cbp), PayloadWord(c, setup, mb.info.kind, mb.cbp, next))
  }

  ghost function MacroblockWord(c: Context, setup: Setup, mb: Macroblock, b: bool, counts: Counts,
                                next: nat): Option<seq<bit>>
    requires c.Sized() && Residual.Coefficients768(c.mb) && setup.Valid() && mb.Shaped()
  {
    if mb.info.kind.intra then None else Join(MotionWord(mb, b, counts), TailWord(c, setup, mb, next))
  }

  datatype Decoded = Decoded(mb: Macroblock, payload: Payload)

  function ParseTail(s: seq<bit>, p: nat, d: Context, setup: Setup, mb: Macroblock): Parse<Decoded>
    requires d.Sized() && mb.Shaped() && forall qp :: |setup.tables.scan(qp)| == 16
  {
    match ParseCbp(s, p, setup.Chroma())
    case Bad => Bad
    case Got(cbp, q) =>
      match ParsePayload(s, q, d, setup.tables, setup.qscale, cbp)
      case Bad => Bad
      case Got(payload, r) => Got(Decoded(mb.(cbp := cbp), payload), r)
  }

  function ParseMacroblock(s: seq<bit>, p: nat, d: Context, setup: Setup, b: bool, counts: Counts,
                           blank: Macroblock): Parse<Decoded>
    requires d.Sized() && blank.Shaped() && forall qp :: |setup.tables.scan(qp)| == 16
  {
    match ParseMotion(s, p, b, counts, blank)
    case Bad => Bad
    case Got(mb, q) => ParseTail(s, q, d, setup, mb)
  }

  // What the decoder gives back of a macroblock that was written.
  ghost predicate GivesBack(r: Decoded, mb: Macroblock, b: bool, c: Context, d: Context, setup: Setup, next: nat)
    requires c.Sized() && d.Sized() && Residual.Coefficients768(c.mb) && setup.Valid() && mb.Shaped() && mb.cbp >= 0
    requires HasSubs(mb, b) ==> SubsFit(mb)
  {
    r.mb.Shaped() && SameMotion(mb, r.mb, b) && r.mb.cbp == mb.cbp
      && r.payload == PayloadReceived(c, d, setup, mb.cbp, next)
  }

  lemma ParseTailIs(s: seq<bit>, p: nat, d: Context, setup: Setup, mb: Macroblock, cbp: nat, q: nat, payload: Payload,
                    r: nat)
    requires d.Sized() && mb.Shaped() && forall qp :: |setup.tables.scan(qp)| == 16
    requires ParseCbp(s, p, setup.Chroma()) == Got(cbp, q)
    requires ParsePayload(s, q, d, setup.tables, setup.qscale, cbp) == Got(payload, r)
    ensures ParseTail(s, p, d, setup, mb) == Got(Decoded(mb.(cbp := cbp), payload), r)
  {
    hide ParseCbp, ParsePayload, Setup.Chroma;
  }

  lemma TailRoundTrip(s: seq<bit>, p: nat, c: Context, d: Context, setup: Setup, mb: Macroblock, r: Macroblock,
                      next: nat)
    requires c.Sized() && d.Sized() && d.counts == c.counts && Residual.Coefficients768(c.mb) && setup.Valid()
      && r.Shaped()
    requires var w := TailWord(c, setup, mb, next); w.Some? && Starts(s, p, w.value)
    ensures mb.cbp >= 0
    ensures ParseTail(s, p, d, setup, r) ==
      Got(Decoded(r.(cbp := mb.cbp), PayloadReceived(c, d, setup, mb.cbp, next)),
          p + |TailWord(c, setup, mb, next).value|)
  {
    hide *;
    ScansSized(setup);
    TailWordParts(s, p, c, setup, mb, next);
    var q := p + |CbpWord(setup.Chroma(), mb.cbp).value|;
    CbpRoundTrip(s, p, setup.Chroma(), mb.cbp);
    PayloadRoundTrip(s, q, c, d, setup, mb.info.kind, mb.cbp, next);
    ParseTailIs(s, p, d, setup, r, mb.cbp, q, PayloadReceived(c, d, setup, mb.cbp, next),
                p + |TailWord(c, setup, mb, next).value|);
  }

  lemma ScansSized(setup: Setup)
    requires setup.Valid()
    ensures forall qp :: |setup.tables.scan(qp)| == 16
  {
  }

  lemma TailWordIs(c: Context, setup: Setup, mb: Macroblock, next: nat)
    requires c.Sized() && Residual.Coefficients768(c.mb) && setup.Valid()
    ensures TailWord(c, setup, mb, next).Some? ==> mb.cbp >= 0
    ensures mb.cbp >= 0 ==>
      TailWord(c, setup, mb, next) ==
        Join(CbpWord(setup.Chroma(), mb.cbp), PayloadWord(c, setup, mb.info.kind, mb.cbp, next))
  {
    hide Setup.Valid, Residual.Coefficients768, CbpWord, PayloadWord, Setup.Chroma;
  }

  lemma TailWordParts(s: seq<bit>, p: nat, c: Context, setup: Setup, mb: Macroblock, next: nat)
    requires c.Sized() && Residual.Coefficients768(c.mb) && setup.Valid()
    requires var w := TailWord(c, setup, mb, next); w.Some? && Starts(s, p, w.value)
    ensures mb.cbp >= 0
    ensures var first, rest := CbpWord(setup.Chroma(), mb.cbp), PayloadWord(c, setup, mb.info.kind, mb.cbp, next);
      && first.Some? && rest.Some? && |TailWord(c, setup, mb, next).value| == |first.value| + |rest.value|
      && Starts(s, p, first.value) && Starts(s, p + |first.value|, rest.value)
  {
    hide *;
    TailWordIs(c, setup, mb, next);
    var first, rest := CbpWord(setup.Chroma(), mb.cbp), PayloadWord(c, setup, mb.info.kind, mb.cbp, next);
    JoinTwo(s, p, first, rest);
    JoinLength(first, rest);
  }

  lemma JoinLength(a: Option<seq<bit>>, b: Option<seq<bit>>)
    requires Join(a, b).Some?
    ensures a.Some? && b.Some? && |Join(a, b).value| == |a.value| + |b.value|
  {
  }

  // Whatever a bounded writer writes, the decoder reads back, over a context with the same counts
  // of neighbours, and it takes exactly the written bits.
  lemma MacroblockRoundTrip(s: seq<bit>, p: nat, c: Context, d: Context, setup: Setup, mb: Macroblock, b: bool,
                            counts: Counts, blank: Macroblock, next: nat)
    requires c.Sized() && d.Sized() && d.counts == c.counts && Residual.Coefficients768(c.mb) && setup.Valid()
    requires mb.Shaped() && blank.Shaped()
    requires var w := MacroblockWord(c, setup, mb, b, counts, next); w.Some? && Starts(s, p, w.value)
    ensures mb.cbp >= 0 && (HasSubs(mb, b) ==> SubsFit(mb))
    ensures var r := ParseMacroblock(s, p, d, setup, b, counts, blank);
      && r.Got? && r.pos == p + |MacroblockWord(c, setup, mb, b, counts, next).value|
      && GivesBack(r.value, mb, b, c, d, setup, next)
  {
    hide *;
    ScansSized(setup);
    MacroblockWordParts(s, p, c, setup, mb, b, counts, next);
    var q := p + |MotionWord(mb, b, counts).value|;
    MotionRoundTrip(s, p, mb, b, counts, blank);
    var received := Received(mb, b, counts, blank);
    TailRoundTrip(s, q, c, d, setup, mb, received, next);
    ReceivedIsSame(mb, b, counts, blank);
    SameWithCbp(mb, received, b, mb.cbp);
    ParseMacroblockIs(s, p, d, setup, b, counts, blank, received, q);
    ShapedWithCbp(received, mb.cbp);
    GivenBack(Decoded(received.(cbp := mb.cbp), PayloadReceived(c, d, setup, mb.cbp, next)), mb, b, c, d, setup, next);
  }

  lemma ShapedWithCbp(mb: Macroblock, cbp: int)
    requires mb.Shaped()
    ensures mb.(cbp := cbp).Shaped()
  {
  }

  lemma MacroblockWordIs(c: Context, setup: Setup, mb: Macroblock, b: bool, counts: Counts, next: nat)
    requires c.Sized() && Residual.Coefficients768(c.mb) && setup.Valid() && mb.Shaped()
    ensures MacroblockWord(c, setup, mb, b, counts, next).Some? ==>
      MacroblockWord(c, setup, mb, b, counts, next) == Join(MotionWord(mb, b, counts), TailWord(c, setup, mb, next))
  {
    hide Setup.Valid, Residual.Coefficients768, MotionWord, TailWord;
  }

  lemma MacroblockWordParts(s: seq<bit>, p: nat, c: Context, setup: Setup, mb: Macroblock, b: bool, counts: Counts,
                            next: nat)
    requires c.Sized() && Residual.Coefficients768(c.mb) && setup.Valid() && mb.Shaped()
    requires var w := MacroblockWord(c, setup, mb, b, counts, next); w.Some? && Starts(s, p, w.value)
    ensures var first, rest := MotionWord(mb, b, counts), TailWord(c, setup, mb, next);
      && first.Some? && rest.Some?
      && |MacroblockWord(c, setup, mb, b, counts, next).value| == |first.value| + |rest.value|
      && Starts(s, p, first.value) && Starts(s, p + |first.value|, rest.value)
  {
    hide *;
    MacroblockWordIs(c, setup, mb, b, counts, next);
    var first, rest := MotionWord(mb, b, counts), TailWord(c, setup, mb, next);
    JoinTwo(s, p, first, rest);
    JoinLength(first, rest);
  }

  lemma ParseMacroblockIs(s: seq<bit>, p: nat, d: Context, setup: Setup, b: bool, counts: Counts, blank: Macroblock,
                          mb: Macroblock, q: nat)
    requires d.Sized() && blank.Shaped() && (forall qp :: |setup.tables.scan(qp)| == 16)
      && ParseMotion(s, p, b, counts, blank) == Got(mb, q)
    ensures mb.Shaped() && ParseMacroblock(s, p, d, setup, b, counts, blank) == ParseTail(s, q, d, setup, mb)
  {
    hide ParseMotion, ParseTail;
  }

  lemma GivenBack(r: Decoded, mb: Macroblock, b: bool, c: Context, d: Context, setup: Setup, next: nat)
    requires c.Sized() && d.Sized() && Residual.Coefficients768(c.mb) && setup.Valid() && mb.Shaped() && mb.cbp >= 0
    requires HasSubs(mb, b) ==> SubsFit(mb)
    requires r.mb.Shaped() && SameMotion(mb, r.mb, b) && r.mb.cbp == mb.cbp
      && r.payload == PayloadReceived(c, d, setup, mb.cbp, next)
    ensures GivesBack(r, mb, b, c, d, setup, next)
  {
  }

  lemma SameWithCbp(mb: Macroblock, r: Macroblock, b: bool, cbp: int)
    requires mb.Shaped() && r.Shaped() && (HasSubs(mb, b) ==> SubsFit(mb)) && SameMotion(mb, r, b)
    ensures SameMotion(mb, r.(cbp := cbp), b)
  {
    hide Used, Width, Place, MvdIndex;
    if !(b && mb.info.kind.direct) {
      forall list, i | 0 <= list < (if b then 2 else 1) && 0 <= i < Parts(mb) && i < 4 && Used(mb, b, list, i)
        ensures SameVectors(mb, r.(cbp := cbp), list, i)
      {
        assert SameVectors(mb, r, list, i);
      }
    }
  }

  // A P or B macroblock is written as its type, sub-types, references, vector differences, coded
  // block pattern and payload, or refused. Only 4:2:0 chroma is written.
  method WriteMacroblock(bw: BitWriter, r: ResidualContext, setup: Setup, mb: Macroblock, b: bool, counts: Counts,
                         next: nat)
    returns (ok: bool, cbpTable: nat)
    requires bw.Valid() && r.Sized() && Residual.Coefficients768(r.MB) && setup.Valid() && mb.Shaped() && Ranged(mb)
    modifies bw, r`NonZeroCountCache
    ensures bw.Valid() && r.Sized()
    ensures Outcome(ok, bw.Text()) == Append(old(bw.Text()), MacroblockWord(old(Held(r)), setup, mb, b, counts, next))
    ensures ok ==>
      mb.cbp >= 0 && WrittenPayload(old(Held(r)), setup.tables, mb.cbp, next, r.NonZeroCountCache, cbpTable)
  {
    cbpTable := 0;
    ghost var c := Held(r);
    if mb.info.kind.intra {
      return false, 0;
    }
    ghost var motion, tail := MotionWord(mb, b, counts), TailWord(c, setup, mb, next);
    AppendJoin(bw.Text(), motion, tail);
    NothingAfterNone(tail);
    assert MacroblockWord(c, setup, mb, b, counts, next) == Join(motion, tail);
    hide Append, Join, MotionWord, TailWord, MacroblockWord, Residual.Coefficients768, Ranged, SubsFit, PayloadAfter,
      CbpAndCounts;
    if b {
      ok := WriteBMotion(bw, mb, counts);
    } else {
      ok := WritePMotion(bw, mb, counts);
    }
    if !ok {
      return;
    }
    ok, cbpTable := WriteTail(bw, r, setup, mb, next);
  }

  method WriteTail(bw: BitWriter, r: ResidualContext, setup: Setup, mb: Macroblock, next: nat)
    returns (ok: bool, cbpTable: nat)
    requires bw.Valid() && r.Sized() && Residual.Coefficients768(r.MB) && setup.Valid()
    modifies bw, r`NonZeroCountCache
    ensures bw.Valid() && r.Sized()
    ensures Outcome(ok, bw.Text()) == Append(old(bw.Text()), TailWord(old(Held(r)), setup, mb, next))
    ensures ok ==>
      mb.cbp >= 0 && WrittenPayload(old(Held(r)), setup.tables, mb.cbp, next, r.NonZeroCountCache, cbpTable)
  {
    cbpTable := 0;
    ghost var c := Held(r);
    hide CbpWord, PayloadWord, Residual.Coefficients768, PayloadAfter, CbpAndCounts;
    NothingAfterNone(None);
    if mb.cbp < 0 {
      return false, 0;
    }
    ghost var cbpWord, payload := CbpWord(setup.Chroma(), mb.cbp), PayloadWord(c, setup, mb.info.kind, mb.cbp, next);
    AppendJoin(bw.Text(), cbpWord, payload);
    NothingAfterNone(payload);
    hide Append, Join;
    ok := WriteCbp(bw, setup.Chroma(), mb.cbp);
    if !ok {
      return;
    }
    ok, cbpTable := WritePayload(bw, r, setup, mb.info.kind, mb.cbp, next);
  }

  // A P or B macroblock is read back in the same order, with 4x4 transforms. Its payload is read
  // as one with 4:2:0 chroma whatever setup.format says; that format only selects the table of
  // coded block patterns.
  method ReadMacroblock(gb: BitReader, r: ResidualContext, setup: Setup, b: bool, counts: Counts, blank: Macroblock)
    returns (ok: bool, mb: Macroblock, qscale: nat, cbpTable: nat)
    requires gb.Valid() && r.Sized() && setup.Valid() && blank.Shaped()
    modifies gb`bitPos, r
    ensures gb.Valid() && gb.Bits() == old(gb.Bits()) && r.Sized()
    ensures Reads(ParseMacroblock(gb.Bits(), old(gb.bitPos), old(Held(r)), setup, b, counts, blank),
                  ok, Decoded(mb, Payload(Held(r), qscale, cbpTable)), gb.bitPos)
  {
    qscale, cbpTable := setup.qscale, 0;
    hide ParseMotion, ParseTail;
    if b {
      ok, mb := ReadBMotion(gb, blank, counts);
    } else {
      ok, mb := ReadPMotion(gb, blank, counts);
    }
    if !ok {
      return;
    }
    ok, mb, qscale, cbpTable := ReadTail(gb, r, setup, mb);
  }

  // The pattern and the residual.
  method ReadTail(gb: BitReader, r: ResidualContext, setup: Setup, motion: Macroblock)
    returns (ok: bool, mb: Macroblock, qscale: nat, cbpTable: nat)
    requires gb.Valid() && r.Sized() && setup.Valid() && motion.Shaped()
    modifies gb`bitPos, r
    ensures gb.Valid() && gb.Bits() == old(gb.Bits()) && r.Sized()
    ensures Reads(ParseTail(gb.Bits(), old(gb.bitPos), old(Held(r)), setup, motion),
                  ok, Decoded(mb, Payload(Held(r), qscale, cbpTable)), gb.bitPos)
  {
    mb, qscale, cbpTable := motion, setup.qscale, 0;
    hide ParsePayload, ParseCbp, Setup.Chroma;
    var cbp;
    ok, cbp := ReadCbp(gb, setup.Chroma());
    if !ok {
      return;
    }
    mb := mb.(cbp := cbp);
    ok, qscale, cbpTable := ReadPayload(gb, r, setup, cbp);
  }
}
