// NAL units in an Annex B byte stream: framing and splitting.
module Nal {
  import opened BitMath
  import opened Ebsp
  import opened Options

  const MaxStreamBytes := 0xffff_ffff

  datatype NalUnit = NalUnit(refIdc: byte, typ: byte, raw: seq<byte>, rbsp: seq<byte>)

  // What a writer frames, with header fields in range.
  datatype AnyPayload = Payload(refIdc: byte, typ: byte, rbsp: seq<byte>)

  type Payload = p: AnyPayload | p.refIdc <= 3 && p.typ <= 31 witness Payload(0, 0, [])

  function Header(u: Payload): byte
  {
    u.refIdc * 32 + u.typ
  }

  function Nal(u: Payload): seq<byte>
  {
    [Header(u)] + EscapeFrom(0, u.rbsp)
  }

  // The header byte is zero and completes a start code with the payload.
  predicate Broken(u: Payload)
  {
    Header(u) == 0 && |u.rbsp| >= 2 && u.rbsp[0] == 0 && u.rbsp[1] == 1
  }

  // ---------- writing ----------

  const StartCode: seq<byte> := [0, 0, 0, 1]

  method AppendNal(dst: seq<byte>, refIdc: byte, typ: byte, rbsp: seq<byte>) returns (ok: bool, r: seq<byte>)
    ensures ok <==> refIdc <= 3 && typ <= 31 && |dst| + 1 + |rbsp| + |rbsp| / 2 <= MaxInt
    ensures r == if ok then dst + Nal(Payload(refIdc, typ, rbsp)) else dst
  {
    if refIdc > 3 || typ > 31 {
      return false, dst;
    }
    if NalAppendCapacity(|dst|, 1, |rbsp|) < 0 {
      return false, dst;
    }
    r := dst + [refIdc * 32 + typ];
    ok, r := AppendEbsp(r, rbsp);
    assert r == dst + ([refIdc * 32 + typ] + EscapeFrom(0, rbsp));
  }

  method AppendAnnexBNal(dst: seq<byte>, refIdc: byte, typ: byte, rbsp: seq<byte>) returns (ok: bool, r: seq<byte>)
    ensures ok <==> refIdc <= 3 && typ <= 31 && |dst| + 5 + |rbsp| + |rbsp| / 2 <= MaxInt
    ensures r == if ok then dst + StartCode + Nal(Payload(refIdc, typ, rbsp)) else dst
  {
    if NalAppendCapacity(|dst|, 5, |rbsp|) < 0 {
      return false, dst;
    }
    ok, r := AppendNal(dst + [0, 0, 0, 1], refIdc, typ, rbsp);
    if !ok {
      r := r[..|dst|];
    }
  }

  function Frame(units: seq<Payload>): seq<byte>
  {
    if units == [] then [] else StartCode + Nal(units[0]) + Frame(units[1..])
  }

  // ---------- splitting ----------

  predicate ShortCode(data: seq<byte>, i: nat)
  {
    i + 3 <= |data| && data[i] == 0 && data[i + 1] == 0 && data[i + 2] == 1
  }

  predicate LongCode(data: seq<byte>, i: nat)
  {
    i + 4 <= |data| && data[i] == 0 && data[i + 1] == 0 && data[i + 2] == 0 && data[i + 3] == 1
  }

  // The first start code at or behind a position, and its length.
  datatype Code = Code(start: nat, length: nat) | NoCode

  ghost predicate IsFirst(data: seq<byte>, from: nat, c: Code)
  {
    match c
    case NoCode => forall i: nat :: from <= i ==> !ShortCode(data, i) && !LongCode(data, i)
    case Code(start, length) =>
      && from <= start
      && ((length == 3 && ShortCode(data, start)) || (length == 4 && LongCode(data, start)))
      && forall i: nat :: from <= i < start ==> !ShortCode(data, i) && !LongCode(data, i)
  }

  function First(data: seq<byte>, from: nat): (c: Code)
    ensures c.Code? ==> from <= c.start && c.length >= 3 && c.start + c.length <= |data|
    decreases |data| - from
  {
    if from + 3 > |data| then NoCode
    else if ShortCode(data, from) then Code(from, 3)
    else if LongCode(data, from) then Code(from, 4)
    else First(data, from + 1)
  }

  lemma FirstUnique(data: seq<byte>, from: nat, c: Code)
    requires IsFirst(data, from, c)
    ensures First(data, from) == c
  {
    FirstIsFirst(data, from);
    hide First;
  }

  // The search finds the first start code, with the long form where both fit.
  lemma {:induction false} FirstIsFirst(data: seq<byte>, from: nat)
    ensures IsFirst(data, from, First(data, from))
    decreases |data| - from
  {
    if from + 3 <= |data| && !ShortCode(data, from) && !LongCode(data, from) {
      FirstIsFirst(data, from + 1);
    }
  }

  method FindStartCode(data: seq<byte>, from: nat) returns (c: Code)
    ensures c == First(data, from)
  {
    var i := from;
    while i + 3 <= |data|
      invariant from <= i
      invariant First(data, from) == First(data, i)
    {
      if data[i] != 0 || data[i + 1] != 0 {
        i := i + 1;
        continue;
      }
      if data[i + 2] == 1 {
        return Code(i, 3);
      }
      if i + 4 <= |data| && data[i + 2] == 0 && data[i + 3] == 1 {
        return Code(i, 4);
      }
      i := i + 1;
    }
    return NoCode;
  }

  function ParseNal(raw: seq<byte>): Option<NalUnit>
  {
    if raw == [] || raw[0] >= 128 then None
    else match UnescapeFrom(0, raw[1..])
      case None => None
      case Some(rbsp) => Some(NalUnit(raw[0] / 32 % 4, raw[0] % 32, raw, rbsp))
  }

  // The non-empty stretches between start codes.
  function Pieces(data: seq<byte>, nalStart: nat): seq<seq<byte>>
    requires nalStart <= |data|
    decreases |data| - nalStart
  {
    match First(data, nalStart)
    case NoCode => NonEmpty(data[nalStart..])
    case Code(start, length) => NonEmpty(data[nalStart..start]) + Pieces(data, start + length)
  }

  function NonEmpty(piece: seq<byte>): seq<seq<byte>>
  {
    if piece == [] then [] else [piece]
  }

  function ParseAll(pieces: seq<seq<byte>>): Option<seq<NalUnit>>
  {
    if pieces == [] then Some([])
    else match ParseNal(pieces[0])
      case None => None
      case Some(unit) =>
        match ParseAll(pieces[1..])
        case None => None
        case Some(units) => Some([unit] + units)
  }

  function Split(data: seq<byte>): Option<seq<NalUnit>>
  {
    if |data| > MaxStreamBytes then None
    else match First(data, 0)
      case NoCode => None
      case Code(start, length) =>
        Finish(ParseAll(Pieces(data, start + length)))
  }

  // No unit at all is an error.
  function Finish(r: Option<seq<NalUnit>>): Option<seq<NalUnit>>
  {
    if r == Some([]) then None else r
  }

  // Units already parsed, and those of the remaining pieces.
  function With(out: seq<NalUnit>, pieces: seq<seq<byte>>): Option<seq<NalUnit>>
  {
    match ParseAll(pieces)
    case None => None
    case Some(units) => Some(out + units)
  }

  method SplitAnnexB(data: seq<byte>) returns (r: Option<seq<NalUnit>>)
    ensures r == Split(data)
  {
    if |data| > MaxStreamBytes {
      return None;
    }
    var c := FindStartCode(data, 0);
    if c.NoCode? {
      return None;
    }
    r := SplitFrom(data, c);
  }

  // The loop of SplitAnnexB, from the first start code on.
  method SplitFrom(data: seq<byte>, first: Code) returns (r: Option<seq<NalUnit>>)
    requires first.Code? && first.length >= 3 && first.start + first.length <= |data|
    ensures r == Finish(ParseAll(Pieces(data, first.start + first.length)))
  {
    hide *;
    var c, out: seq<NalUnit> := first, [];
    ghost var goal := ParseAll(Pieces(data, c.start + c.length));
    WithNothing(Pieces(data, c.start + c.length));
    while true
      invariant c.Code? && c.length >= 3 && c.start + c.length <= |data|
      invariant goal == With(out, Pieces(data, c.start + c.length))
      decreases |data| - c.start
    {
      var nalStart := c.start + c.length;
      var next := FindStartCode(data, nalStart);
      var nalEnd := if next.Code? then next.start else |data|;
      WithStep(data, nalStart, nalEnd, next, out);
      if nalEnd > nalStart {
        var nal := ParseNal(data[nalStart..nalEnd]);
        if nal.None? {
          FinishIs([]);
          return None;
        }
        out := out + [nal.value];
      }
      LaterIs(data, out, next);
      if next.NoCode? {
        FinishIs(out);
        return if out == [] then None else Some(out);
      }
      c := next;
    }
  }

  lemma FinishIs(out: seq<NalUnit>)
    ensures Finish(None) == None && Finish(Some(out)) == if out == [] then None else Some(out)
  {
  }

  lemma LaterIs(data: seq<byte>, out: seq<NalUnit>, next: Code)
    requires next.Code? ==> next.start + next.length <= |data|
    ensures Later(data, out, next) ==
      if next.NoCode? then Some(out) else With(out, Pieces(data, next.start + next.length))
  {
    hide With, Pieces;
  }

  lemma WithNothing(pieces: seq<seq<byte>>)
    ensures With([], pieces) == ParseAll(pieces)
  {
    var r := ParseAll(pieces);
    assert r.Some? ==> [] + r.value == r.value;
  }

  lemma WithStep(data: seq<byte>, nalStart: nat, nalEnd: nat, next: Code, out: seq<NalUnit>)
    requires nalStart <= |data| && next == First(data, nalStart)
    requires nalEnd == if next.Code? then next.start else |data|
    ensures nalStart <= nalEnd <= |data|
    ensures nalEnd == nalStart ==> With(out, Pieces(data, nalStart)) == Later(data, out, next)
    ensures nalEnd > nalStart && ParseNal(data[nalStart..nalEnd]) == None ==> With(out, Pieces(data, nalStart)) == None
    ensures nalEnd > nalStart && ParseNal(data[nalStart..nalEnd]).Some? ==>
      With(out, Pieces(data, nalStart)) == Later(data, out + [ParseNal(data[nalStart..nalEnd]).value], next)
  {
    PiecesOnce(data, nalStart);
    var rest := if next.Code? then Pieces(data, next.start + next.length) else [];
    var piece := data[nalStart..nalEnd];
    WithEnd(out);
    NonEmptyIs(piece, rest);
    hide Pieces, First, ParseNal, ParseAll, With, NonEmpty;
    if nalEnd > nalStart {
      WithPiece(out, piece, rest);
      if ParseNal(piece).Some? {
        WithEnd(out + [ParseNal(piece).value]);
      }
    }
  }

  lemma NonEmptyIs(piece: seq<byte>, rest: seq<seq<byte>>)
    ensures NonEmpty(piece) + rest == if piece == [] then rest else [piece] + rest
  {
    assert [] + rest == rest;
  }

  lemma WithEnd(out: seq<NalUnit>)
    ensures With(out, []) == Some(out)
  {
    assert out + [] == out;
  }

  lemma WithPiece(out: seq<NalUnit>, piece: seq<byte>, rest: seq<seq<byte>>)
    ensures match ParseNal(piece)
      case None => With(out, [piece] + rest) == None
      case Some(unit) => With(out, [piece] + rest) == With(out + [unit], rest)
  {
    hide ParseNal;
    assert ([piece] + rest)[0] == piece && ([piece] + rest)[1..] == rest;
    if ParseNal(piece).Some? && ParseAll(rest).Some? {
      var unit, units := ParseNal(piece).value, ParseAll(rest).value;
      assert out + ([unit] + units) == out + [unit] + units;
    }
  }

  // The units of the pieces behind the start code next, or none.
  function Later(data: seq<byte>, out: seq<NalUnit>, next: Code): Option<seq<NalUnit>>
    requires next.Code? ==> next.start + next.length <= |data|
  {
    if next.NoCode? then Some(out) else With(out, Pieces(data, next.start + next.length))
  }

  lemma PiecesOnce(data: seq<byte>, p: nat)
    requires p <= |data|
    ensures var next := First(data, p);
      Pieces(data, p) == if next.NoCode? then NonEmpty(data[p..|data|]) + []
        else NonEmpty(data[p..next.start]) + Pieces(data, next.start + next.length)
  {
    assert data[p..] == data[p..|data|];
  }

  // ---------- the round trip ----------

  // c stands at position p of data.
  ghost predicate At(data: seq<byte>, p: nat, c: seq<byte>)
  {
    p + |c| <= |data| && data[p..p + |c|] == c
  }

  ghost predicate CodeFree(x: seq<byte>)
  {
    forall i: nat :: !ShortCode(x, i)
  }

  // A stretch without a start code ends at the next framed one, or at the end of the data.
  lemma PieceEnds(data: seq<byte>, p: nat, x: seq<byte>)
    requires At(data, p, x) && CodeFree(x)
    requires p + |x| == |data| || At(data, p + |x|, StartCode)
    ensures First(data, p) == if p + |x| == |data| then NoCode else Code(p + |x|, 4)
  {
    var end := p + |x|;
    forall k | 0 <= k < |x|
      ensures data[p + k] == x[k]
    {
      assert data[p..end][k] == x[k];
    }
    if end < |data| {
      forall k | 0 <= k < 4
        ensures data[end + k] == StartCode[k]
      {
        assert data[end..end + 4][k] == StartCode[k];
      }
      assert LongCode(data, end);
    }
    forall i: nat | p <= i < end
      ensures !ShortCode(data, i) && !LongCode(data, i)
    {
      assert !ShortCode(x, i - p) && !ShortCode(x, i + 1 - p);
    }
    FirstUnique(data, p, if end == |data| then NoCode else Code(end, 4));
  }

  // What the splitter sees of a framed unit.
  function Seen(u: Payload): (s: seq<seq<byte>>)
  {
    var w := Nal(u);
    if Broken(u) && |w| >= 3 then NonEmpty(w[3..]) else [w]
  }

  function SeenAll(units: seq<Payload>): seq<seq<byte>>
  {
    if units == [] then [] else Seen(units[0]) + SeenAll(units[1..])
  }

  lemma SuffixCodeFree(x: seq<byte>, n: nat)
    requires n <= |x| && CodeFree(x)
    ensures CodeFree(x[n..])
  {
    forall i: nat
      ensures !ShortCode(x[n..], i)
    {
      assert !ShortCode(x, n + i);
    }
  }

  // The escaped payload behind its header byte.
  lemma NalShape(u: Payload)
    ensures if Broken(u) then |Nal(u)| >= 3 && ShortCode(Nal(u), 0) && CodeFree(Nal(u)[3..]) else CodeFree(Nal(u))
  {
    var e := EscapeFrom(0, u.rbsp);
    EscapeCorrect(u.rbsp);
    EscapeStart(u.rbsp);
    hide EscapeFrom;
    assert CodeFree(e) by {
      forall i: nat
        ensures !ShortCode(e, i)
      {
      }
    }
    var w := Nal(u);
    if Broken(u) {
      SuffixCodeFree(e, 2);
      assert w[3..] == e[2..];
    } else {
      forall i: nat
        ensures !ShortCode(w, i)
      {
        if i > 0 {
          assert !ShortCode(e, i - 1);
        }
      }
    }
  }

  lemma EscapeStart(rbsp: seq<byte>)
    ensures |rbsp| >= 2 ==> |EscapeFrom(0, rbsp)| >= 2 && EscapeFrom(0, rbsp)[..2] == rbsp[..2]
    ensures |rbsp| < 2 ==> EscapeFrom(0, rbsp) == rbsp
  {
    if |rbsp| >= 2 {
      assert EscapeFrom(0, rbsp) == [rbsp[0]] + EscapeFrom(ZerosAfter(0, rbsp[0]), rbsp[1..]);
      assert rbsp[1..][0] == rbsp[1];
    } else if |rbsp| == 1 {
      assert EscapeFrom(ZerosAfter(0, rbsp[0]), rbsp[1..]) == [];
    }
  }

  lemma AtSplit(data: seq<byte>, p: nat, a: seq<byte>, b: seq<byte>)
    requires At(data, p, a + b)
    ensures At(data, p, a) && At(data, p + |a|, b)
  {
    var w := data[p..p + |a + b|];
    assert w[..|a|] == data[p..p + |a|] && w[|a|..] == data[p + |a|..p + |a| + |b|];
  }

  lemma AtSuffix(data: seq<byte>, p: nat, x: seq<byte>, n: nat)
    requires At(data, p, x) && n <= |x|
    ensures At(data, p + n, x[n..])
  {
    assert x == x[..n] + x[n..];
    AtSplit(data, p, x[..n], x[n..]);
  }

  lemma {:induction false} PiecesOfFrame(data: seq<byte>, p: nat, units: seq<Payload>)
    requires |units| > 0 && At(data, p, Frame(units)) && p + |Frame(units)| == |data|
    ensures First(data, p) == Code(p, 4) && Pieces(data, p + 4) == SeenAll(units)
    decreases |units|
  {
    hide *;
    var u, rest := units[0], units[1..];
    var end := p + 4 + |Nal(u)|;
    FrameSplit(data, p, units);
    PrefixFirst(data, p);
    if rest == [] {
      assert Seen(u) + [] == Seen(u);
    } else {
      FrameStarts(data, end, rest);
      PiecesOfFrame(data, end, rest);
    }
    UnitPieces(data, p + 4, u);
  }

  // A frame falls into a start code, a unit and the frame of the others.
  lemma FrameSplit(data: seq<byte>, p: nat, units: seq<Payload>)
    requires |units| > 0 && At(data, p, Frame(units)) && p + |Frame(units)| == |data|
    ensures At(data, p, StartCode) && At(data, p + 4, Nal(units[0]))
    ensures var end := p + 4 + |Nal(units[0])|; At(data, end, Frame(units[1..])) && end + |Frame(units[1..])| == |data|
    ensures |units| == 1 ==> p + 4 + |Nal(units[0])| == |data| && SeenAll(units) == Seen(units[0]) + []
    ensures SeenAll(units) == Seen(units[0]) + SeenAll(units[1..])
  {
    hide *;
    FrameParts(units);
    AtSplit(data, p, StartCode + Nal(units[0]), Frame(units[1..]));
    AtSplit(data, p, StartCode, Nal(units[0]));
  }

  lemma FrameParts(units: seq<Payload>)
    requires |units| > 0
    ensures Frame(units) == StartCode + Nal(units[0]) + Frame(units[1..]) && |StartCode| == 4
    ensures SeenAll(units) == Seen(units[0]) + SeenAll(units[1..])
    ensures |units| == 1 ==> Frame(units[1..]) == [] && SeenAll(units[1..]) == []
  {
    hide Nal, Seen;
  }

  lemma PrefixFirst(data: seq<byte>, p: nat)
    requires At(data, p, StartCode)
    ensures p + 4 <= |data| && First(data, p) == Code(p, 4)
  {
    hide First;
    PieceEnds(data, p, []);
  }

  lemma FrameStarts(data: seq<byte>, p: nat, units: seq<Payload>)
    requires |units| > 0 && At(data, p, Frame(units))
    ensures At(data, p, StartCode) && |Frame(units)| >= 4
  {
    hide At, Nal;
    assert Frame(units) == StartCode + (Nal(units[0]) + Frame(units[1..]));
    AtSplit(data, p, StartCode, Nal(units[0]) + Frame(units[1..]));
  }

  // The pieces of one framed unit and of what follows it.
  lemma UnitPieces(data: seq<byte>, p: nat, u: Payload)
    requires At(data, p, Nal(u))
    requires p + |Nal(u)| == |data| || At(data, p + |Nal(u)|, StartCode)
    ensures var end := p + |Nal(u)|;
      Pieces(data, p) == Seen(u) + if end == |data| then [] else Pieces(data, end + 4)
  {
    var nal := Nal(u);
    NalShape(u);
    hide First, Pieces, At, CodeFree;
    if Broken(u) {
      BrokenFirst(data, p, nal);
      AtSuffix(data, p, nal, 3);
      StretchPieces(data, p + 3, nal[3..]);
    } else {
      StretchPieces(data, p, nal);
    }
  }

  lemma BrokenFirst(data: seq<byte>, p: nat, nal: seq<byte>)
    requires At(data, p, nal) && ShortCode(nal, 0)
    ensures First(data, p) == Code(p, 3) && Pieces(data, p) == Pieces(data, p + 3)
  {
    assert data[p] == data[p..p + |nal|][0] && data[p + 1] == data[p..p + |nal|][1]
      && data[p + 2] == data[p..p + |nal|][2];
    assert ShortCode(data, p);
    FirstUnique(data, p, Code(p, 3));
    assert data[p..p] == [];
    assert NonEmpty([]) + Pieces(data, p + 3) == Pieces(data, p + 3);
  }

  lemma StretchPieces(data: seq<byte>, p: nat, x: seq<byte>)
    requires At(data, p, x) && CodeFree(x)
    requires p + |x| == |data| || At(data, p + |x|, StartCode)
    ensures p + |x| == |data| || p + |x| + 4 <= |data|
    ensures Pieces(data, p) == NonEmpty(x) + if p + |x| == |data| then [] else Pieces(data, p + |x| + 4)
  {
    PieceEnds(data, p, x);
    if p + |x| == |data| {
      assert data[p..] == x;
      assert NonEmpty(x) + [] == NonEmpty(x);
    }
  }

  ghost predicate Sound(units: seq<Payload>)
  {
    forall i :: 0 <= i < |units| ==> !Broken(units[i])
  }

  function Unit(u: Payload): NalUnit
  {
    NalUnit(u.refIdc, u.typ, Nal(u), u.rbsp)
  }

  function Size(pieces: seq<seq<byte>>): nat
  {
    if pieces == [] then 0 else |pieces[0]| + Size(pieces[1..])
  }

  function Nals(units: seq<Payload>): (s: seq<seq<byte>>)
    ensures |s| == |units|
  {
    seq(|units|, i requires 0 <= i < |units| => Nal(units[i]))
  }

  function Units(units: seq<Payload>): (s: seq<NalUnit>)
    ensures |s| == |units|
  {
    seq(|units|, i requires 0 <= i < |units| => Unit(units[i]))
  }

  // A broken unit costs its three start code bytes.
  lemma {:induction false} SeenSize(units: seq<Payload>)
    ensures Size(SeenAll(units)) <= Size(Nals(units))
    ensures !Sound(units) ==> Size(SeenAll(units)) < Size(Nals(units))
    ensures Sound(units) ==> SeenAll(units) == Nals(units)
    decreases |units|
  {
    if units != [] {
      SeenSize(units[1..]);
      NalShape(units[0]);
      hide EscapeFrom;
      assert Nals(units)[1..] == Nals(units[1..]);
      var rest := SeenAll(units[1..]);
      if Broken(units[0]) {
        SizeOfNonEmpty(Nal(units[0])[3..], rest);
      } else {
        assert ([Nal(units[0])] + rest)[1..] == rest;
      }
    }
  }

  lemma SizeOfNonEmpty(x: seq<byte>, rest: seq<seq<byte>>)
    ensures Size(NonEmpty(x) + rest) == |x| + Size(rest)
  {
    if x == [] {
      assert NonEmpty(x) + rest == rest;
    } else {
      assert ([x] + rest)[1..] == rest;
    }
  }

  lemma ParseOne(u: Payload)
    ensures ParseNal(Nal(u)) == Some(Unit(u))
  {
    EscapeCorrect(u.rbsp);
    assert Nal(u)[1..] == EscapeFrom(0, u.rbsp);
  }

  lemma {:induction false} ParseNals(units: seq<Payload>)
    ensures ParseAll(Nals(units)) == Some(Units(units))
    decreases |units|
  {
    if units != [] {
      hide ParseNal;
      ParseOne(units[0]);
      ParseNals(units[1..]);
      assert Nals(units)[1..] == Nals(units[1..]);
      assert Units(units) == [Unit(units[0])] + Units(units[1..]);
    }
  }

  // Parsed units keep their raw bytes.
  lemma {:induction false} ParsedRaw(pieces: seq<seq<byte>>, units: seq<NalUnit>)
    requires ParseAll(pieces) == Some(units)
    ensures |units| == |pieces| && forall i :: 0 <= i < |pieces| ==> units[i].raw == pieces[i]
    decreases |pieces|
  {
    if pieces != [] {
      ParsedRaw(pieces[1..], units[1..]);
    }
  }

  // Framed NAL units split into themselves, for a stream of bounded size, exactly when no
  // unit has a zero header byte in front of a payload 00 01.
  lemma AnnexBRoundTrip(units: seq<Payload>)
    requires |units| > 0
    requires |Frame(units)| <= MaxStreamBytes
    ensures Split(Frame(units)) == Some(Units(units)) <==> Sound(units)
  {
    var data := Frame(units);
    assert data[0..|data|] == data;
    PiecesOfFrame(data, 0, units);
    SeenSize(units);
    ParseNals(units);
    hide First, Pieces, ParseAll, SeenAll, EscapeFrom, Frame;
    var pieces := SeenAll(units);
    if Split(data) == Some(Units(units)) {
      ParsedRaw(pieces, Units(units));
      assert pieces == Nals(units);
    }
  }

  lemma OneFrame(u: Payload)
    ensures |Frame([u])| <= 5 + |u.rbsp| + |u.rbsp| / 2
  {
    EscapedLength(0, u.rbsp);
    hide EscapeFrom;
    assert [u][1..] == [];
  }

  // A unit that does not come back: header byte zero in front of 00 01.
  lemma BrokenFrame()
    ensures var units := [Payload(0, 0, [0, 1])]; Split(Frame(units)) != Some(Units(units))
  {
    var units := [Payload(0, 0, [0, 1])];
    assert !Sound(units) by {
      assert Broken(units[0]);
    }
    assert |Frame(units)| <= MaxStreamBytes by {
      OneFrame(units[0]);
    }
    hide *;
    AnnexBRoundTrip(units);
  }
}
