// The packed CABAC engine. Its low word keeps codIOffset above bit 17, look-ahead bits
// below it, and under those one marker bit whose position says when to fetch two more bytes.
module CabacEngine {
  import opened BitMath
  import opened CabacTables
  import opened Options

  const CabacMask := 0x1_0000 - 1
  const Unit := 0x2_0000

  // low, rng and bytestream.
  datatype Engine = Engine(low: int, rng: int, pos: nat)

  // What every call leaves behind. The marker sits in the low 16 bits.
  ghost predicate Valid(e: Engine)
  {
    256 <= e.rng <= 510 && 0 < e.low < e.rng * Unit && e.low % 0x1_0000 != 0 && e.pos >= 2
  }

  // Two bytes, placed above bit 0. Missing bytes count as zero.
  function Fetch(buf: seq<byte>, pos: nat): (x: int)
    ensures 0 <= x <= 2 * CabacMask && x % 2 == 0
  {
    (if pos < |buf| then (buf[pos] as int) * 512 else 0) + (if pos + 1 < |buf| then (buf[pos + 1] as int) * 2 else 0)
  }

  function Advance(buf: seq<byte>, pos: nat): nat
  {
    if pos < |buf| then pos + 2 else pos
  }

  function Refill(buf: seq<byte>, e: Engine): Engine
  {
    Engine(e.low + Fetch(buf, e.pos) - CabacMask, e.rng, Advance(buf, e.pos))
  }

  // How far the marker has run past bit 16, looked up through low ^ (low - 1).
  function RefillShift(low: int): (i: int)
    requires 0 < low < 0x8000_0000 && 16 <= TrailingZeros32(low) <= 22
    ensures i == TrailingZeros32(low) - 16
  {
    MarkerLookup(low);
    7 - NormShift(Xor(low, low - 1) / 0x8000)
  }

  lemma MarkerLookup(low: int)
    requires 0 < low < 0x8000_0000 && 16 <= TrailingZeros32(low) <= 22
    ensures Xor(low, low - 1) / 0x8000 < 512
    ensures 7 - NormShift(Xor(low, low - 1) / 0x8000) == TrailingZeros32(low) - 16
  {
    XorPredecessor(low);
    MarkerRun(TrailingZeros32(low));
  }

  lemma MarkerRun(k: nat)
    requires 16 <= k <= 22
    ensures (Pow2(k + 1) - 1) / 0x8000 == Pow2(k - 14) - 1 < 512
    ensures 7 - NormShift(Pow2(k - 14) - 1) == k - 16
  {
    Pow2Small();
    Pow2Add(k - 14, 15);
    assert Pow2(15) == 0x8000 by { Pow2Add(8, 7); }
    match k {
      case 16 => case 17 => case 18 => case 19 => case 20 => case 21 => case 22 =>
    }
  }

  function Refill2(buf: seq<byte>, e: Engine): Engine
    requires 0 < e.low < 0x8000_0000 && 16 <= TrailingZeros32(e.low) <= 22
  {
    var i := RefillShift(e.low);
    Engine(e.low + (Fetch(buf, e.pos) - CabacMask) * Pow2(i), e.rng, Advance(buf, e.pos))
  }

  lemma Pow2Word()
    ensures Pow2(15) == 0x8000 && Pow2(16) == 0x1_0000 && Pow2(17) == Unit
  {
    Pow2Small();
    Pow2Add(8, 7);
    Pow2Add(8, 8);
    Pow2Add(8, 9);
  }

  lemma MarkerLow(low: nat)
    requires 0 < low < 0x8000_0000
    ensures low % 0x1_0000 != 0 <==> TrailingZeros32(low) <= 15
  {
    Pow2Word();
    TrailingZerosDivide(low, 16);
  }

  // Subtracting the most probable part of the interval does not touch the marker.
  lemma MarkerKept(low: nat, rng: nat)
    requires rng * Unit < low < 0x8000_0000 && TrailingZeros32(low) <= 15
    ensures TrailingZeros32(low - rng * Unit) == TrailingZeros32(low)
  {
    Pow2Word();
    TrailingZerosSubtract(low, rng, 17);
  }

  // Renormalisation cannot overflow, and moves the marker up by the shift.
  lemma RenormSafe(e: Engine)
    requires 6 <= e.rng <= 510 && 0 < e.low < e.rng * Unit && TrailingZeros32(e.low) <= 15
    ensures var shift := NormShift(e.rng); var w := Pow2(shift);
      && shift <= 6 && 256 <= e.rng * w <= 510 && 0 < e.low * w < e.rng * w * Unit
      && TrailingZeros32(e.low * w) == TrailingZeros32(e.low) + shift
  {
    NormShiftBounds(e.rng);
    var shift := NormShift(e.rng);
    var w := Pow2(shift);
    assert e.low * w < e.rng * Unit * w;
    MulAssociate(e.rng, Unit, w);
    MulAssociate(e.rng, w, Unit);
    TrailingZerosShift(e.low, shift);
  }

  // A refill puts a new marker i bits above bit 0 and keeps low inside the range: both low
  // and the shifted range are multiples of the bit the old marker occupied.
  lemma Refill2Safe(buf: seq<byte>, rng: nat, f: Engine, shift: nat)
    requires f.pos >= 2 && shift <= 6 && f.rng == rng * Pow2(shift) && 256 <= f.rng <= 510 && 0 < f.low < f.rng * Unit
    requires 16 <= TrailingZeros32(f.low) <= 15 + shift
    ensures Valid(Refill2(buf, f))
  {
    Pow2Small();
    Pow2Word();
    var i := TrailingZeros32(f.low) - 16;
    TrailingZerosDivide(f.low, 16 + i);
    Pow2Add(16, i);
    Pow2Add(shift - i, i);
    MulAssociate(rng, Pow2(shift - i), Pow2(i));
    var multiple := rng * Pow2(shift - i);
    assert f.rng == multiple * Pow2(i);
    var x := Fetch(buf, f.pos);
    var a := f.low / Pow2(16 + i);
    assert f.low == a * Pow2(16 + i) by {
      Quotient(f.low, Pow2(16 + i));
    }
    RefillInterval(f.low, f.rng, multiple, i, a, x);
  }

  lemma RefillInterval(low: nat, rng: nat, multiple: nat, i: nat, a: nat, x: int)
    requires i <= 5 && rng <= 510 && rng == multiple * Pow2(i)
    requires 0 < low < rng * Unit && low == a * (0x1_0000 * Pow2(i))
    requires 0 <= x <= 2 * CabacMask && x % 2 == 0
    ensures var r := low + (x - CabacMask) * Pow2(i); 0 < r < rng * Unit && r % 0x1_0000 != 0
  {
    hide Pow2;
    RefillRange(low, rng, multiple, Pow2(i), a, x);
    RefillOdd(low, a, i, x);
  }

  lemma RefillRange(low: nat, rng: nat, multiple: nat, w: nat, a: nat, x: int)
    requires w > 0 && rng == multiple * w && low == a * (0x1_0000 * w) && 0 < low < rng * Unit
    requires 0 <= x <= 2 * CabacMask && x % 2 == 0
    ensures 0 < a && 0 < low + (x - CabacMask) * w < rng * Unit
  {
    RefillWhole(low, rng, multiple, w, a);
    RefillInside(low, rng, multiple, w, a, x);
  }

  lemma RefillInside(low: nat, rng: nat, multiple: nat, w: nat, a: nat, x: int)
    requires w > 0 && rng == multiple * w && low == a * (0x1_0000 * w) && 0 < a < 2 * multiple
    requires 0 <= x <= 2 * CabacMask && x % 2 == 0
    ensures 0 < low + (x - CabacMask) * w < rng * Unit
  {
    RefillSum(low, a, x - CabacMask, w);
    UnitShifted(multiple, w, rng);
    MarkerBetween(a, multiple, x);
    MulBetween(0x1_0000 * a + (x - CabacMask), multiple * Unit, w);
  }

  lemma RefillOdd(low: nat, a: nat, i: nat, x: int)
    requires i <= 5 && low == a * (0x1_0000 * Pow2(i)) && 0 < a && 0 <= x <= 2 * CabacMask && x % 2 == 0
    requires 0 < low + (x - CabacMask) * Pow2(i) < 510 * Unit
    ensures (low + (x - CabacMask) * Pow2(i)) % 0x1_0000 != 0
  {
    hide Pow2;
    MarkerBetween(a, a, x);
    var t := 0x1_0000 * a + (x - CabacMask);
    assert t * Pow2(i) == low + (x - CabacMask) * Pow2(i) by {
      RefillSum(low, a, x - CabacMask, Pow2(i));
    }
    OddShifted(t, i);
  }

  lemma MarkerBetween(a: nat, multiple: nat, x: int)
    requires 0 < a < 2 * multiple && 0 <= x <= 2 * CabacMask && x % 2 == 0
    ensures 0 < 0x1_0000 * a + (x - CabacMask) < multiple * Unit
    ensures (0x1_0000 * a + (x - CabacMask)) % 2 == 1
  {
  }

  lemma UnitShifted(multiple: nat, w: nat, rng: nat)
    requires rng == multiple * w
    ensures multiple * Unit * w == rng * Unit
  {
    MulAssociate(multiple, Unit, w);
    MulAssociate(multiple, w, Unit);
  }

  lemma RefillWhole(low: nat, rng: nat, multiple: nat, w: nat, a: nat)
    requires w > 0 && rng == multiple * w && low < rng * Unit
    requires 0 < low && low == a * (0x1_0000 * w)
    ensures 0 < a < 2 * multiple
  {
    var d := 0x1_0000 * w;
    assert a == 0 ==> a * d == 0;
    assert rng * Unit == (2 * multiple) * d by {
      MulAssociate(multiple, w, Unit);
      MulAssociate(2 * multiple, 0x1_0000, w);
    }
    MulCancel(a, 2 * multiple, d);
  }

  lemma RefillSum(low: nat, a: nat, y: int, w: nat)
    requires low == a * (0x1_0000 * w)
    ensures (0x1_0000 * a + y) * w == low + y * w
  {
    MulDistribute(0x1_0000 * a, y, w);
    MulAssociate(a, 0x1_0000, w);
  }

  lemma OddShifted(t: nat, i: nat)
    requires t % 2 == 1 && i <= 5 && t * Pow2(i) < 0x8000_0000
    ensures t * Pow2(i) % 0x1_0000 != 0
  {
    TrailingZerosShift(t, i);
    MarkerLow(t * Pow2(i));
  }

  lemma TableBounds(q: nat, s: nat)
    requires q < 4 && s <= 125
    ensures 6 <= LpsRange(128 * q + s) <= 128 + 48 * q
    ensures 0 <= MlpsState(128 + s) <= 125 && 0 <= MlpsState(127 - s) <= 125
  {
    hide LpsRange, MlpsState, RangeTabLps, TransIdxLps, TransIdxMps;
    PackedRangeTable(q, s);
    LpsRangeBounds(s / 2, q);
    PackedMpsTransition(s);
    PackedLpsTransition(s);
  }

  // The engine after the interval has been chosen and before renormalisation, the next
  // context state, and the bin. The complement of the state stands for a least probable symbol.
  function Choose(e: Engine, s: byte): (r: (Engine, byte, bit))
    requires Valid(e) && s <= 125
    ensures 6 <= r.0.rng <= 510 && 0 < r.0.low < r.0.rng * Unit
    ensures TrailingZeros32(r.0.low) == TrailingZeros32(e.low) <= 15
    ensures r.0.pos == e.pos && r.1 <= 125
  {
    var q := e.rng / 64 % 4;
    TableBounds(q, s);
    var rangeLps := LpsRange(128 * q + s);
    var lps := (e.rng - rangeLps) * Unit < e.low;
    var t: int := if lps then -(s as int) - 1 else s;
    (Split(e, rangeLps), MlpsState(128 + t), t % 2)
  }

  // The part of the interval that holds low.
  function Split(e: Engine, rangeLps: int): (f: Engine)
    requires Valid(e) && 6 <= rangeLps <= 128 + 48 * (e.rng / 64 % 4)
    ensures 6 <= f.rng <= 510 && 0 < f.low < f.rng * Unit && f.pos == e.pos
    ensures TrailingZeros32(f.low) == TrailingZeros32(e.low) <= 15
  {
    MarkerLow(e.low);
    var rng := e.rng - rangeLps;
    if rng * Unit < e.low then
      MarkerKept(e.low, rng);
      Engine(e.low - rng * Unit, rangeLps, e.pos)
    else
      Engine(e.low, rng, e.pos)
  }

  // Choose, with its intermediate values named.
  lemma ChooseParts(e: Engine, s: byte, rangeLps: int)
    requires Valid(e) && s <= 125 && rangeLps == LpsRange(128 * (e.rng / 64 % 4) + s)
    ensures 6 <= rangeLps <= 272 && e.rng - rangeLps >= 16
    ensures var lps := (e.rng - rangeLps) * Unit < e.low; var t: int := if lps then -(s as int) - 1 else s;
      && 0 <= MlpsState(128 + t) <= 125
      && Choose(e, s) ==
         (if lps then Engine(e.low - (e.rng - rangeLps) * Unit, rangeLps, e.pos)
          else Engine(e.low, e.rng - rangeLps, e.pos),
          MlpsState(128 + t), t % 2)
  {
    hide LpsRange, MlpsState, TrailingZeros32;
    TableBounds(e.rng / 64 % 4, s);
  }

  // Shift until the range is back at 256 or more, and refill once the marker has left the
  // low 16 bits.
  function Renorm(buf: seq<byte>, e: Engine): (r: Engine)
    requires 6 <= e.rng <= 510 && 0 < e.low < e.rng * Unit && TrailingZeros32(e.low) <= 15 && e.pos >= 2
    ensures Valid(r)
  {
    RenormSafe(e);
    var shift := NormShift(e.rng);
    var f := Engine(e.low * Pow2(shift), e.rng * Pow2(shift), e.pos);
    if f.low % 0x1_0000 == 0 then
      MarkerLow(f.low);
      Refill2Safe(buf, e.rng, f, shift);
      Refill2(buf, f)
    else f
  }

  // Renormalisation with its intermediate values named.
  lemma RenormParts(buf: seq<byte>, e: Engine)
    requires 6 <= e.rng <= 510 && 0 < e.low < e.rng * Unit && TrailingZeros32(e.low) <= 15 && e.pos >= 2
    ensures var shift := NormShift(e.rng); var low, rng, k :=
      e.low * Pow2(shift), e.rng * Pow2(shift), TrailingZeros32(e.low) + shift;
      && shift <= 6 && 256 <= rng <= 510 && 0 < low < 0x4000_0000 && TrailingZeros32(low) == k
      && (low % 0x1_0000 == 0 <==> 16 <= k)
      && Renorm(buf, e) == if 16 <= k
        then Engine(low + (Fetch(buf, e.pos) - CabacMask) * Pow2(k - 16), rng, Advance(buf, e.pos))
        else Engine(low, rng, e.pos)
  {
    hide NormShift, TrailingZeros32, Pow2, Fetch, Advance, RefillShift;
    RenormSafe(e);
    MarkerLow(e.low * Pow2(NormShift(e.rng)));
  }

  function Decision(buf: seq<byte>, e: Engine, s: byte): (r: (Engine, byte, bit))
    requires Valid(e) && s <= 125
    ensures Valid(r.0) && r.1 <= 125
  {
    var (f, next, bin) := Choose(e, s);
    (Renorm(buf, f), next, bin)
  }

  // Fetching two bytes once low is a multiple of the mask leaves it odd and below the same bound.
  lemma RefillSafe(low: nat, bound: nat, x: int)
    requires low % 0x1_0000 == 0 && bound % 0x1_0000 == 0 && 0 < low < bound
    requires 0 <= x <= 2 * CabacMask && x % 2 == 0
    ensures 0 < low + x - CabacMask < bound && (low + x - CabacMask) % 2 == 1
  {
    var a, b := low / 0x1_0000, bound / 0x1_0000;
    assert low == 0x1_0000 * a && bound == 0x1_0000 * b;
  }

  function Bypass(buf: seq<byte>, e: Engine): (r: (Engine, bit))
    requires Valid(e)
    ensures Valid(r.0)
  {
    var d := Engine(2 * e.low, e.rng, e.pos);
    var f := if d.low % 0x1_0000 == 0 then RefillSafe(d.low, 2 * e.rng * Unit, Fetch(buf, e.pos)); Refill(buf, d)
      else d;
    if f.low < f.rng * Unit then (f, 0) else (f.(low := f.low - f.rng * Unit), 1)
  }

  // val for a bin of 1 and -val for a bin of 0, in an int32.
  function BypassSign(buf: seq<byte>, e: Engine, val: int): (r: (Engine, int))
    requires Valid(e)
    ensures Valid(r.0)
  {
    var (f, bin) := Bypass(buf, e);
    (f, if bin == 1 then val else Wrap32(-val))
  }

  // Zero to go on, or the number of bytes fetched.
  function Terminate(buf: seq<byte>, e: Engine): (r: (Engine, nat))
    requires Valid(e)
    ensures r.1 == 0 ==> Valid(r.0)
  {
    var d := e.(rng := e.rng - 2);
    if d.low < d.rng * Unit then
      var f := if d.rng < 0x100 then Engine(2 * d.low, 2 * d.rng, d.pos) else d;
      (if f.low % 0x1_0000 == 0 then RefillSafe(f.low, f.rng * Unit, Fetch(buf, f.pos)); Refill(buf, f) else f, 0)
    else
      (d, d.pos)
  }

  // Initialisation fetches two bytes, or three when the third one sits at an odd address.
  function Init(buf: seq<byte>, aligned: bool): (r: Option<Engine>)
    ensures r.Some? ==> Valid(r.value)
  {
    if |buf| < 2 || (!aligned && |buf| < 3) then None
    else
      var low := (buf[0] as int) * 0x4_0000 + (buf[1] as int) * 0x400;
      var e := if aligned then Engine(low + 0x200, 0x1fe, 2) else Engine(low + (buf[2] as int) * 4 + 2, 0x1fe, 3);
      if e.rng * Unit < e.low then None else Some(e)
  }

  // A buffer of two bytes starts as an aligned one; for others even says whether the third byte
  // lies at an even address.
  predicate StartAligned(buf: seq<byte>, even: bool)
  {
    |buf| <= 2 || even
  }

  function Start(buf: seq<byte>, even: bool): (r: Option<Engine>)
    ensures r.Some? ==> Valid(r.value)
  {
    Init(buf, StartAligned(buf, even))
  }

  // Where the bytes of an I_PCM macroblock begin.
  function PcmStart(e: Engine): int
  {
    e.pos - (if e.low % 2 != 0 then 1 else 0) - (if e.low % 0x200 != 0 then 1 else 0)
  }

  // The bytes of an I_PCM macroblock, the buffer behind them, and the engine restarted there.
  function ReadIntraPcm(buf: seq<byte>, e: Engine, n: int, even: bool): Option<(seq<byte>, seq<byte>, Engine)>
  {
    var start := PcmStart(e);
    if n < 0 || start < 0 || start > |buf| || n > |buf| - start then None
    else
      var rest := buf[start + n..];
      match Start(rest, even)
      case None => None
      case Some(f) => Some((buf[start..start + n], rest, f))
  }

  // One call of the decoder. The calls a parser makes depend on what it has decoded; any such
  // run is some sequence of calls.
  datatype Call = GetDecision(ctx: nat) | GetBypass | GetBypassSign(val: int) | GetTerminate

  ghost predicate ValidStates(states: seq<byte>)
  {
    forall i :: 0 <= i < |states| ==> states[i] <= 125
  }

  ghost predicate Answerable(calls: seq<Call>, contexts: nat)
  {
    forall i :: 0 <= i < |calls| && calls[i].GetDecision? ==> calls[i].ctx < contexts
  }

  // What a run returns, up to and including the first terminate bin of 1, and the context
  // states it ends with.
  function Run(buf: seq<byte>, e: Engine, states: seq<byte>, calls: seq<Call>): (r: (seq<int>, seq<byte>))
    requires Valid(e) && ValidStates(states) && Answerable(calls, |states|)
    ensures |r.1| == |states| && ValidStates(r.1)
    decreases |calls|
  {
    if calls == [] then ([], states)
    else match calls[0]
      case GetDecision(ctx) =>
        var (f, next, bin) := Decision(buf, e, states[ctx]);
        var (outs, final) := Run(buf, f, states[ctx := next], calls[1..]);
        ([bin] + outs, final)
      case GetBypass =>
        var (f, bin) := Bypass(buf, e);
        var (outs, final) := Run(buf, f, states, calls[1..]);
        ([bin] + outs, final)
      case GetBypassSign(val) =>
        var (f, signed) := BypassSign(buf, e, val);
        var (outs, final) := Run(buf, f, states, calls[1..]);
        ([signed] + outs, final)
      case GetTerminate =>
        var (f, bytes) := Terminate(buf, e);
        if bytes != 0 then ([1], states)
        else
          var (outs, final) := Run(buf, f, states, calls[1..]);
          ([0] + outs, final)
  }
}
