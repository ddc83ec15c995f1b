// The syntax loops that run on the engine, each once as the generic source writes it and
// once with the decisions inlined. Both are proved to compute the same function, so they end
// with the same result, low, rng, byte position and context states from every engine state.
module CabacLoops {
  import opened BitMath
  import opened CabacTables
  import opened CabacEngine
  import opened CabacDecoder
  import opened Options

  // The engine with its 1024 context states.
  datatype Dec = Dec(e: Engine, states: seq<byte>)

  ghost predicate ValidDec(d: Dec)
  {
    Valid(d.e) && ValidStates(d.states) && |d.states| == 1024
  }

  function GetBin(buf: seq<byte>, d: Dec, idx: nat): (r: (Dec, bit))
    requires ValidDec(d) && idx < 1024
    ensures ValidDec(r.0)
  {
    var (e, next, bin) := Decision(buf, d.e, d.states[idx]);
    (Dec(e, d.states[idx := next]), bin)
  }

  function BypassBin(buf: seq<byte>, d: Dec): (r: (Dec, bit))
    requires ValidDec(d)
    ensures ValidDec(r.0)
  {
    var (e, bin) := Bypass(buf, d.e);
    (Dec(e, d.states), bin)
  }

  function SignBin(buf: seq<byte>, d: Dec, val: int): (r: (Dec, int))
    requires ValidDec(d)
    ensures ValidDec(r.0)
  {
    var (e, signed) := BypassSign(buf, d.e, val);
    (Dec(e, d.states), signed)
  }

  // ---------- what the loops compute ----------

  // prev_intra4x4_pred_mode_flag and rem_intra4x4_pred_mode against the predicted mode.
  function IntraPredMode(buf: seq<byte>, d: Dec, predMode: int): (r: (Dec, int))
    requires ValidDec(d)
    ensures ValidDec(r.0)
  {
    var (d0, flag) := GetBin(buf, d, 68);
    if flag != 0 then (d0, predMode)
    else
      var (d1, b0) := GetBin(buf, d0, 69);
      var (d2, b1) := GetBin(buf, d1, 69);
      var (d3, b2) := GetBin(buf, d2, 69);
      var mode := b0 + 2 * b1 + 4 * b2;
      (d3, if mode >= predMode then mode + 1 else mode)
  }

  const SigCoeffOffsetDc := [0, 0, 1, 1, 2, 2, 2]

  // The significance scan from position last on: the positions found and where it stopped.
  // A last-coefficient bin of 1 stops it at limit + 1.
  function Scan(buf: seq<byte>, d: Dec, sig: nat, lastBase: nat, limit: nat, chroma422: bool, last: nat,
                found: seq<byte>)
    : (r: (Dec, seq<byte>, nat))
    requires ValidDec(d) && last <= limit < 64 && sig + limit <= 1024 && lastBase + limit <= 1024
    requires chroma422 ==> limit <= 7
    ensures ValidDec(r.0)
    decreases limit - last
  {
    if last == limit then (d, found, last)
    else
      var off := if chroma422 then SigCoeffOffsetDc[last] else last;
      var (d1, significant) := GetBin(buf, d, sig + off);
      if significant == 0 then Scan(buf, d1, sig, lastBase, limit, chroma422, last + 1, found)
      else
        var (d2, final) := GetBin(buf, d1, lastBase + off);
        if final != 0 then (d2, found + [last], limit + 1)
        else Scan(buf, d2, sig, lastBase, limit, chroma422, last + 1, found + [last])
  }

  // ctxBase for small neighbouring differences, one or two more for larger ones.
  function MvdContext(ctxBase: nat, amvd: int): nat
  {
    ctxBase + (if amvd < 3 then 0 else 1) + (if amvd < 33 then 0 else 1)
  }

  // The truncated unary prefix of mvd, from a value of at least 1.
  function MvdRun(buf: seq<byte>, d: Dec, ctx: nat, mvd: nat): (r: (Dec, nat))
    requires ValidDec(d) && 1 <= mvd <= 9 && ctx + (if mvd < 4 then 4 - mvd else 0) < 1024
    ensures ValidDec(r.0) && mvd <= r.1 <= 9
    decreases 9 - mvd
  {
    if mvd == 9 then (d, mvd)
    else
      var (d1, bin) := GetBin(buf, d, ctx);
      if bin == 0 then (d1, mvd) else MvdRun(buf, d1, if mvd < 4 then ctx + 1 else ctx, mvd + 1)
  }

  // The Exp-Golomb suffix of order 3; more than 21 further escapes are an error.
  function MvdTail(buf: seq<byte>, d: Dec, mvd: nat, k: nat): (r: (Dec, Option<nat>))
    requires ValidDec(d) && k <= 24
    ensures ValidDec(r.0)
    decreases 24 - k
  {
    var (d1, bin) := BypassBin(buf, d);
    if bin == 0 then
      var (d2, value) := MvdBits(buf, d1, mvd, k);
      (d2, Some(value))
    else if k == 24 then (d1, None)
    else MvdTail(buf, d1, mvd + Pow2(k), k + 1)
  }

  // bin << k
  function ShiftBin(bin: bit, k: nat): nat
  {
    if bin == 1 then Pow2(k) else 0
  }

  function MvdBits(buf: seq<byte>, d: Dec, mvd: nat, k: nat): (r: (Dec, nat))
    requires ValidDec(d)
    ensures ValidDec(r.0)
    decreases k
  {
    if k == 0 then (d, mvd)
    else
      var (d1, bin) := BypassBin(buf, d);
      MvdBits(buf, d1, mvd + ShiftBin(bin, k - 1), k - 1)
  }

  // The magnitude of a difference whose first bin was 1.
  function MvdMagnitude(buf: seq<byte>, d: Dec, ctxBase: nat): (r: (Dec, Option<nat>))
    requires ValidDec(d) && ctxBase + 7 <= 1024
    ensures ValidDec(r.0)
  {
    var (d1, prefix) := MvdRun(buf, d, ctxBase + 3, 1);
    if prefix < 9 then (d1, Some(prefix)) else MvdTail(buf, d1, 9, 3)
  }

  // A motion vector difference and the clipped magnitude kept for the contexts of neighbours.
  function Mvd(buf: seq<byte>, d: Dec, ctxBase: nat, amvd: int): (r: (Dec, Option<(int, int)>))
    requires ValidDec(d) && ctxBase + 7 <= 1024
    ensures ValidDec(r.0)
  {
    var (d0, first) := GetBin(buf, d, MvdContext(ctxBase, amvd));
    if first == 0 then (d0, Some((0, 0)))
    else
      var (d1, magnitude) := MvdMagnitude(buf, d0, ctxBase);
      match magnitude
      case None => (d1, None)
      case Some(mvd) => MvdSign(buf, d1, mvd)
  }

  function MvdSign(buf: seq<byte>, d: Dec, mvd: nat): (r: (Dec, Option<(int, int)>))
    requires ValidDec(d)
    ensures ValidDec(r.0)
  {
    var (d1, signed) := SignBin(buf, d, -(mvd as int));
    (d1, Some((signed, if mvd >= 70 then 70 else mvd as int)))
  }

  // Where a residual block keeps its level contexts, and how its levels are stored.
  datatype LevelParams = LevelParams(absCtxBase: nat, isDc: bool, chroma422: bool, narrow: bool)

  const CoeffAbsLevel1Context := [1, 2, 3, 4, 0, 0, 0, 0]
  const Transition0 := [1, 2, 3, 3, 4, 5, 6, 7]
  const Transition1 := [4, 4, 4, 4, 5, 6, 7, 7]

  function Gt1Context(p: LevelParams): (contexts: seq<nat>)
    ensures |contexts| == 8 && forall i :: 0 <= i < 8 ==> contexts[i] < 10
  {
    if p.isDc && p.chroma422 then [5, 5, 5, 5, 6, 7, 8, 8] else [5, 5, 5, 5, 6, 7, 8, 9]
  }

  // The unary length of an escape, cut at 23, and its bits below a leading one.
  function EscapeLength(buf: seq<byte>, d: Dec, j: nat): (r: (Dec, nat))
    requires ValidDec(d) && j <= 23
    ensures ValidDec(r.0) && r.1 <= 23
    decreases 23 - j
  {
    var (d1, bin) := BypassBin(buf, d);
    if bin == 1 && j < 23 then EscapeLength(buf, d1, j + 1) else (d1, j)
  }

  function EscapeBits(buf: seq<byte>, d: Dec, j: nat, coeffAbs: nat): (r: (Dec, nat))
    requires ValidDec(d)
    ensures ValidDec(r.0)
    decreases j
  {
    if j == 0 then (d, coeffAbs)
    else
      var (d1, bin) := BypassBin(buf, d);
      EscapeBits(buf, d1, j - 1, 2 * coeffAbs + bin)
  }

  function Escape(buf: seq<byte>, d: Dec): (r: (Dec, nat))
    requires ValidDec(d)
    ensures ValidDec(r.0)
  {
    var (d1, j) := EscapeLength(buf, d, 0);
    var (d2, coeffAbs) := EscapeBits(buf, d1, j, 1);
    (d2, coeffAbs + 14)
  }

  // coeff_abs_level_minus1 from a magnitude of at least 2 on.
  function AbsRun(buf: seq<byte>, d: Dec, ctx: nat, coeffAbs: nat): (r: (Dec, nat))
    requires ValidDec(d) && ctx < 1024 && coeffAbs <= 15
    ensures ValidDec(r.0)
    decreases 15 - coeffAbs
  {
    if coeffAbs == 15 then Escape(buf, d)
    else
      var (d1, bin) := GetBin(buf, d, ctx);
      if bin == 0 then (d1, coeffAbs) else AbsRun(buf, d1, ctx, coeffAbs + 1)
  }

  function LevelAbs(buf: seq<byte>, d: Dec, p: LevelParams, node: nat): (r: (Dec, nat, nat))
    requires ValidDec(d) && node < 8 && p.absCtxBase + 10 <= 1024
    ensures ValidDec(r.0) && r.2 < 8
  {
    var (d1, bin) := GetBin(buf, d, p.absCtxBase + CoeffAbsLevel1Context[node]);
    if bin == 0 then (d1, 1, Transition0[node])
    else
      var (d2, coeffAbs) := AbsRun(buf, d1, p.absCtxBase + Gt1Context(p)[node], 2);
      (d2, coeffAbs, Transition1[node])
  }

  lemma LevelAbsParts(buf: seq<byte>, d: Dec, p: LevelParams, node: nat)
    requires ValidDec(d) && node < 8 && p.absCtxBase + 10 <= 1024
    ensures var (d1, bin) := GetBin(buf, d, p.absCtxBase + CoeffAbsLevel1Context[node]);
      LevelAbs(buf, d, p, node) ==
        if bin == 0 then (d1, 1, Transition0[node])
        else
          var (d2, coeffAbs) := AbsRun(buf, d1, p.absCtxBase + Gt1Context(p)[node], 2);
          (d2, coeffAbs, Transition1[node])
  {
  }

  // A signed level times its quantiser, rounded, in int32 arithmetic.
  function Dequantised(level: int, q: nat): int
  {
    Wrap32(Wrap32(level * Wrap32(q)) + 32) / 64
  }

  function Stored(p: LevelParams, value: int): int
  {
    if p.narrow then Wrap16(value) else value
  }

  // The levels of the coefficients found, from the last position back, into the block.
  function Levels(buf: seq<byte>, d: Dec, p: LevelParams, scantable: seq<byte>, qmul: seq<nat>, found: seq<byte>,
                  count: nat, block: seq<int>, node: nat): (r: (Dec, seq<int>, bool))
    requires ValidDec(d) && node < 8 && p.absCtxBase + 10 <= 1024 && count <= |found|
    requires forall i :: 0 <= i < count ==> found[i] < |scantable|
    ensures ValidDec(r.0) && |r.1| == |block|
    decreases count
  {
    if count == 0 then (d, block, true)
    else
      var scanPos := scantable[found[count - 1]];
      if scanPos >= |block| || (!p.isDc && scanPos >= |qmul|) then (d, block, false)
      else
        var (d1, coeffAbs, next) := LevelAbs(buf, d, p, node);
        var (d2, signed) := SignBin(buf, d1, -(coeffAbs as int));
        var value := Stored(p, if p.isDc then signed else Dequantised(signed, qmul[scanPos]));
        Levels(buf, d2, p, scantable, qmul, found, count - 1, block[scanPos := value], next)
  }

  // Signing the quantiser is quantising the sign: the generic loop's shortcut for a level of 1.
  lemma SignScales(buf: seq<byte>, d: Dec, q: nat)
    requires ValidDec(d)
    ensures SignBin(buf, d, Wrap32(-Wrap32(q))).0 == SignBin(buf, d, -1).0
    ensures Wrap32(SignBin(buf, d, Wrap32(-Wrap32(q))).1 + 32) / 64 == Dequantised(SignBin(buf, d, -1).1, q)
  {
    var level := SignBin(buf, d, -1).1;
    assert level == 1 || level == -1;
    assert level * Wrap32(q) == if level == 1 then Wrap32(q) else -Wrap32(q);
  }

  // One unfolding of the levels.
  lemma LevelsStep(buf: seq<byte>, d: Dec, p: LevelParams, scantable: seq<byte>, qmul: seq<nat>, found: seq<byte>,
                   count: nat, block: seq<int>, node: nat)
    requires ValidDec(d) && node < 8 && p.absCtxBase + 10 <= 1024 && count <= |found|
    requires forall i :: 0 <= i < count ==> found[i] < |scantable|
    ensures Levels(buf, d, p, scantable, qmul, found, count, block, node) ==
      if count == 0 then (d, block, true)
      else
        var scanPos := scantable[found[count - 1]];
        if scanPos >= |block| || (!p.isDc && scanPos >= |qmul|) then (d, block, false)
        else
          var (d1, coeffAbs, next) := LevelAbs(buf, d, p, node);
          var (d2, signed) := SignBin(buf, d1, -(coeffAbs as int));
          var value := Stored(p, if p.isDc then signed else Dequantised(signed, qmul[scanPos]));
          Levels(buf, d2, p, scantable, qmul, found, count - 1, block[scanPos := value], next)
  {
  }

  // One unfolding of the scan.
  lemma ScanStep(buf: seq<byte>, d: Dec, sig: nat, lastBase: nat, limit: nat, chroma422: bool, last: nat,
                 found: seq<byte>)
    requires ValidDec(d) && last < limit < 64 && sig + limit <= 1024 && lastBase + limit <= 1024
    requires chroma422 ==> limit <= 7
    ensures 0 <= (if chroma422 then SigCoeffOffsetDc[last] else last) < limit
    ensures var off := if chroma422 then SigCoeffOffsetDc[last] else last;
      var (d1, significant) := GetBin(buf, d, sig + off);
      Scan(buf, d, sig, lastBase, limit, chroma422, last, found) ==
        if significant == 0 then Scan(buf, d1, sig, lastBase, limit, chroma422, last + 1, found)
        else
          var (d2, final) := GetBin(buf, d1, lastBase + off);
          if final != 0 then (d2, found + [last], limit + 1)
          else Scan(buf, d2, sig, lastBase, limit, chroma422, last + 1, found + [last])
  {
  }

  lemma ScanDone(buf: seq<byte>, d: Dec, sig: nat, lastBase: nat, limit: nat, chroma422: bool, found: seq<byte>)
    requires ValidDec(d) && limit < 64 && sig + limit <= 1024 && lastBase + limit <= 1024
    requires chroma422 ==> limit <= 7
    ensures Scan(buf, d, sig, lastBase, limit, chroma422, limit, found) == (d, found, limit)
  {
  }

  class CabacSyntaxDecoder {
    const cabac: CabacContext
    const state: array<byte>

    constructor (cabac: CabacContext, state: array<byte>)
      ensures this.cabac == cabac && this.state == state
    {
      this.cabac, this.state := cabac, state;
    }

    ghost function Now(): Dec
      reads cabac, state
    {
      Dec(cabac.State(), state[..])
    }

    // get: one decision with leading and trailing zero counts.
    method Get(idx: nat) returns (bin: int32)
      requires ValidDec(Now()) && idx < 1024
      modifies cabac`low, cabac`rng, cabac`bytestream, state
      ensures (Now(), bin as int) == GetBin(cabac.buf, old(Now()), idx)
    {
      hide Renorm, Choose, TrailingZeros32;
      cabac.low, cabac.rng, cabac.bytestream, bin := DecideByCounts(cabac.low, cabac.rng, cabac.bytestream, idx);
    }

    method GetBypass() returns (bin: int32)
      requires ValidDec(Now())
      modifies cabac`low, cabac`bytestream
      ensures (Now(), bin as int) == BypassBin(cabac.buf, old(Now()))
    {
      bin := cabac.GetCabacBypass();
    }

    // bypassSign, with the complement of the mask where the primitive adds the range back.
    method GetBypassSign(val: int32) returns (signed: int32)
      requires ValidDec(Now())
      modifies cabac`low, cabac`bytestream
      ensures (Now(), signed as int) == SignBin(cabac.buf, old(Now()), val as int)
    {
      cabac.low := cabac.low + cabac.low;
      if cabac.low % 0x1_0000 == 0 {
        cabac.Refill();
      }
      var range := cabac.rng * 0x2_0000;
      var mask: int32 := if cabac.low - range < 0 then -1 else 0;
      cabac.low := cabac.low - Masked(range, -1 - mask);
      signed := Wrap32((if mask == -1 then -1 - val else val) as int - mask as int) as int32;
    }

    // ---------- intra prediction modes ----------

    method DecodeIntraPredMode(predMode: int) returns (mode: int)
      requires ValidDec(Now())
      modifies cabac`low, cabac`rng, cabac`bytestream, state
      ensures (Now(), mode) == IntraPredMode(cabac.buf, old(Now()), predMode)
    {
      hide GetBin;
      var bin := Get(68);
      if bin != 0 {
        return predMode;
      }
      var b0 := Get(69);
      var b1 := Get(69);
      var b2 := Get(69);
      mode := b0 as int + 2 * b1 as int + 4 * b2 as int;
      if mode >= predMode {
        mode := mode + 1;
      }
    }

    // The second half of an inlined decision that refills through the shared engine.
    method RenormShared(low: int32, rng: int32) returns (low': int32, rng': int32)
      requires 6 <= rng <= 510 && 0 < low as int < rng as int * Unit && TrailingZeros32(low as int) <= 15
      requires cabac.bytestream >= 2
      modifies cabac`low, cabac`rng, cabac`bytestream
      ensures Engine(low' as int, rng' as int, cabac.bytestream)
           == Renorm(cabac.buf, Engine(low as int, rng as int, old(cabac.bytestream)))
    {
      hide NormShift, TrailingZeros32, Pow2, RefillShift, Fetch;
      RenormSafe(Engine(low as int, rng as int, cabac.bytestream));
      var shift := NormShift(rng as int);
      var w := ShiftWeight(shift);
      low', rng' := low * w, rng * w;
      if low' % 0x1_0000 == 0 {
        MarkerLow(low' as int);
        cabac.low := low';
        cabac.rng := rng';
        cabac.Refill2();
        low' := cabac.low;
      }
    }

    // A decision inlined on local copies of low and rng.
    method DecideShared(low: int32, rng: int32, ctx: nat) returns (low': int32, rng': int32, bin: int32)
      requires ValidDec(Dec(Engine(low as int, rng as int, cabac.bytestream), state[..])) && ctx < 1024
      modifies cabac`low, cabac`rng, cabac`bytestream, state
      ensures (Dec(Engine(low' as int, rng' as int, cabac.bytestream), state[..]), bin as int)
           == GetBin(cabac.buf, Dec(Engine(low as int, rng as int, old(cabac.bytestream)), old(state[..])), ctx)
    {
      hide Renorm, Choose, TrailingZeros32;
      var next: byte;
      low', rng', next, bin := SelectInterval(low, rng, cabac.bytestream, state[ctx]);
      state[ctx] := next;
      low', rng' := RenormShared(low', rng');
    }

    // A decision inlined on local copies of low, rng and bytestream.
    method DecideLocal(low: int32, rng: int32, bytestream: nat, ctx: nat)
      returns (low': int32, rng': int32, bytestream': nat, bin: int32)
      requires ValidDec(Dec(Engine(low as int, rng as int, bytestream), state[..])) && ctx < 1024
      modifies state
      ensures (Dec(Engine(low' as int, rng' as int, bytestream'), state[..]), bin as int)
           == GetBin(cabac.buf, Dec(Engine(low as int, rng as int, bytestream), old(state[..])), ctx)
    {
      hide Renorm, Choose, TrailingZeros32;
      var next: byte;
      low', rng', next, bin := SelectInterval(low, rng, bytestream, state[ctx]);
      state[ctx] := next;
      low', rng', bytestream' := RenormLocally(low', rng', bytestream, cabac.buf);
    }

    // The same with zero counts in place of the tables.
    method DecideByCounts(low: int32, rng: int32, bytestream: nat, ctx: nat)
      returns (low': int32, rng': int32, bytestream': nat, bin: int32)
      requires ValidDec(Dec(Engine(low as int, rng as int, bytestream), state[..])) && ctx < 1024
      modifies state
      ensures (Dec(Engine(low' as int, rng' as int, bytestream'), state[..]), bin as int)
           == GetBin(cabac.buf, Dec(Engine(low as int, rng as int, bytestream), old(state[..])), ctx)
    {
      hide Renorm, Choose, TrailingZeros32;
      var next: byte;
      low', rng', next, bin := SelectInterval(low, rng, bytestream, state[ctx]);
      state[ctx] := next;
      low', rng', bytestream' := RenormByCounts(low', rng', bytestream, cabac.buf);
    }

    method DecodeIntraPredModeInlined(predMode: int) returns (result: int)
      requires ValidDec(Now())
      modifies cabac`low, cabac`rng, cabac`bytestream, state
      ensures (Now(), result) == IntraPredMode(cabac.buf, old(Now()), predMode)
    {
      hide Renorm, Choose, TrailingZeros32;
      var low, rng := cabac.low, cabac.rng;
      ghost var d := Now();
      var ctx := 68;
      var mode := 0;
      ghost var b0, b1: bit := 0, 0;
      for step := 0 to 4
        invariant ctx == if step == 0 then 68 else 69
        invariant d == Dec(Engine(low as int, rng as int, cabac.bytestream), state[..]) && ValidDec(d)
        invariant step == 0 ==> d == old(Now()) && mode == 0
        invariant step >= 1 ==> GetBin(cabac.buf, old(Now()), 68).1 == 0
        invariant step == 1 ==> d == GetBin(cabac.buf, old(Now()), 68).0 && mode == 0
        invariant step == 2 ==>
          (d, mode) == GetBin(cabac.buf, GetBin(cabac.buf, old(Now()), 68).0, 69)
        invariant step == 3 ==>
          var (d1, b0) := GetBin(cabac.buf, GetBin(cabac.buf, old(Now()), 68).0, 69);
          var (d2, b1) := GetBin(cabac.buf, d1, 69);
          d == d2 && mode == b0 + 2 * b1
        invariant step == 4 ==>
          var (d1, b0) := GetBin(cabac.buf, GetBin(cabac.buf, old(Now()), 68).0, 69);
          var (d2, b1) := GetBin(cabac.buf, d1, 69);
          var (d3, b2) := GetBin(cabac.buf, d2, 69);
          d == d3 && mode == b0 + 2 * b1 + 4 * b2
      {
        var bin;
        low, rng, bin := DecideShared(low, rng, ctx);
        assert (Dec(Engine(low as int, rng as int, cabac.bytestream), state[..]), bin as int) ==
          GetBin(cabac.buf, d, ctx);
        d := Dec(Engine(low as int, rng as int, cabac.bytestream), state[..]);
        if step == 0 {
          if bin != 0 {
            cabac.low, cabac.rng := low, rng;
            return predMode;
          }
          ctx := 69;
        } else {
          mode := mode + bin as int * (if step == 1 then 1 else if step == 2 then 2 else 4);
        }
      }
      cabac.low, cabac.rng := low, rng;
      result := if mode >= predMode then mode + 1 else mode;
    }

    // ---------- significance maps ----------

    method ScanSource(index: array<byte>, sig: nat, lastBase: nat, maxCoeff: nat, chroma422: bool)
      returns (coeffCount: nat, last: nat)
      requires ValidDec(Now()) && index.Length == 64 && index != state
      requires 0 < maxCoeff <= 64 && sig + maxCoeff <= 1025 && lastBase + maxCoeff <= 1025
        && (chroma422 ==> maxCoeff <= 8)
      modifies cabac`low, cabac`rng, cabac`bytestream, state, index
      ensures coeffCount < 64
      ensures (Now(), index[..coeffCount], last)
           == Scan(cabac.buf, old(Now()), sig, lastBase, maxCoeff - 1, chroma422, 0, [])
    {
      hide GetBin, Scan;
      coeffCount, last := 0, 0;
      while last < maxCoeff - 1
        invariant last <= maxCoeff - 1 && coeffCount <= last
        invariant ValidDec(Now())
        invariant Scan(cabac.buf, old(Now()), sig, lastBase, maxCoeff - 1, chroma422, 0, [])
               == Scan(cabac.buf, Now(), sig, lastBase, maxCoeff - 1, chroma422, last, index[..coeffCount])
      {
        ghost var found := index[..coeffCount];
        ScanStep(cabac.buf, Now(), sig, lastBase, maxCoeff - 1, chroma422, last, found);
        var off := if chroma422 then SigCoeffOffsetDc[last] else last;
        var significant := Get(sig + off);
        if significant != 0 {
          index[coeffCount] := last;
          coeffCount := coeffCount + 1;
          assert index[..coeffCount] == found + [last];
          var final := Get(lastBase + off);
          if final != 0 {
            last := maxCoeff;
            break;
          }
        }
        last := last + 1;
      }
      if last < maxCoeff {
        ScanDone(cabac.buf, Now(), sig, lastBase, maxCoeff - 1, chroma422, index[..coeffCount]);
      }
    }

    // The scan of a 4x4 block, with every decision inlined.
    method Significance4x4Inlined(index: array<byte>, sig: nat, lastBase: nat) returns (coeffCount: nat, last: nat)
      requires ValidDec(Now()) && index.Length == 64 && index != state
      requires sig + 15 <= 1024 && lastBase + 15 <= 1024
      modifies cabac`low, cabac`rng, cabac`bytestream, state, index
      ensures coeffCount < 64
      ensures (Now(), index[..coeffCount], last) == Scan(cabac.buf, old(Now()), sig, lastBase, 15, false, 0, [])
    {
      hide GetBin, Scan;
      var low, rng, bytestream := cabac.low, cabac.rng, cabac.bytestream;
      ghost var d := Now();
      ghost var goal := Scan(cabac.buf, d, sig, lastBase, 15, false, 0, []);
      coeffCount, last := 0, 0;
      while last < 15
        invariant last <= 15 && coeffCount <= last
        invariant d == Dec(Engine(low as int, rng as int, bytestream), state[..]) && ValidDec(d)
        invariant goal == Scan(cabac.buf, d, sig, lastBase, 15, false, last, index[..coeffCount])
      {
        ghost var found := index[..coeffCount];
        ScanStep(cabac.buf, d, sig, lastBase, 15, false, last, found);
        var bin;
        low, rng, bytestream, bin := DecideLocal(low, rng, bytestream, sig + last);
        d := GetBin(cabac.buf, d, sig + last).0;
        if bin == 0 {
          last := last + 1;
          continue;
        }
        index[coeffCount] := last;
        coeffCount := coeffCount + 1;
        assert index[..coeffCount] == found + [last];
        low, rng, bytestream, bin := DecideLocal(low, rng, bytestream, lastBase + last);
        d := GetBin(cabac.buf, d, lastBase + last).0;
        if bin != 0 {
          last := 16;
          break;
        }
        last := last + 1;
      }
      cabac.low, cabac.rng, cabac.bytestream := low, rng, bytestream;
      if last == 15 {
        ScanDone(cabac.buf, d, sig, lastBase, 15, false, index[..coeffCount]);
      }
    }

    // The scan of the fifteen AC positions, with every decision inlined.
    method SignificanceAc15Inlined(index: array<byte>, sig: nat, lastBase: nat) returns (coeffCount: nat, last: nat)
      requires ValidDec(Now()) && index.Length == 64 && index != state
      requires sig + 14 <= 1024 && lastBase + 14 <= 1024
      modifies cabac`low, cabac`rng, cabac`bytestream, state, index
      ensures coeffCount < 64
      ensures (Now(), index[..coeffCount], last) == Scan(cabac.buf, old(Now()), sig, lastBase, 14, false, 0, [])
    {
      hide GetBin, Scan;
      var low, rng, bytestream := cabac.low, cabac.rng, cabac.bytestream;
      ghost var d := Now();
      ghost var goal := Scan(cabac.buf, d, sig, lastBase, 14, false, 0, []);
      coeffCount, last := 0, 0;
      while last < 14
        invariant last <= 14 && coeffCount <= last
        invariant d == Dec(Engine(low as int, rng as int, bytestream), state[..]) && ValidDec(d)
        invariant goal == Scan(cabac.buf, d, sig, lastBase, 14, false, last, index[..coeffCount])
      {
        ghost var found := index[..coeffCount];
        ScanStep(cabac.buf, d, sig, lastBase, 14, false, last, found);
        var bin;
        low, rng, bytestream, bin := DecideLocal(low, rng, bytestream, sig + last);
        d := GetBin(cabac.buf, d, sig + last).0;
        if bin == 0 {
          last := last + 1;
          continue;
        }
        index[coeffCount] := last;
        coeffCount := coeffCount + 1;
        assert index[..coeffCount] == found + [last];
        low, rng, bytestream, bin := DecideLocal(low, rng, bytestream, lastBase + last);
        d := GetBin(cabac.buf, d, lastBase + last).0;
        if bin != 0 {
          last := 15;
          break;
        }
        last := last + 1;
      }
      cabac.low, cabac.rng, cabac.bytestream := low, rng, bytestream;
      if last == 14 {
        ScanDone(cabac.buf, d, sig, lastBase, 14, false, index[..coeffCount]);
      }
    }

    // The scan of any other block, refilling through the shared engine.
    method SignificanceInlined(index: array<byte>, sig: nat, lastBase: nat, maxCoeff: nat, chroma422: bool)
      returns (coeffCount: nat, last: nat)
      requires ValidDec(Now()) && index.Length == 64 && index != state
      requires 0 < maxCoeff <= 64 && sig + maxCoeff <= 1025 && lastBase + maxCoeff <= 1025
        && (chroma422 ==> maxCoeff <= 8)
      modifies cabac`low, cabac`rng, cabac`bytestream, state, index
      ensures coeffCount < 64
      ensures (Now(), index[..coeffCount], last)
           == Scan(cabac.buf, old(Now()), sig, lastBase, maxCoeff - 1, chroma422, 0, [])
    {
      hide GetBin, Scan;
      var low, rng := cabac.low, cabac.rng;
      ghost var d := Now();
      ghost var goal := Scan(cabac.buf, d, sig, lastBase, maxCoeff - 1, chroma422, 0, []);
      coeffCount, last := 0, 0;
      while last < maxCoeff - 1
        invariant last <= maxCoeff - 1 && coeffCount <= last
        invariant d == Dec(Engine(low as int, rng as int, cabac.bytestream), state[..]) && ValidDec(d)
        invariant goal == Scan(cabac.buf, d, sig, lastBase, maxCoeff - 1, chroma422, last, index[..coeffCount])
      {
        ghost var found := index[..coeffCount];
        ScanStep(cabac.buf, d, sig, lastBase, maxCoeff - 1, chroma422, last, found);
        var off := if chroma422 then SigCoeffOffsetDc[last] else last;
        var bin;
        low, rng, bin := DecideShared(low, rng, sig + off);
        d := GetBin(cabac.buf, d, sig + off).0;
        if bin == 0 {
          last := last + 1;
          continue;
        }
        index[coeffCount] := last;
        coeffCount := coeffCount + 1;
        assert index[..coeffCount] == found + [last];
        low, rng, bin := DecideShared(low, rng, lastBase + off);
        d := GetBin(cabac.buf, d, lastBase + off).0;
        if bin != 0 {
          last := maxCoeff;
          break;
        }
        last := last + 1;
      }
      cabac.low, cabac.rng := low, rng;
      if last == maxCoeff - 1 {
        ScanDone(cabac.buf, d, sig, lastBase, maxCoeff - 1, chroma422, index[..coeffCount]);
      }
    }

    // ---------- motion vector differences ----------

    method DecodeMvdSource(ctxBase: nat, amvd: int) returns (ok: bool, value: int32, mvda: int)
      requires ValidDec(Now()) && ctxBase + 7 <= 1024
      modifies cabac`low, cabac`rng, cabac`bytestream, state
      ensures (Now(), if ok then Some((value as int, mvda)) else None) == Mvd(cabac.buf, old(Now()), ctxBase, amvd)
    {
      hide GetBin, BypassSign, MvdTail, MvdRun;
      var first := Get(MvdContext(ctxBase, amvd));
      if first == 0 {
        return true, 0, 0;
      }
      var mvd := MvdPrefix(ctxBase);
      ok, mvda := true, mvd;
      if mvd >= 9 {
        ok, mvd := MvdEscape();
        if !ok {
          return false, 0, 0;
        }
        mvda := if mvd >= 70 then 70 else mvd;
      }
      value := GetBypassSign(-(mvd as int) as int32);
    }

    method MvdPrefix(ctxBase: nat) returns (mvd: nat)
      requires ValidDec(Now()) && ctxBase + 7 <= 1024
      modifies cabac`low, cabac`rng, cabac`bytestream, state
      ensures (Now(), mvd) == MvdRun(cabac.buf, old(Now()), ctxBase + 3, 1)
    {
      hide GetBin;
      mvd := 1;
      var ctx := ctxBase + 3;
      while mvd < 9
        invariant 1 <= mvd <= 9 && ctx == ctxBase + (if mvd < 4 then mvd + 2 else 6)
        invariant ValidDec(Now())
        invariant MvdRun(cabac.buf, old(Now()), ctxBase + 3, 1) == MvdRun(cabac.buf, Now(), ctx, mvd)
      {
        var bin := Get(ctx);
        if bin == 0 {
          return;
        }
        if mvd < 4 {
          ctx := ctx + 1;
        }
        mvd := mvd + 1;
      }
    }

    // The bypass-coded tail shared by both forms.
    method MvdEscape() returns (ok: bool, mvd: nat)
      requires ValidDec(Now())
      modifies cabac`low, cabac`bytestream
      ensures (Now(), if ok then Some(mvd) else None) == MvdTail(cabac.buf, old(Now()), 9, 3)
      ensures ok ==> mvd < 0x400_0000
    {
      hide BypassBin;
      var k := 3;
      mvd := 9;
      Pow2Small();
      ghost var goal := MvdTail(cabac.buf, Now(), mvd, k);
      var bin := GetBypass();
      while bin != 0
        invariant 3 <= k <= 24 && mvd == Pow2(k) + 1
        invariant ValidDec(Now())
        invariant goal ==
          if bin == 0 then var (d, value) := MvdBits(cabac.buf, Now(), mvd, k); (d, Some(value))
          else if k == 24 then (Now(), None)
          else MvdTail(cabac.buf, Now(), mvd + Pow2(k), k + 1)
        decreases 24 - k, bin
      {
        mvd := mvd + Pow2(k);
        k := k + 1;
        if k > 24 {
          return false, 0;
        }
        bin := GetBypass();
      }
      ok := true;
      mvd := MvdLowBits(mvd, k);
    }

    method MvdLowBits(start: nat, top: nat) returns (mvd: nat)
      requires ValidDec(Now()) && top <= 24 && start == Pow2(top) + 1
      modifies cabac`low, cabac`bytestream
      ensures (Now(), mvd) == MvdBits(cabac.buf, old(Now()), start, top)
      ensures mvd < 0x400_0000
    {
      hide BypassBin;
      var k: nat := top;
      mvd := start;
      while k > 0
        invariant k <= top && ValidDec(Now())
        invariant mvd + Pow2(k) <= start + Pow2(top)
        invariant MvdBits(cabac.buf, old(Now()), start, top) == MvdBits(cabac.buf, Now(), mvd, k)
      {
        k := k - 1;
        var bin := GetBypass();
        mvd := mvd + ShiftBin(bin as int, k);
      }
      assert Pow2(24) == 0x100_0000 by { Pow2Word(); Pow2Add(16, 8); Pow2Small(); }
      Pow2Monotone(top, 24);
    }

    method DecodeMvdInlined(ctxBase: nat, amvd: int) returns (ok: bool, value: int32, mvda: int)
      requires ValidDec(Now()) && ctxBase + 7 <= 1024
      modifies cabac`low, cabac`rng, cabac`bytestream, state
      ensures (Now(), if ok then Some((value as int, mvda)) else None) == Mvd(cabac.buf, old(Now()), ctxBase, amvd)
    {
      hide GetBin, MvdTail, BypassSign;
      var low, rng := cabac.low, cabac.rng;
      var ctx := MvdContext(ctxBase, amvd);
      var mvd := 0;
      ghost var d := Now();
      var go := true;
      while go
        invariant 0 <= mvd <= 9 && ValidDec(d)
        invariant ctx == if mvd == 0 then MvdContext(ctxBase, amvd) else ctxBase + (if mvd < 4 then mvd + 2 else 6)
        invariant mvd == 9 ==> !go
        invariant d == Dec(Engine(low as int, rng as int, cabac.bytestream), state[..])
        invariant mvd == 0 && go ==> d == old(Now())
        invariant mvd == 0 && !go ==> GetBin(cabac.buf, old(Now()), ctx) == (d, 0)
        invariant mvd > 0 ==>
          var (d0, first) := GetBin(cabac.buf, old(Now()), MvdContext(ctxBase, amvd));
          first == 1 && MvdRun(cabac.buf, d0, ctxBase + 3, 1) == if go then MvdRun(cabac.buf, d, ctx, mvd) else (d, mvd)
        decreases go, 9 - mvd
      {
        var bin;
        low, rng, bin := DecideShared(low, rng, ctx);
        assert (Dec(Engine(low as int, rng as int, cabac.bytestream), state[..]), bin as int) ==
          GetBin(cabac.buf, d, ctx);
        d := Dec(Engine(low as int, rng as int, cabac.bytestream), state[..]);
        if bin == 0 {
          go := false;
        } else if mvd == 0 {
          mvd := 1;
          ctx := ctxBase + 3;
        } else if mvd >= 8 {
          mvd := 9;
          go := false;
        } else {
          if mvd < 4 {
            ctx := ctx + 1;
          }
          mvd := mvd + 1;
        }
      }
      if mvd == 0 {
        cabac.low, cabac.rng := low, rng;
        return true, 0, 0;
      }
      ok, mvda := true, mvd;
      if mvd >= 9 {
        cabac.low, cabac.rng := low, rng;
        ok, mvd := MvdEscape();
        if !ok {
          return false, 0, 0;
        }
        mvda := if mvd >= 70 then 70 else mvd;
        low, rng := cabac.low, cabac.rng;
      }
      value := SignInlined(low, rng, -(mvd as int) as int32);
    }

    // The sign bin with low and rng still in local copies.
    method SignInlined(low: int32, rng: int32, val: int32) returns (signed: int32)
      requires Valid(Engine(low as int, rng as int, cabac.bytestream))
      modifies cabac`low, cabac`rng, cabac`bytestream
      ensures (cabac.State(), signed as int)
           == BypassSign(cabac.buf, Engine(low as int, rng as int, old(cabac.bytestream)), val as int)
    {
      var l := low + low;
      if l % 0x1_0000 == 0 {
        cabac.low := l;
        cabac.rng := rng;
        cabac.Refill();
        l := cabac.low;
      }
      var range := rng * 0x2_0000;
      var mask: int32 := if l - range < 0 then -1 else 0;
      l := l - Masked(range, -1 - mask);
      signed := Wrap32((if mask == -1 then -1 - val else val) as int - mask as int) as int32;
      cabac.low, cabac.rng := l, rng;
    }

    // ---------- coefficient levels ----------

    method DecodeLevelsSource(p: LevelParams, scantable: seq<byte>, qmul: seq<nat>, index: array<byte>, count: nat,
                              block: array<int>)
      returns (ok: bool)
      requires ValidDec(Now()) && p.absCtxBase + 10 <= 1024 && count <= index.Length
      requires index != state && block.Length <= 0x1_0000
      requires forall i :: 0 <= i < count ==> index[i] < |scantable|
      modifies cabac`low, cabac`rng, cabac`bytestream, state, block
      ensures (Now(), block[..], ok)
           == Levels(cabac.buf, old(Now()), p, scantable, qmul, old(index[..count]), count, old(block[..]), 0)
    {
      hide GetBin, BypassSign, LevelAbs, Dequantised, Levels, Wrap32;
      var nodeCtx: nat := 0;
      var left: nat := count;
      ghost var found := index[..count];
      while left > 0
        invariant left <= count && nodeCtx < 8 && ValidDec(Now())
        invariant index[..count] == found
        invariant Levels(cabac.buf, old(Now()), p, scantable, qmul, found, count, old(block[..]), 0)
               == Levels(cabac.buf, Now(), p, scantable, qmul, found, left, block[..], nodeCtx)
      {
        LevelsStep(cabac.buf, Now(), p, scantable, qmul, found, left, block[..], nodeCtx);
        var scanPos := scantable[index[left - 1]];
        if scanPos >= block.Length || (!p.isDc && scanPos >= |qmul|) {
          return false;
        }
        left := left - 1;
        ghost var d, b := Now(), block[..];
        var ctx: nat := p.absCtxBase + CoeffAbsLevel1Context[nodeCtx];
        var bin := Get(ctx);
        if bin == 0 {
          assert LevelAbs(cabac.buf, d, p, nodeCtx) ==
            (Now(), 1, Transition0[nodeCtx]) by { LevelAbsParts(cabac.buf, d, p, nodeCtx); }
          nodeCtx := Transition0[nodeCtx];
          if p.isDc {
            var signed := GetBypassSign(-1);
            block[scanPos] := Stored(p, signed as int);
          } else {
            var q := Wrap32(qmul[scanPos]);
            SignScales(cabac.buf, Now(), qmul[scanPos]);
            var signed := GetBypassSign(Wrap32(-q) as int32);
            block[scanPos] := Stored(p, Wrap32(signed as int + 32) / 64);
          }
        } else {
          ghost var d1 := Now();
          ctx := p.absCtxBase + Gt1Context(p)[nodeCtx];
          var coeffAbs := LevelRun(ctx);
          assert LevelAbs(cabac.buf, d, p, nodeCtx) ==
            (Now(), coeffAbs, Transition1[nodeCtx]) by { LevelAbsParts(cabac.buf, d, p, nodeCtx); }
          nodeCtx := Transition1[nodeCtx];
          var signed := GetBypassSign(-(coeffAbs as int) as int32);
          block[scanPos] := Stored(p, if p.isDc then signed as int else Dequantised(signed as int, qmul[scanPos]));
        }
      }
      LevelsStep(cabac.buf, Now(), p, scantable, qmul, found, left, block[..], nodeCtx);
      ok := true;
    }

    // A magnitude of at least 2, as the generic loop reads it.
    method LevelRun(ctx: nat) returns (coeffAbs: nat)
      requires ValidDec(Now()) && ctx < 1024
      modifies cabac`low, cabac`rng, cabac`bytestream, state
      ensures (Now(), coeffAbs) == AbsRun(cabac.buf, old(Now()), ctx, 2)
      ensures coeffAbs < 0x100_0010
    {
      hide GetBin;
      coeffAbs := 2;
      var go := true;
      while coeffAbs < 15 && go
        invariant 2 <= coeffAbs <= 15 && ValidDec(Now())
        invariant AbsRun(cabac.buf, old(Now()), ctx, 2)
               == if go then AbsRun(cabac.buf, Now(), ctx, coeffAbs) else (Now(), coeffAbs)
        invariant !go ==> coeffAbs < 15
        decreases 15 - coeffAbs, go
      {
        var bin := Get(ctx);
        if bin == 0 {
          go := false;
        } else {
          coeffAbs := coeffAbs + 1;
        }
      }
      if coeffAbs >= 15 {
        coeffAbs := LevelEscape();
      }
    }

    // The bypass-coded tail of a magnitude of 15 or more, shared by both forms.
    method LevelEscape() returns (coeffAbs: nat)
      requires ValidDec(Now())
      modifies cabac`low, cabac`bytestream
      ensures (Now(), coeffAbs) == Escape(cabac.buf, old(Now()))
      ensures coeffAbs < 0x100_0010
    {
      hide BypassBin;
      var j: nat := 0;
      var bin := GetBypass();
      while bin != 0 && j < 23
        invariant j <= 23 && ValidDec(Now())
        invariant EscapeLength(cabac.buf, old(Now()), 0)
               == if bin != 0 && j < 23 then EscapeLength(cabac.buf, Now(), j + 1) else (Now(), j)
        decreases 23 - j, bin
      {
        j := j + 1;
        bin := GetBypass();
      }
      coeffAbs := LevelLowBits(j);
      coeffAbs := coeffAbs + 14;
    }

    method LevelLowBits(top: nat) returns (coeffAbs: nat)
      requires ValidDec(Now()) && top <= 23
      modifies cabac`low, cabac`bytestream
      ensures (Now(), coeffAbs) == EscapeBits(cabac.buf, old(Now()), top, 1)
      ensures coeffAbs < 0x100_0000
    {
      hide BypassBin;
      var j: nat := top;
      coeffAbs := 1;
      Pow2Small();
      while j > 0
        invariant j <= top && ValidDec(Now()) && coeffAbs < Pow2(top - j + 1)
        invariant EscapeBits(cabac.buf, old(Now()), top, 1) == EscapeBits(cabac.buf, Now(), j, coeffAbs)
      {
        j := j - 1;
        var bin := GetBypass();
        coeffAbs := coeffAbs + (coeffAbs + bin as int);
      }
      Pow2Monotone(top + 1, 24);
      assert Pow2(24) == 0x100_0000 by { Pow2Word(); Pow2Add(16, 8); }
    }

    method DecodeLevelsInlined(p: LevelParams, scantable: seq<byte>, qmul: seq<nat>, index: array<byte>, count: nat,
                               block: array<int>)
      returns (ok: bool)
      requires ValidDec(Now()) && p.absCtxBase + 10 <= 1024 && count <= index.Length
      requires index != state && block.Length <= 0x1_0000
      requires forall i :: 0 <= i < count ==> index[i] < |scantable|
      modifies cabac`low, cabac`rng, cabac`bytestream, state, block
      ensures (Now(), block[..], ok)
           == Levels(cabac.buf, old(Now()), p, scantable, qmul, old(index[..count]), count, old(block[..]), 0)
    {
      hide GetBin, BypassSign, LevelAbs, Dequantised, Levels, Valid;
      var low, rng, bytestream := cabac.low, cabac.rng, cabac.bytestream;
      var nodeCtx: nat := 0;
      var left: nat := count;
      ghost var found := index[..count];
      ghost var d := Now();
      while left > 0
        invariant left <= count && nodeCtx < 8
        invariant d == Dec(Engine(low as int, rng as int, bytestream), state[..]) && ValidDec(d)
        invariant index[..count] == found
        invariant Levels(cabac.buf, old(Now()), p, scantable, qmul, found, count, old(block[..]), 0)
               == Levels(cabac.buf, d, p, scantable, qmul, found, left, block[..], nodeCtx)
      {
        LevelsStep(cabac.buf, d, p, scantable, qmul, found, left, block[..], nodeCtx);
        var scanPos := scantable[index[left - 1]];
        if scanPos >= block.Length || (!p.isDc && scanPos >= |qmul|) {
          cabac.low, cabac.rng, cabac.bytestream := low, rng, bytestream;
          return false;
        }
        left := left - 1;
        ghost var goal := LevelAbs(cabac.buf, d, p, nodeCtx);
        var coeffAbs, value;
        low, rng, bytestream, coeffAbs, nodeCtx := LevelInlined(p, low, rng, bytestream, nodeCtx);
        low, rng, bytestream, value := SignLocally(low, rng, bytestream, -(coeffAbs as int) as int32);
        block[scanPos] := Stored(p, if p.isDc then value as int else Dequantised(value as int, qmul[scanPos]));
        d := SignBin(cabac.buf, goal.0, -(goal.1 as int)).0;
      }
      cabac.low, cabac.rng, cabac.bytestream := low, rng, bytestream;
      LevelsStep(cabac.buf, d, p, scantable, qmul, found, left, block[..], nodeCtx);
      ok := true;
    }

    // One magnitude with every decision inlined by zero counts.
    method LevelInlined(p: LevelParams, low: int32, rng: int32, bytestream: nat, node: nat)
      returns (low': int32, rng': int32, bytestream': nat, coeffAbs: nat, nodeCtx: nat)
      requires ValidDec(Dec(Engine(low as int, rng as int, bytestream), state[..])) && node < 8
        && p.absCtxBase + 10 <= 1024
      modifies cabac`low, cabac`rng, cabac`bytestream, state
      ensures (Dec(Engine(low' as int, rng' as int, bytestream'), state[..]), coeffAbs, nodeCtx)
           == LevelAbs(cabac.buf, Dec(Engine(low as int, rng as int, bytestream), old(state[..])), p, node)
      ensures coeffAbs < 0x100_0010
    {
      hide GetBin, Valid, Escape;
      low', rng', bytestream', nodeCtx := low, rng, bytestream, node;
      ghost var d := Dec(Engine(low as int, rng as int, bytestream), state[..]);
      ghost var goal := LevelAbs(cabac.buf, d, p, node);
      LevelAbsParts(cabac.buf, d, p, node);
      var ctx: nat := p.absCtxBase + CoeffAbsLevel1Context[nodeCtx];
      coeffAbs := 1;
      while true
        invariant 1 <= coeffAbs < 15 && ctx < 1024
        invariant d == Dec(Engine(low' as int, rng' as int, bytestream'), state[..]) && ValidDec(d)
        invariant coeffAbs == 1 ==>
          d.e == Engine(low as int, rng as int, bytestream) && d.states == old(state[..]) && nodeCtx == node
          && ctx == p.absCtxBase + CoeffAbsLevel1Context[node]
        invariant coeffAbs > 1 ==>
          nodeCtx == Transition1[node]
            && goal == (AbsRun(cabac.buf, d, ctx, coeffAbs).0, AbsRun(cabac.buf, d, ctx, coeffAbs).1, nodeCtx)
        decreases 15 - coeffAbs
      {
        var bin;
        low', rng', bytestream', bin := DecideByCounts(low', rng', bytestream', ctx);
        d := GetBin(cabac.buf, d, ctx).0;
        if bin == 0 {
          if coeffAbs == 1 {
            nodeCtx := Transition0[nodeCtx];
          }
          return;
        }
        coeffAbs := coeffAbs + 1;
        if coeffAbs == 2 {
          ctx := p.absCtxBase + Gt1Context(p)[nodeCtx];
          nodeCtx := Transition1[nodeCtx];
        }
        if coeffAbs >= 15 {
          cabac.low, cabac.rng, cabac.bytestream := low', rng', bytestream';
          coeffAbs := LevelEscape();
          low', rng', bytestream' := cabac.low, cabac.rng, cabac.bytestream;
          return;
        }
      }
    }

    // The sign bin with its own refill on local copies.
    method SignLocally(low: int32, rng: int32, bytestream: nat, val: int32)
      returns (low': int32, rng': int32, bytestream': nat, signed: int32)
      requires Valid(Engine(low as int, rng as int, bytestream))
      ensures (Engine(low' as int, rng' as int, bytestream'), signed as int)
           == BypassSign(cabac.buf, Engine(low as int, rng as int, bytestream), val as int)
    {
      low', rng', bytestream' := low + low, rng, bytestream;
      if low' % 0x1_0000 == 0 {
        var x: int32 := 0;
        if bytestream < |cabac.buf| {
          x := x + cabac.buf[bytestream] as int32 * 512;
        }
        if bytestream + 1 < |cabac.buf| {
          x := x + cabac.buf[bytestream + 1] as int32 * 2;
        }
        low' := low' + (x - 0xffff);
        if bytestream < |cabac.buf| {
          bytestream' := bytestream + 2;
        }
      }
      var range := rng * 0x2_0000;
      var mask: int32 := if low' - range < 0 then -1 else 0;
      low' := low' - Masked(range, -1 - mask);
      signed := Wrap32((if mask == -1 then -1 - val else val) as int - mask as int) as int32;
    }
  }
}
