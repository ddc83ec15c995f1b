// The decoder's own methods over the packed engine: fields updated in place, int32
// arithmetic, and the three hand-inlined forms of one decision.
module CabacDecoder {
  import opened BitMath
  import opened CabacTables
  import opened CabacEngine
  import opened Options

  class CabacContext {
    var low: int32
    var rng: int32
    var bytestream: nat
    var buf: seq<byte>

    constructor (low: int32, rng: int32, bytestream: nat, buf: seq<byte>)
      ensures this.low == low && this.rng == rng && this.bytestream == bytestream && this.buf == buf
    {
      this.low, this.rng, this.bytestream, this.buf := low, rng, bytestream, buf;
    }

    ghost function State(): Engine
      reads this
    {
      Engine(low as int, rng as int, bytestream)
    }

    static method InitDecoderAligned(buf: seq<byte>, aligned: bool) returns (ok: bool, c: CabacContext)
      ensures fresh(c) && c.buf == buf
      ensures ok == Init(buf, aligned).Some?
      ensures ok ==> Init(buf, aligned) == Some(c.State())
    {
      c := new CabacContext(0, 0x1fe, 0, buf);
      if |buf| < 2 {
        return false, c;
      }
      c.low := buf[c.bytestream] as int32 * 0x4_0000;
      c.bytestream := c.bytestream + 1;
      c.low := c.low + buf[c.bytestream] as int32 * 0x400;
      c.bytestream := c.bytestream + 1;
      if aligned {
        c.low := c.low + 0x200;
      } else {
        if c.bytestream >= |buf| {
          return false, c;
        }
        c.low := c.low + (buf[c.bytestream] as int32 * 4 + 2);
        c.bytestream := c.bytestream + 1;
      }
      ok := !(c.rng * 0x2_0000 < c.low);
    }

    static method InitDecoder(buf: seq<byte>, even: bool) returns (ok: bool, c: CabacContext)
      ensures fresh(c) && c.buf == buf
      ensures ok == Start(buf, even).Some?
      ensures ok ==> Start(buf, even) == Some(c.State())
    {
      var aligned := true;
      if |buf| > 2 {
        aligned := even;
      }
      ok, c := InitDecoderAligned(buf, aligned);
    }

    method Refill()
      requires 0 <= low < 0x4000_0000
      modifies this`low, this`bytestream
      ensures State() == CabacEngine.Refill(buf, old(State()))
    {
      var x: int32 := 0;
      if bytestream < |buf| {
        x := x + buf[bytestream] as int32 * 512;
      }
      if bytestream + 1 < |buf| {
        x := x + buf[bytestream + 1] as int32 * 2;
      }
      low := low + x;
      low := low - 0xffff;
      if bytestream < |buf| {
        bytestream := bytestream + 2;
      }
    }

    method Refill2()
      requires 0 < low < 0x4000_0000 && 16 <= TrailingZeros32(low as int) <= 22
      modifies this`low, this`bytestream
      ensures State() == CabacEngine.Refill2(buf, old(State()))
    {
      hide Xor, NormShift, TrailingZeros32, Pow2;
      MarkerLookup(low as int);
      var xor := Xor(low as int, low as int - 1);
      var i := 7 - NormShift(xor / 0x8000);
      var x: int32 := -0xffff;
      if bytestream < |buf| {
        x := x + buf[bytestream] as int32 * 512;
      }
      if bytestream + 1 < |buf| {
        x := x + buf[bytestream + 1] as int32 * 2;
      }
      var w := ShiftWeight(i);
      WeightBound(x as int, i);
      low := low + x * w;
      if bytestream < |buf| {
        bytestream := bytestream + 2;
      }
    }

    // One decision; state[idx] is the context state behind the pointer.
    method GetCabac(state: array<byte>, idx: nat) returns (bin: int32)
      requires Valid(State()) && idx < state.Length && state[idx] <= 125
      modifies this`low, this`rng, this`bytestream, state
      ensures (State(), state[idx], bin as int) == Decision(buf, old(State()), old(state[idx]))
      ensures state[..] == old(state[..])[idx := state[idx]]
    {
      var next: byte;
      low, rng, next, bin := SelectInterval(low, rng, bytestream, state[idx]);
      state[idx] := next;
      RenormByTable();
    }

    // The second half of a decision.
    method RenormByTable()
      requires 6 <= rng <= 510 && 0 < low as int < rng as int * Unit && TrailingZeros32(low as int) <= 15
      requires bytestream >= 2
      modifies this`low, this`rng, this`bytestream
      ensures State() == Renorm(buf, old(State()))
    {
      hide NormShift, TrailingZeros32, Pow2, RefillShift, Fetch;
      RenormSafe(State());
      var shift := NormShift(rng as int);
      var w := ShiftWeight(shift);
      rng := rng * w;
      low := low * w;
      if low % 0x1_0000 == 0 {
        MarkerLow(low as int);
        Refill2();
      }
    }

    method GetCabacBypass() returns (bin: int32)
      requires Valid(State())
      modifies this`low, this`bytestream
      ensures (State(), bin as int) == Bypass(buf, old(State()))
    {
      low := low + low;
      if low % 0x1_0000 == 0 {
        Refill();
      }
      var range := rng * 0x2_0000;
      if low < range {
        return 0;
      }
      low := low - range;
      return 1;
    }

    method GetCabacBypassSign(val: int32) returns (signed: int32)
      requires Valid(State())
      modifies this`low, this`bytestream
      ensures (State(), signed as int) == BypassSign(buf, old(State()), val as int)
    {
      low := low + low;
      if low % 0x1_0000 == 0 {
        Refill();
      }
      var range := rng * 0x2_0000;
      low := low - range;
      var mask: int32 := if low < 0 then -1 else 0;
      range := Masked(range, mask);
      low := low + range;
      signed := Wrap32((if mask == -1 then -1 - val else val) as int - mask as int) as int32;
    }

    method GetCabacTerminate() returns (bytes: nat)
      requires Valid(State())
      modifies this`low, this`rng, this`bytestream
      ensures (State(), bytes) == Terminate(buf, old(State()))
    {
      rng := rng - 2;
      if low < rng * 0x2_0000 {
        RenormOnce();
        return 0;
      }
      return bytestream;
    }

    method RenormOnce()
      requires 0xfe <= rng <= 508 && 0 < low < rng * 0x2_0000
      modifies this`low, this`rng, this`bytestream
      ensures var d := old(State());
        var f := if d.rng < 0x100 then Engine(2 * d.low, 2 * d.rng, d.pos) else d;
        State() == if f.low % 0x1_0000 == 0 then CabacEngine.Refill(buf, f) else f
    {
      var shift := if rng - 0x100 < 0 then 1 else 0;
      Pow2Small();
      rng := rng * ShiftWeight(shift);
      low := low * ShiftWeight(shift);
      if low % 0x1_0000 == 0 {
        Refill();
      }
    }

    // The engine restarts behind the I_PCM samples; even says where the third byte there lies.
    method ReadIntraPcmBytes(n: int, even: bool) returns (ok: bool, pcm: seq<byte>)
      modifies this
      ensures var r := ReadIntraPcm(old(buf), old(State()), n, even);
        if ok then r == Some((pcm, buf, State()))
        else r == None && State() == old(State()) && buf == old(buf)
    {
      ok, pcm := false, [];
      if n < 0 {
        return;
      }
      var ptr: int := bytestream;
      if low as int % 2 != 0 {
        ptr := ptr - 1;
      }
      if low as int % 0x200 != 0 {
        ptr := ptr - 1;
      }
      if ptr < 0 || ptr > |buf| || n > |buf| - ptr {
        return;
      }
      var next := ptr + n;
      var started, c := InitDecoder(buf[next..], even);
      if !started {
        return;
      }
      pcm := buf[ptr..next];
      ok := true;
      low, rng, bytestream, buf := c.low, c.rng, c.bytestream, c.buf;
    }
  }

  // x & mask for a mask of 0 or -1.
  function Masked(x: int32, mask: int32): int32
    requires mask == 0 || mask == -1
  {
    if mask == -1 then x else 0
  }

  lemma WeightBound(x: int, i: nat)
    requires -0xffff <= x <= 0xffff && i <= 6
    ensures -0x40_0000 <= x * Pow2(i) <= 0x40_0000
  {
    Pow2Small();
    Pow2Monotone(i, 6);
    MulInterval(x, Pow2(i));
  }

  lemma MulInterval(x: int, w: nat)
    requires -0xffff <= x <= 0xffff && 1 <= w <= 64
    ensures -0x40_0000 <= x * w <= 0x40_0000
  {
    MulDistribute(0xffff - x, x, w);
    MulDistribute(0xffff + x, -x, w);
    assert (0xffff - x) * w >= 0 && (0xffff + x) * w >= 0;
    MulNegated(x, w);
  }

  lemma MulNegated(x: int, w: int)
    ensures -x * w == -(x * w)
  {
  }

  // 1 << n, for the shifts that occur.
  function ShiftWeight(n: nat): (w: int32)
    requires n <= 9
    ensures w as int == Pow2(n) <= 512
  {
    Pow2Small();
    Pow2Monotone(n, 9);
    Pow2(n) as int32
  }

  // ---------- the inlined forms ----------

  // The first half of a decision on local copies, with masks in place of branches.
  method SelectInterval(low: int32, rng: int32, ghost bytestream: nat, state: byte)
    returns (low': int32, rng': int32, next: byte, bin: int32)
    requires Valid(Engine(low as int, rng as int, bytestream)) && state <= 125
    ensures (Engine(low' as int, rng' as int, bytestream), next, bin as int)
         == Choose(Engine(low as int, rng as int, bytestream), state)
  {
    hide LpsRange, MlpsState, TrailingZeros32, Choose;
    var s: int := state;
    var rangeLps := LpsRange(2 * (rng as int / 64 % 4 * 64) + s);
    ChooseParts(Engine(low as int, rng as int, bytestream), state, rangeLps);
    low', rng' := low, rng;
    rng' := rng' - rangeLps as int32;
    var lpsMask: int32 := if rng' * 0x2_0000 - low' < 0 then -1 else 0;
    low' := low' - Masked(rng' * 0x2_0000, lpsMask);
    rng' := rng' + Masked(rangeLps as int32 - rng', lpsMask);
    s := if lpsMask == -1 then -s - 1 else s;
    next := MlpsState(128 + s);
    bin := (s % 2) as int32;
  }

  method ShiftBoth(low: int32, rng: int32, shift: nat) returns (low': int32, rng': int32)
    requires shift <= 9 && 0 <= low as int * Pow2(shift) < 0x8000_0000 && 0 <= rng as int * Pow2(shift) < 0x8000_0000
    ensures low' as int == low as int * Pow2(shift) && rng' as int == rng as int * Pow2(shift)
  {
    var w := ShiftWeight(shift);
    low', rng' := low * w, rng * w;
  }

  // The second half with the shift tables, refilling from local copies.
  method RenormLocally(low: int32, rng: int32, bytestream: nat, buf: seq<byte>)
    returns (low': int32, rng': int32, bytestream': nat)
    requires 6 <= rng <= 510 && 0 < low as int < rng as int * Unit && TrailingZeros32(low as int) <= 15
    requires bytestream >= 2
    ensures Engine(low' as int, rng' as int, bytestream') == Renorm(buf, Engine(low as int, rng as int, bytestream))
  {
    hide *;
    RenormParts(buf, Engine(low as int, rng as int, bytestream));
    var shift := NormShift(rng as int);
    low', rng' := ShiftBoth(low, rng, shift);
    bytestream' := bytestream;
    if low' % 0x1_0000 == 0 {
      MarkerLookup(low' as int);
      var xor := Xor(low' as int, low' as int - 1);
      var refillShift := 7 - NormShift(xor / 0x8000);
      low', bytestream' := RefillLocally(low', bytestream, buf, refillShift);
    }
  }

  // The second half with leading and trailing zero counts in place of both tables.
  method RenormByCounts(low: int32, rng: int32, bytestream: nat, buf: seq<byte>)
    returns (low': int32, rng': int32, bytestream': nat)
    requires 6 <= rng <= 510 && 0 < low as int < rng as int * Unit && TrailingZeros32(low as int) <= 15
    requires bytestream >= 2
    ensures Engine(low' as int, rng' as int, bytestream') == Renorm(buf, Engine(low as int, rng as int, bytestream))
  {
    hide *;
    RenormParts(buf, Engine(low as int, rng as int, bytestream));
    CountIsShift(rng as int);
    var shift := (LeadingZeros32(rng as int) - 23) % 32;
    low', rng' := ShiftBoth(low, rng, shift);
    bytestream' := bytestream;
    if low' % 0x1_0000 == 0 {
      var refillShift := (TrailingZeros32(low' as int) - 16) % 32;
      assert refillShift == TrailingZeros32(low' as int) - 16;
      low', bytestream' := RefillLocally(low', bytestream, buf, refillShift);
    }
  }

  lemma CountIsShift(rng: nat)
    requires 1 <= rng < 512
    ensures (LeadingZeros32(rng) - 23) % 32 == NormShift(rng)
  {
    NormShiftBounds(rng);
    Pow2Small();
    Len32Shift(rng, NormShift(rng));
    Len32Unique(rng * Pow2(NormShift(rng)), 9);
  }

  method RefillLocally(low: int32, bytestream: nat, buf: seq<byte>, refillShift: nat)
    returns (low': int32, bytestream': nat)
    requires 0 < low < 0x4000_0000 && refillShift <= 6
    ensures low' as int == low as int + (Fetch(buf, bytestream) - CabacMask) * Pow2(refillShift)
    ensures bytestream' == Advance(buf, bytestream)
  {
    var x: int32 := -0xffff;
    if bytestream < |buf| {
      x := x + buf[bytestream] as int32 * 512;
    }
    if bytestream + 1 < |buf| {
      x := x + buf[bytestream + 1] as int32 * 2;
    }
    WeightBound(x as int, refillShift);
    low' := low + x * ShiftWeight(refillShift);
    bytestream' := bytestream;
    if bytestream < |buf| {
      bytestream' := bytestream + 2;
    }
  }
}
