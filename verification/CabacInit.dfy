// Initial context states from the pairs (m, n) of the context tables (section 9.3.1.1).
module CabacInit {
  import opened BitMath
  import opened CabacSpec
  import opened CabacEngine
  import opened CabacRefinement

  function Clip3(lo: int, hi: int, x: int): int
  {
    if x < lo then lo else if x > hi then hi else x
  }

  // The context variable the standard prescribes for a slice quantiser.
  function InitialContext(m: int, n: int, sliceQp: int): (c: ContextVar)
    ensures ValidContext(c)
  {
    var preCtxState := Clip3(1, 126, m * Clip3(0, 51, sliceQp) / 16 + n);
    if preCtxState <= 63 then ContextVar(63 - preCtxState, 0) else ContextVar(preCtxState - 64, 1)
  }

  ghost predicate Int8Pair(p: (int, int))
  {
    -128 <= p.0 < 128 && -128 <= p.1 < 128
  }

  method StateTemplate(tab: seq<(int, int)>, sliceQp: int32) returns (states: array<byte>)
    requires |tab| == 1024 && 0 <= sliceQp <= 51
    requires forall i :: 0 <= i < |tab| ==> Int8Pair(tab[i])
    ensures fresh(states) && states.Length == 1024 && ValidStates(states[..])
    ensures forall i :: 0 <= i < 1024 ==> ContextOf(states[i]) == InitialContext(tab[i].0, tab[i].1, sliceQp as int)
  {
    states := new byte[1024](_ => 0);
    for i := 0 to 1024
      invariant forall j :: 0 <= j < i ==> states[j] <= 125
      invariant forall j :: 0 <= j < i ==> ContextOf(states[j]) == InitialContext(tab[j].0, tab[j].1, sliceQp as int)
    {
      hide InitialContext, ContextOf;
      assert Int8Pair(tab[i]);
      states[i] := InitialState(tab[i].0, tab[i].1, sliceQp);
    }
  }

  method InitialState(m: int, n: int, sliceQp: int32) returns (state: byte)
    requires Int8Pair((m, n)) && 0 <= sliceQp <= 51
    ensures state <= 125 && ContextOf(state) == InitialContext(m, n, sliceQp as int)
  {
    ProductBound(m, sliceQp as int);
    var product := m as int32 * sliceQp;
    var pre: int32 := 2 * (FloorShift4(product) + n as int32) - 127;
    pre := if pre < 0 then -1 - pre else pre;
    if pre > 124 {
      pre := 124 + pre % 2;
    }
    state := pre as int as byte;
  }

  // An arithmetic shift right by four.
  function FloorShift4(x: int32): (r: int32)
    ensures r as int == x as int / 16
  {
    (x as int / 16) as int32
  }

  lemma ProductBound(m: int, qp: int)
    requires -128 <= m < 128 && 0 <= qp <= 51
    ensures -0x2000 <= m * qp <= 0x2000
  {
    if m >= 0 {
      assert m * qp <= 127 * qp;
    } else {
      assert -m * qp <= 128 * qp;
    }
  }
}
