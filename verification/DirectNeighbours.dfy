// References and vectors of spatial direct prediction, derived from the blocks to the left, above
// and above right (sections 8.4.1.2.2 and 8.4.1.3).
module DirectNeighbours {
  import opened DirectMotion
  import opened DirectPrediction

  // A negative reference: not used, or not available.
  datatype Neighbour = Neighbour(ref: int, mv: Vector)
  {
    predicate Valid()
    {
      -128 <= ref < 128
    }
  }

  function Unsigned32(x: int): nat
    requires -128 <= x < 128
  {
    if x < 0 then x + 0x1_0000_0000 else x
  }

  // References compared as unsigned numbers.
  method MinRefAsUnsigned(a: int, b: int, c: int) returns (r: int)
    requires -128 <= a < 128 && -128 <= b < 128 && -128 <= c < 128
    ensures r == MinPositive(a, MinPositive(b, c)) || (a < 0 && b < 0 && c < 0 && r < 0)
    ensures -128 <= r < 128 && (r == a || r == b || r == c)
  {
    r := a;
    if Unsigned32(b) < Unsigned32(r) {
      r := b;
    }
    if Unsigned32(c) < Unsigned32(r) {
      r := c;
    }
  }

  // MinPositive of section 8.4.1.2.2.
  function MinPositive(x: int, y: int): int
  {
    if x >= 0 && y >= 0 then (if x <= y then x else y) else if x >= y then x else y
  }

  method MidPred(a: int, b: int, c: int) returns (r: int)
    ensures r == Median(a, b, c)
  {
    r := b;
    if a > b {
      if c > b {
        r := if c > a then a else c;
      }
    } else if b > c {
      r := if c > a then c else a;
    }
  }

  function Max(x: int, y: int): int
  {
    if x >= y then x else y
  }

  function Min(x: int, y: int): int
  {
    if x <= y then x else y
  }

  // The sum less the least and the greatest (section 5.7).
  function Median(a: int, b: int, c: int): int
  {
    a + b + c - Min(a, Min(b, c)) - Max(a, Max(b, c))
  }

  // The vector of the one neighbour with the reference, otherwise the median of all three.
  function Predicted(ref: int, left: Neighbour, top: Neighbour, right: Neighbour): Vector
  {
    if left.ref == ref && top.ref != ref && right.ref != ref then left.mv
    else if left.ref != ref && top.ref == ref && right.ref != ref then top.mv
    else if left.ref != ref && top.ref != ref && right.ref == ref then right.mv
    else Vector(Median(left.mv.x, top.mv.x, right.mv.x), Median(left.mv.y, top.mv.y, right.mv.y))
  }

  // One list; a reference of -1 with a zero vector if no neighbour uses it.
  function ListOf(left: Neighbour, top: Neighbour, right: Neighbour): Neighbour
  {
    var ref := MinPositive(left.ref, MinPositive(top.ref, right.ref));
    if ref < 0 then Neighbour(-1, ZeroVector) else Neighbour(ref, Predicted(ref, left, top, right))
  }

  method NeighbourMotion(left: Neighbour, top: Neighbour, right: Neighbour) returns (r: Neighbour)
    requires left.Valid() && top.Valid() && right.Valid()
    ensures ListOf(left, top, right) == if r.ref < 0 then Neighbour(-1, ZeroVector) else r
    ensures r.ref < 128
  {
    var ref := MinRefAsUnsigned(left.ref, top.ref, right.ref);
    r := Neighbour(ref, ZeroVector);
    if ref >= 0 {
      var matches :=
        (if left.ref == ref then 1 else 0) + (if top.ref == ref then 1 else 0) + (if right.ref == ref then 1 else 0);
      if matches > 1 {
        var x := MidPred(left.mv.x, top.mv.x, right.mv.x);
        var y := MidPred(left.mv.y, top.mv.y, right.mv.y);
        r := Neighbour(ref, Vector(x, y));
      } else if left.ref == ref {
        r := Neighbour(ref, left.mv);
      } else if top.ref == ref {
        r := Neighbour(ref, top.mv);
      } else {
        r := Neighbour(ref, right.mv);
      }
    }
  }

  // What spatial prediction starts from: the derived lists, or reference 0 of both lists with
  // zero vectors where neither is used. The flags say whether each list is used.
  method DeriveSpatial(left0: Neighbour, top0: Neighbour, right0: Neighbour, left1: Neighbour, top1: Neighbour,
                       right1: Neighbour, long: bool, listOne: bool) returns (p: Spatial, uses0: bool, uses1: bool)
    requires left0.Valid() && top0.Valid() && right0.Valid() && left1.Valid() && top1.Valid() && right1.Valid()
    ensures var list0, list1 := ListOf(left0, top0, right0), ListOf(left1, top1, right1);
      p == if list0.ref < 0 && list1.ref < 0 then Spatial(0, ZeroVector, 0, ZeroVector, long, listOne)
           else Spatial(list0.ref, list0.mv, list1.ref, list1.mv, long, listOne)
    ensures p.Valid() && uses0 == (p.ref0 >= 0) && uses1 == (p.ref1 >= 0) && (uses0 || uses1)
  {
    var a := NeighbourMotion(left0, top0, right0);
    var b := NeighbourMotion(left1, top1, right1);
    uses0, uses1 := true, true;
    if a.ref < 0 {
      a := Neighbour(-1, ZeroVector);
      uses0 := false;
    }
    if b.ref < 0 {
      b := Neighbour(-1, ZeroVector);
      uses1 := false;
    }
    if a.ref < 0 && b.ref < 0 {
      a, b := a.(ref := 0), b.(ref := 0);
      uses0, uses1 := true, true;
    }
    p := Spatial(a.ref, a.mv, b.ref, b.mv, long, listOne);
  }
}
