/** What the physics code relies on within one vertical column of cells.
    The cell under `i` is `i - plane`; blocks are the flat array of the level. */
module Columns {
  import opened Blocks

  /** Some cell further down in the column stops everything that falls. */
  ghost predicate HasFloor(plane: nat, b: seq<byte>, i: int)
    requires 0 <= i < |b|
    decreases i
  {
    0 < plane <= i && (IsHard(b[i - plane]) || HasFloor(plane, b, i - plane))
  }

  /** Every grain has a floor somewhere under it. */
  ghost predicate Grounded(plane: nat, b: seq<byte>) {
    forall i :: 0 <= i < |b| && IsGrain(b[i]) ==> HasFloor(plane, b, i)
  }

  /** A hard block, or a grain in a stack of grains that rests on one. */
  ghost predicate Firm(plane: nat, b: seq<byte>, i: int)
    requires 0 <= i < |b|
    decreases i
  {
    IsHard(b[i]) || (IsGrain(b[i]) && 0 < plane <= i && Firm(plane, b, i - plane))
  }

  /** Cell j is cell i or lies above it in the same column. */
  ghost predicate Over(plane: nat, j: int, i: int)
    decreases j - i
  {
    j == i || (0 < plane && i < j && Over(plane, j - plane, i))
  }

  /** Block v is found in cell i or above it. */
  ghost predicate FallsFrom(plane: nat, b: seq<byte>, i: int, v: byte) {
    exists j :: 0 <= j < |b| && Over(plane, j, i) && b[j] == v
  }

  /** A grain that could fall right now. */
  ghost predicate Unsettled(plane: nat, b: seq<byte>, i: int) {
    && 0 <= i < |b| && IsGrain(b[i])
    && 0 < plane <= i && IsPassable(b[i - plane])
  }

  ghost predicate Settled(plane: nat, b: seq<byte>) {
    forall i :: 0 <= i < |b| ==> !Unsettled(plane, b, i)
  }

  /** Where a grain in cell i comes to rest if nothing else moves. */
  ghost function Landing(plane: nat, b: seq<byte>, i: int): (j: int)
    requires 0 <= i < |b|
    ensures 0 <= j <= i
    decreases i
  {
    if 0 < plane <= i && IsPassable(b[i - plane]) then Landing(plane, b, i - plane) else i
  }

  /** The height of cell i: its y coordinate. */
  ghost function Rise(plane: nat, i: nat): nat {
    if 0 < plane <= i then 1 + Rise(plane, i - plane) else 0
  }

  ghost function Weight(plane: nat, i: nat, v: byte): nat {
    if IsGrain(v) then 3 * (Rise(plane, i) + 1)
    else if v == AIR then 2
    else if IsPassable(v) then 1
    else 0
  }

  /** Bounds the number of block writes that physics can still perform:
      three per unit of grain height, two per air cell, one per fluid cell. */
  ghost function Potential(plane: nat, b: seq<byte>): nat {
    if b == [] then 0 else
      Potential(plane, b[..|b| - 1]) + Weight(plane, |b| - 1, b[|b| - 1])
  }

  lemma {:induction false} PotentialUpdate(plane: nat, b: seq<byte>, i: int, v: byte)
    requires 0 <= i < |b|
    ensures Potential(plane, b[i := v]) == Potential(plane, b) - Weight(plane, i, b[i]) + Weight(plane, i, v)
  {
    var init := b[..|b| - 1];
    if i == |b| - 1 {
      assert b[i := v][..|b| - 1] == init;
    } else {
      PotentialUpdate(plane, init, i, v);
      assert b[i := v][..|b| - 1] == init[i := v];
    }
  }

  lemma {:induction false} FloorKept(plane: nat, b: seq<byte>, c: seq<byte>, i: int)
    requires |b| == |c| && 0 <= i < |b|
    requires forall k :: 0 <= k < i && IsHard(b[k]) ==> IsHard(c[k])
    requires HasFloor(plane, b, i)
    ensures HasFloor(plane, c, i)
    decreases i
  {
    if !IsHard(b[i - plane]) {
      FloorKept(plane, b, c, i - plane);
    }
  }

  lemma {:induction false} FirmKept(plane: nat, b: seq<byte>, c: seq<byte>, i: int)
    requires |b| == |c| && 0 <= i < |b|
    requires forall k :: 0 <= k <= i && Firm(plane, b, k) ==> c[k] == b[k]
    requires Firm(plane, b, i)
    ensures Firm(plane, c, i)
    decreases i
  {
    if !IsHard(b[i]) {
      FirmKept(plane, b, c, i - plane);
    }
  }

  /** On a grounded level, a grain under which nothing can fall, and which cannot fall itself,
      stands firm. */
  lemma {:induction false} SettledIsFirm(plane: nat, b: seq<byte>, i: int)
    requires Grounded(plane, b) && forall k :: k <= i ==> !Unsettled(plane, b, k)
    requires 0 <= i < |b| && IsGrain(b[i])
    ensures Firm(plane, b, i)
    decreases i
  {
    assert HasFloor(plane, b, i);
    assert !Unsettled(plane, b, i);
    if IsGrain(b[i - plane]) {
      SettledIsFirm(plane, b, i - plane);
    }
  }

  lemma {:induction false} FloorUnderLanding(plane: nat, b: seq<byte>, i: int)
    requires 0 <= i < |b| && HasFloor(plane, b, i)
    ensures HasFloor(plane, b, Landing(plane, b, i))
    ensures var j := Landing(plane, b, i); 0 < plane <= j && !IsPassable(b[j - plane])
    decreases i
  {
    if IsPassable(b[i - plane]) {
      FloorUnderLanding(plane, b, i - plane);
    }
  }

  lemma {:induction false} LandingLower(plane: nat, b: seq<byte>, i: int)
    requires 0 <= i < |b|
    ensures var j := Landing(plane, b, i); j == i || (IsPassable(b[j]) && Rise(plane, j) < Rise(plane, i))
    decreases i
  {
    if 0 < plane <= i && IsPassable(b[i - plane]) {
      LandingLower(plane, b, i - plane);
    }
  }

  lemma {:induction false} OverTrans(plane: nat, k: int, j: int, i: int)
    requires Over(plane, k, j) && Over(plane, j, i)
    ensures Over(plane, k, i)
    decreases k - j
  {
    if k != j {
      OverTrans(plane, k - plane, j, i);
      OverNotBelow(plane, j, i);
    }
  }

  lemma FallsFromItself(plane: nat, b: seq<byte>, i: int)
    requires 0 <= i < |b|
    ensures FallsFrom(plane, b, i, b[i])
  {
    assert Over(plane, i, i);
  }

  lemma {:induction false} OverNotBelow(plane: nat, j: int, i: int)
    requires Over(plane, j, i)
    ensures i <= j
  {
  }

  lemma {:induction false} LandingBelow(plane: nat, b: seq<byte>, i: int)
    requires 0 <= i < |b|
    ensures Over(plane, i, Landing(plane, b, i))
    decreases i
  {
    if 0 < plane <= i && IsPassable(b[i - plane]) {
      LandingBelow(plane, b, i - plane);
    }
  }

  lemma {:induction false} SameLanding(plane: nat, b: seq<byte>, c: seq<byte>, p: int, i: int)
    requires 0 <= i <= p < |b| == |c|
    requires forall k :: 0 <= k < p ==> c[k] == b[k]
    ensures Landing(plane, b, i) == Landing(plane, c, i)
    decreases i
  {
    if 0 < plane <= i && IsPassable(b[i - plane]) {
      SameLanding(plane, b, c, p, i - plane);
    }
  }

  lemma {:induction false} FirmBelow(plane: nat, b: seq<byte>, c: seq<byte>, i: int, p: int)
    requires 0 <= i < p < |b| == |c|
    requires forall k :: 0 <= k < p ==> c[k] == b[k]
    requires Firm(plane, b, i)
    ensures Firm(plane, c, i)
    decreases i
  {
    if !IsHard(b[i]) {
      FirmBelow(plane, b, c, i - plane, p);
    }
  }

  /** A write keeps the level grounded if it opens no floor and puts grains only above one. */
  lemma GroundedWrite(plane: nat, b: seq<byte>, p: int, v: byte)
    requires 0 <= p < |b| && Grounded(plane, b)
    requires IsHard(b[p]) ==> IsHard(v)
    requires IsGrain(v) ==> HasFloor(plane, b, p)
    ensures Grounded(plane, b[p := v])
  {
    var c := b[p := v];
    forall i | 0 <= i < |c| && IsGrain(c[i])
      ensures HasFloor(plane, c, i)
    {
      FloorKept(plane, b, c, i);
    }
  }

  /** From cell i, the search for a landing stops above something, inside the level. */
  ghost predicate SearchStops(plane: nat, b: seq<byte>, i: int)
    requires 0 <= i < |b|
  {
    0 < plane <= Landing(plane, b, i)
  }

  /** A level is grounded exactly when no grain, wherever it is asked to fall, makes the search
      look below the bottom layer. */
  lemma GroundedIffSearchesStop(plane: nat, b: seq<byte>)
    ensures Grounded(plane, b) <==> forall i :: 0 <= i < |b| && IsGrain(b[i]) ==> SearchStops(plane, b, i)
  {
    if Grounded(plane, b) {
      forall i | 0 <= i < |b| && IsGrain(b[i])
        ensures SearchStops(plane, b, i)
      {
        FloorUnderLanding(plane, b, i);
      }
    } else if forall i :: 0 <= i < |b| && IsGrain(b[i]) ==> SearchStops(plane, b, i) {
      forall i | 0 <= i < |b| && IsGrain(b[i])
        ensures HasFloor(plane, b, i)
      {
        StopsOnFloor(plane, b, i);
      }
    }
  }

  lemma {:induction false} StopsOnFloor(plane: nat, b: seq<byte>, i: int)
    requires forall k :: 0 <= k < |b| && IsGrain(b[k]) ==> SearchStops(plane, b, k)
    requires 0 <= i < |b| && IsGrain(b[i])
    ensures HasFloor(plane, b, i)
    decreases i, 1
  {
    ShaftFloor(plane, b, i);
  }

  /** The same for any cell from which the search stops. */
  lemma {:induction false} ShaftFloor(plane: nat, b: seq<byte>, i: int)
    requires forall k :: 0 <= k < |b| && IsGrain(b[k]) ==> SearchStops(plane, b, k)
    requires 0 <= i < |b| && SearchStops(plane, b, i)
    ensures HasFloor(plane, b, i)
    decreases i, 0
  {
    if IsPassable(b[i - plane]) {
      ShaftFloor(plane, b, i - plane);
    } else if IsGrain(b[i - plane]) {
      StopsOnFloor(plane, b, i - plane);
    }
  }
}
