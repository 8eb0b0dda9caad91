/** Grains over shafts: which of them survive a cascade, and how many. */
module Shafts {
  import opened Blocks
  import opened Columns

  /** The number of grains. */
  function Grains(b: seq<byte>): nat {
    multiset(b)[SAND] + multiset(b)[GRAVEL]
  }

  /** No grain is created. */
  ghost predicate FewerGrains(b: seq<byte>, c: seq<byte>) {
    multiset(c)[SAND] <= multiset(b)[SAND] && multiset(c)[GRAVEL] <= multiset(b)[GRAVEL]
  }

  /** The grain in cell q would come to rest on firm ground if nothing else moved. */
  ghost predicate Poised(plane: nat, b: seq<byte>, q: int) {
    && 0 <= q < |b| && IsGrain(b[q])
    && var j := Landing(plane, b, q);
    0 < plane <= j && Firm(plane, b, j - plane)
  }

  /** There is a grain directly above cell q. */
  predicate Topped(plane: nat, b: seq<byte>, q: int) {
    0 <= q + plane < |b| && IsGrain(b[q + plane])
  }

  /** The grain poised in q is still poised over the same landing, or it rests there. In the second
      case a grain that lay directly above has cost the level one grain: it fell first, and the one
      from q was put in its place. */
  ghost predicate ShaftKept(plane: nat, b: seq<byte>, c: seq<byte>, q: int) {
    && 0 <= q < |b| == |c|
    && var j := Landing(plane, b, q);
    || (Poised(plane, c, q) && c[q] == b[q] && Landing(plane, c, q) == j
      && (Topped(plane, b, q) ==> Topped(plane, c, q)))
    || (c[j] == b[q] && Firm(plane, c, j) && (j < q && Topped(plane, b, q) ==> Grains(c) < Grains(b)))
  }

  ghost predicate ShaftsKept(plane: nat, b: seq<byte>, c: seq<byte>) {
    |b| == |c| && forall q :: Poised(plane, b, q) ==> ShaftKept(plane, b, c, q)
  }

  /** The grain in q is the only one that can fall, and none lies directly above it. */
  ghost predicate Solo(plane: nat, b: seq<byte>, q: int) {
    && Poised(plane, b, q) && Landing(plane, b, q) < q && !Topped(plane, b, q)
    && forall i :: Unsettled(plane, b, i) ==> i == q
  }

  /** A grain that falls alone is not lost. */
  ghost predicate SoloKept(plane: nat, b: seq<byte>, c: seq<byte>) {
    forall q :: Solo(plane, b, q) ==>
      Grains(c) == Grains(b) && (Settled(plane, c) || Solo(plane, c, q))
  }

  ghost predicate FirmStays(plane: nat, b: seq<byte>, c: seq<byte>) {
    |b| == |c| && forall i :: 0 <= i < |b| && Firm(plane, b, i) ==> c[i] == b[i]
  }

  /** While nothing can fall, no grain moves and no cell opens or closes. */
  ghost predicate Still(plane: nat, b: seq<byte>, c: seq<byte>) {
    |b| == |c| &&
    (Settled(plane, b) ==>
       && Settled(plane, c) && Grains(c) == Grains(b)
       && forall i :: 0 <= i < |b| ==> (IsPassable(c[i]) <==> IsPassable(b[i])))
  }

  /** How a cascade treats the grains. */
  ghost predicate Orderly(plane: nat, b: seq<byte>, c: seq<byte>) {
    && FirmStays(plane, b, c) && FewerGrains(b, c) && Still(plane, b, c)
    && ShaftsKept(plane, b, c) && SoloKept(plane, b, c)
  }

  /** Outside the given cells, only air changes, and only to active water. */
  ghost predicate OnlyFlooded(b: seq<byte>, c: seq<byte>, except: set<int>) {
    |b| == |c| &&
    forall i :: 0 <= i < |b| && i !in except ==> c[i] == b[i] || (b[i] == AIR && c[i] == ACTIVE_WATER)
  }

  /** The only grain that can fall is still there, or it has fallen: it lies at its landing and its
      start is empty or flooded. Besides, air may have been flooded. */
  ghost predicate LoneFall(plane: nat, b: seq<byte>, c: seq<byte>, q: int) {
    && 0 <= q < |b| == |c|
    && var j := Landing(plane, b, q);
    || (Solo(plane, c, q) && Landing(plane, c, q) == j && OnlyFlooded(b, c, {}))
    || (Settled(plane, c) && c[j] == b[q] && c[q] in {AIR, ACTIVE_WATER} && OnlyFlooded(b, c, {q, j}))
  }

  /** Exactly which cells a cascade changes when at most one grain can fall, and that one alone. */
  ghost predicate Tidy(plane: nat, b: seq<byte>, c: seq<byte>) {
    && (Settled(plane, b) ==> Settled(plane, c) && OnlyFlooded(b, c, {}))
    && forall q :: Solo(plane, b, q) ==> LoneFall(plane, b, c, q)
  }

  lemma TidyTrans(plane: nat, b: seq<byte>, c: seq<byte>, d: seq<byte>)
    requires Tidy(plane, b, c) && Tidy(plane, c, d)
    ensures Tidy(plane, b, d)
  {
    hide Solo, Settled, Landing;
    forall q | Solo(plane, b, q)
      ensures LoneFall(plane, b, d, q)
    {
      assert LoneFall(plane, b, c, q);
      SoloCell(plane, b, q);
    }
  }

  lemma SoloCell(plane: nat, b: seq<byte>, q: int)
    requires Solo(plane, b, q)
    ensures 0 <= q < |b| && IsGrain(b[q]) && 0 < plane <= Landing(plane, b, q) < q
    ensures !IsPassable(b[Landing(plane, b, q) - plane])
    ensures Unsettled(plane, b, q)
  {
    FirmNotPassable(plane, b, Landing(plane, b, q) - plane);
    CanFall(plane, b, q);
    hide Firm, Landing;
  }

  lemma FirmNotPassable(plane: nat, b: seq<byte>, i: int)
    requires 0 <= i < |b| && Firm(plane, b, i)
    ensures !IsPassable(b[i])
  {
  }

  lemma TidyRefl(plane: nat, b: seq<byte>)
    ensures Tidy(plane, b, b)
  {
    hide Settled, Solo, Landing;
    forall q | Solo(plane, b, q)
      ensures LoneFall(plane, b, b, q)
    {
      SoloCell(plane, b, q);
    }
  }

  /** A flooded cell. */
  lemma FloodTidy(plane: nat, b: seq<byte>, p: int)
    requires 0 <= p < |b| && b[p] == AIR
    ensures Tidy(plane, b, b[p := ACTIVE_WATER])
  {
    hide Solo, Landing, Poised;
    var c := b[p := ACTIVE_WATER];
    PassableWrite(plane, b, p, ACTIVE_WATER);
    forall q | Solo(plane, b, q)
      ensures LoneFall(plane, b, c, q)
    {
      SoloCell(plane, b, q);
      PassableSolo(plane, b, p, ACTIVE_WATER, q);
      SameLandingFlooded(plane, b, p, q);
    }
  }

  lemma SameLandingFlooded(plane: nat, b: seq<byte>, p: int, q: int)
    requires 0 <= p < |b| && b[p] == AIR && Solo(plane, b, q)
    ensures Landing(plane, b[p := ACTIVE_WATER], q) == Landing(plane, b, q)
  {
    PassableShaft(plane, b, p, ACTIVE_WATER, q);
  }

  lemma OrderlyTrans(plane: nat, b: seq<byte>, c: seq<byte>, d: seq<byte>)
    requires Orderly(plane, b, c) && Orderly(plane, c, d)
    ensures Orderly(plane, b, d)
  {
    ShaftsKeptTrans(plane, b, c, d);
    SoloKeptTrans(plane, b, c, d);
    FirmStaysTrans(plane, b, c, d);
    hide Firm, ShaftsKept, SoloKept, Settled, FirmStays, Grains;
  }

  lemma FirmStaysTrans(plane: nat, b: seq<byte>, c: seq<byte>, d: seq<byte>)
    requires FirmStays(plane, b, c) && FirmStays(plane, c, d)
    ensures FirmStays(plane, b, d)
  {
    forall i | 0 <= i < |b| && Firm(plane, b, i)
      ensures d[i] == b[i]
    {
      FirmKept(plane, b, c, i);
    }
  }

  lemma OrderlyRefl(plane: nat, b: seq<byte>)
    ensures Orderly(plane, b, b)
  {
    hide Firm, Landing, Settled, Grains;
  }

  lemma ShaftKeptTrans(plane: nat, b: seq<byte>, c: seq<byte>, d: seq<byte>, q: int)
    requires ShaftsKept(plane, c, d) && FewerGrains(b, c) && FewerGrains(c, d) && FirmStays(plane, c, d)
    requires 0 <= q < |b| == |c| && ShaftKept(plane, b, c, q)
    ensures ShaftKept(plane, b, d, q)
  {
    hide Firm, Landing, Poised;
    var j := Landing(plane, b, q);
    if Poised(plane, c, q) && c[q] == b[q] && Landing(plane, c, q) == j
      && (Topped(plane, b, q) ==> Topped(plane, c, q)) {
      assert ShaftKept(plane, c, d, q);
    } else {
      FirmKept(plane, c, d, j);
    }
  }

  lemma ShaftsKeptTrans(plane: nat, b: seq<byte>, c: seq<byte>, d: seq<byte>)
    requires ShaftsKept(plane, b, c) && ShaftsKept(plane, c, d)
    requires FewerGrains(b, c) && FewerGrains(c, d) && FirmStays(plane, c, d)
    ensures ShaftsKept(plane, b, d)
  {
    hide ShaftKept, FewerGrains, FirmStays;
    forall q | Poised(plane, b, q)
      ensures ShaftKept(plane, b, d, q)
    {
      ShaftKeptTrans(plane, b, c, d, q);
    }
  }

  lemma SoloKeptTrans(plane: nat, b: seq<byte>, c: seq<byte>, d: seq<byte>)
    requires SoloKept(plane, b, c) && SoloKept(plane, c, d)
    requires Settled(plane, c) ==> Settled(plane, d) && Grains(d) == Grains(c)
    ensures SoloKept(plane, b, d)
  {
    hide Solo, Settled, Grains;
  }

  // ------------------------------------------------------------------
  // Shafts.

  /** The search from q ends at j if it passes through everything down to j and no further. */
  lemma {:induction false} StopsAt(plane: nat, c: seq<byte>, q: int, j: int)
    requires 0 <= j && 0 <= q < |c| && Over(plane, q, j) && 0 < plane <= j && !IsPassable(c[j - plane])
    requires forall k :: j <= k < q && Over(plane, q, k) ==> IsPassable(c[k])
    ensures Landing(plane, c, q) == j
    decreases q
  {
    if q != j {
      OverNotBelow(plane, q - plane, j);
      assert Over(plane, q, q - plane);
      forall k | j <= k < q - plane && Over(plane, q - plane, k)
        ensures IsPassable(c[k])
      {
        assert Over(plane, q, k);
      }
      StopsAt(plane, c, q - plane, j);
    }
  }

  /** Everything below q down to its landing is passable. */
  lemma {:induction false} ShaftPassable(plane: nat, b: seq<byte>, q: int, k: int)
    requires 0 <= q < |b| && Over(plane, q, k) && k != q && Landing(plane, b, q) <= k
    ensures 0 <= k < q && IsPassable(b[k])
    decreases q
  {
    OverNotBelow(plane, q - plane, k);
    if k != q - plane {
      ShaftPassable(plane, b, q - plane, k);
    }
  }

  lemma {:induction false} Comparable(plane: nat, p: int, q: int, j: int)
    requires Over(plane, p, j) && Over(plane, q, j) && q <= p
    ensures Over(plane, p, q)
    decreases p - j
  {
    if p != q {
      OverNotBelow(plane, q, j);
      OverNotBelow(plane, p - plane, j);
      SameColumn(plane, p, q, j);
      Comparable(plane, p - plane, q, j);
    }
  }

  /** Two cells above j in its column are at least a layer apart. */
  lemma {:induction false} SameColumn(plane: nat, p: int, q: int, j: int)
    requires Over(plane, p, j) && Over(plane, q, j) && q < p
    ensures q <= p - plane
    decreases p - j
  {
    OverNotBelow(plane, q, j);
    OverNotBelow(plane, p - plane, j);
    if q != j {
      OverNotBelow(plane, q - plane, j);
      SameColumn(plane, p - plane, q - plane, j);
    }
  }

  /** A shaft through which everything still falls, over firm ground, keeps its landing. */
  lemma StillPoised(plane: nat, b: seq<byte>, c: seq<byte>, q: int)
    requires |b| == |c| && Poised(plane, b, q) && IsGrain(c[q])
    requires Firm(plane, c, Landing(plane, b, q) - plane)
    requires forall k :: Landing(plane, b, q) <= k < q && Over(plane, q, k) ==> IsPassable(c[k])
    ensures Poised(plane, c, q) && Landing(plane, c, q) == Landing(plane, b, q)
  {
    LandingBelow(plane, b, q);
    StopsAt(plane, c, q, Landing(plane, b, q));
  }

  lemma FirmThrough(plane: nat, b: seq<byte>, c: seq<byte>, i: int)
    requires FirmStays(plane, b, c) && 0 <= i < |b| && Firm(plane, b, i)
    ensures Firm(plane, c, i)
  {
    hide Firm;
    FirmKept(plane, b, c, i);
  }

  // ------------------------------------------------------------------
  // Writing a passable block over a passable one.

  lemma PassableShaft(plane: nat, b: seq<byte>, p: int, v: byte, q: int)
    requires 0 <= p < |b| && IsPassable(b[p]) && IsPassable(v) && Poised(plane, b, q)
    ensures Poised(plane, b[p := v], q) && Landing(plane, b[p := v], q) == Landing(plane, b, q)
  {
    hide Firm, Landing;
    var c := b[p := v];
    NotFirmPassable(plane, b, p);
    FirmThrough(plane, b, c, Landing(plane, b, q) - plane);
    forall k | Landing(plane, b, q) <= k < q && Over(plane, q, k)
      ensures IsPassable(c[k])
    {
      ShaftPassable(plane, b, q, k);
    }
    StillPoised(plane, b, c, q);
  }

  lemma PassableSolo(plane: nat, b: seq<byte>, p: int, v: byte, q: int)
    requires 0 <= p < |b| && IsPassable(b[p]) && IsPassable(v) && Solo(plane, b, q)
    ensures Solo(plane, b[p := v], q)
  {
    hide Firm, Landing;
    var c := b[p := v];
    PassableShaft(plane, b, p, v, q);
    forall i | Unsettled(plane, c, i)
      ensures i == q
    {
      assert Unsettled(plane, b, i);
    }
  }

  /** Fluids and air may replace each other. */
  lemma PassableWrite(plane: nat, b: seq<byte>, p: int, v: byte)
    requires 0 <= p < |b| && IsPassable(b[p]) && IsPassable(v)
    ensures Orderly(plane, b, b[p := v])
  {
    hide Firm, Landing, Poised, Solo;
    var c := b[p := v];
    NotFirmPassable(plane, b, p);
    forall q | Poised(plane, b, q)
      ensures ShaftKept(plane, b, c, q)
    {
      PoisedCell(plane, b, q);
      PassableShaft(plane, b, p, v, q);
    }
    forall q | Solo(plane, b, q)
      ensures Solo(plane, c, q)
    {
      PassableSolo(plane, b, p, v, q);
    }
    if Settled(plane, b) {
      forall i | 0 <= i < |b|
        ensures !Unsettled(plane, c, i)
      {
        assert !Unsettled(plane, b, i);
      }
    }
  }

  lemma NotFirmPassable(plane: nat, b: seq<byte>, p: int)
    requires 0 <= p < |b| && IsPassable(b[p])
    ensures !Firm(plane, b, p)
  {
  }

  // ------------------------------------------------------------------
  // A fall: the grain v leaves p, a cascade follows, v is put at its landing, a cascade follows.

  /** The states of a fall: before, between the writes, and after. */
  ghost predicate Fall(plane: nat, b: seq<byte>, p: int, v: byte, m: seq<byte>, t: seq<byte>) {
    && 0 <= p < |b| && IsGrain(v) && b[p] == v
    && var j := Landing(plane, b, p);
    && 0 < plane <= j < p && !IsPassable(b[j - plane])
    && Orderly(plane, b[p := AIR], m) && !IsHard(m[j])
    && !Unsettled(plane, m, p + plane)
    && Orderly(plane, m[j := v], t)
  }

  lemma FallCounts(plane: nat, b: seq<byte>, p: int, v: byte, m: seq<byte>, t: seq<byte>)
    requires Fall(plane, b, p, v, m, t)
    ensures var j := Landing(plane, b, p);
            && FewerGrains(b, m[j := v]) && FewerGrains(m[j := v], t)
            && Grains(b[p := AIR]) == Grains(b) - 1
            && Grains(m[j := v]) == Grains(m) + (if IsGrain(m[j]) then 0 else 1)
            && Grains(m) <= Grains(b) - 1 && Grains(t) <= Grains(m[j := v])
  {
    hide Firm, Landing, ShaftsKept, SoloKept, Unsettled;
  }

  lemma FallingNotFirm(plane: nat, b: seq<byte>, p: int)
    requires 0 <= p < |b| && !IsHard(b[p]) && Landing(plane, b, p) < p
    ensures !Firm(plane, b, p) && 0 < plane <= p && IsPassable(b[p - plane])
  {
  }

  /** A grain directly above the falling one falls first, to the same landing. */
  lemma UpperFirst(plane: nat, b: seq<byte>, p: int, v: byte, m: seq<byte>, t: seq<byte>)
    requires Fall(plane, b, p, v, m, t) && Poised(plane, b, p) && Topped(plane, b, p)
    ensures IsGrain(m[Landing(plane, b, p)])
  {
    var b', j, u := b[p := AIR], Landing(plane, b, p), p + plane;
    UpperPoised(plane, b, p);
    hide Firm, Landing;
    assert ShaftKept(plane, b', m, u);
    if Poised(plane, m, u) && Landing(plane, m, u) == j {
      CanFall(plane, m, u);
    }
  }

  lemma UpperPoised(plane: nat, b: seq<byte>, p: int)
    requires Poised(plane, b, p) && Topped(plane, b, p) && Landing(plane, b, p) < p
    ensures Poised(plane, b[p := AIR], p + plane)
    ensures Landing(plane, b[p := AIR], p + plane) == Landing(plane, b, p)
  {
    var b', j := b[p := AIR], Landing(plane, b, p);
    SameLanding(plane, b, b', p, p);
    FirmBelow(plane, b, b', j - plane, p);
  }

  lemma CanFall(plane: nat, b: seq<byte>, q: int)
    requires 0 <= q < |b| && IsGrain(b[q]) && Landing(plane, b, q) < q
    ensures Unsettled(plane, b, q)
  {
  }

  lemma FallenRests(plane: nat, m: seq<byte>, j: int, v: byte, t: seq<byte>)
    requires 0 < plane <= j < |m| && IsGrain(v) && Firm(plane, m, j - plane)
    requires Orderly(plane, m[j := v], t)
    ensures t[j] == v && Firm(plane, t, j)
  {
    hide Firm, Landing, Grains, Settled, ShaftsKept, SoloKept;
    var c := m[j := v];
    FirmBelow(plane, m, c, j - plane, j);
    GrainFirm(plane, c, j);
    FirmThrough(plane, c, t, j);
  }

  lemma GrainFirm(plane: nat, b: seq<byte>, j: int)
    requires 0 < plane <= j < |b| && IsGrain(b[j]) && Firm(plane, b, j - plane)
    ensures Firm(plane, b, j)
  {
  }

  /** The falling grain itself. */
  lemma FallOwnShaft(plane: nat, b: seq<byte>, p: int, v: byte, m: seq<byte>, t: seq<byte>)
    requires Fall(plane, b, p, v, m, t) && Poised(plane, b, p)
    ensures ShaftKept(plane, b, t, p)
  {
    hide Firm, Landing, Grains, Settled, ShaftsKept, SoloKept, Unsettled;
    var b', j := b[p := AIR], Landing(plane, b, p);
    FallCounts(plane, b, p, v, m, t);
    if Topped(plane, b, p) {
      UpperFirst(plane, b, p, v, m, t);
    }
    FirmBelow(plane, b, b', j - plane, p);
    FirmThrough(plane, b', m, j - plane);
    FallenRests(plane, m, j, v, t);
  }

  /** Writing a grain over a cell that is not hard loosens nothing. */
  lemma {:induction false} GrainKeepsFirm(plane: nat, m: seq<byte>, j: int, v: byte, i: int)
    requires 0 <= j < |m| && !IsHard(m[j]) && IsGrain(v)
    requires 0 <= i < |m| && Firm(plane, m, i)
    ensures Firm(plane, m[j := v], i)
    decreases i
  {
    if !IsHard(m[i]) {
      GrainKeepsFirm(plane, m, j, v, i - plane);
    }
  }

  /** The landing of the falling grain lies in no other shaft. */
  lemma OwnLanding(plane: nat, b: seq<byte>, p: int, q: int)
    requires 0 <= p < |b| && 0 <= q < |b| && IsGrain(b[p]) && IsGrain(b[q]) && p != q
    requires Landing(plane, b, p) < p
    requires Landing(plane, b, q) <= Landing(plane, b, p) < q
    ensures !Over(plane, q, Landing(plane, b, p))
  {
    hide Landing;
    var j := Landing(plane, b, p);
    LandingBelow(plane, b, p);
    if Over(plane, q, j) {
      if q < p {
        Comparable(plane, p, q, j);
        ShaftPassable(plane, b, p, q);
      } else {
        Comparable(plane, q, p, j);
        ShaftPassable(plane, b, q, p);
      }
    }
  }

  lemma OtherPoised(plane: nat, b: seq<byte>, p: int, q: int)
    requires 0 <= p < |b| && IsGrain(b[p]) && Landing(plane, b, p) < p
    requires Poised(plane, b, q) && q != p
    ensures var c := b[p := AIR];
            && Poised(plane, c, q) && Landing(plane, c, q) == Landing(plane, b, q)
            && (Topped(plane, b, q) ==> Topped(plane, c, q))
  {
    hide Firm, Landing;
    var c := b[p := AIR];
    FallingNotFirm(plane, b, p);
    FirmThrough(plane, b, c, Landing(plane, b, q) - plane);
    forall k | Landing(plane, b, q) <= k < q && Over(plane, q, k)
      ensures IsPassable(c[k])
    {
      ShaftPassable(plane, b, q, k);
    }
    StillPoised(plane, b, c, q);
  }

  /** Two falling grains have different landings. */
  lemma OtherLanding(plane: nat, b: seq<byte>, p: int, q: int)
    requires 0 <= p < |b| && 0 <= q < |b| && IsGrain(b[p]) && IsGrain(b[q]) && p != q
    requires Landing(plane, b, p) < p
    ensures Landing(plane, b, q) != Landing(plane, b, p) && Landing(plane, b, p) != q
  {
    LandingLower(plane, b, p);
    LandingBelow(plane, b, q);
    hide Landing;
    if Landing(plane, b, q) == Landing(plane, b, p) && Landing(plane, b, p) < q {
      OwnLanding(plane, b, p, q);
    }
  }

  /** A grain put where no shaft of a poised one is leaves that one poised. */
  lemma GrainBeside(plane: nat, m: seq<byte>, j: int, v: byte, q: int)
    requires Poised(plane, m, q) && 0 <= j < |m| && !IsHard(m[j]) && IsGrain(v) && j != q
    requires Landing(plane, m, q) <= j < q ==> !Over(plane, q, j)
    ensures Poised(plane, m[j := v], q) && Landing(plane, m[j := v], q) == Landing(plane, m, q)
  {
    hide Firm, Landing;
    var m' := m[j := v];
    GrainKeepsFirm(plane, m, j, v, Landing(plane, m, q) - plane);
    forall k | Landing(plane, m, q) <= k < q && Over(plane, q, k)
      ensures IsPassable(m'[k])
    {
      ShaftPassable(plane, m, q, k);
    }
    StillPoised(plane, m, m', q);
  }

  lemma OtherShaft(plane: nat, b: seq<byte>, p: int, v: byte, m: seq<byte>, t: seq<byte>, q: int)
    requires Fall(plane, b, p, v, m, t) && Poised(plane, b, q) && q != p
    ensures ShaftKept(plane, b, m[Landing(plane, b, p) := v], q)
  {
    hide Firm, Landing, Grains, Settled, SoloKept, Unsettled, Over, FewerGrains, Still, FirmStays;
    var b', j, jq := b[p := AIR], Landing(plane, b, p), Landing(plane, b, q);
    FallCounts(plane, b, p, v, m, t);
    OtherPoised(plane, b, p, q);
    OtherLanding(plane, b, p, q);
    FallLengths(plane, b, p, v, m, t);
    assert ShaftKept(plane, b', m, q);
    if Poised(plane, m, q) && m[q] == b'[q] && Landing(plane, m, q) == jq
       && (Topped(plane, b', q) ==> Topped(plane, m, q)) {
      if jq <= j < q {
        OwnLanding(plane, b, p, q);
      }
      GrainBeside(plane, m, j, v, q);
    } else {
      GrainKeepsFirm(plane, m, j, v, jq);
    }
  }

  lemma FallLengths(plane: nat, b: seq<byte>, p: int, v: byte, m: seq<byte>, t: seq<byte>)
    requires Fall(plane, b, p, v, m, t)
    ensures |b| == |m| == |t|
  {
    hide Firm, Landing, Grains, Settled, SoloKept, ShaftsKept, Unsettled, FewerGrains;
  }

  lemma FallShafts(plane: nat, b: seq<byte>, p: int, v: byte, m: seq<byte>, t: seq<byte>)
    requires Fall(plane, b, p, v, m, t)
    ensures FewerGrains(b, t) && ShaftsKept(plane, b, t)
  {
    hide Firm, Landing, Poised, ShaftKept, Grains, Unsettled, Settled, SoloKept;
    FallCounts(plane, b, p, v, m, t);
    forall q | Poised(plane, b, q)
      ensures ShaftKept(plane, b, t, q)
    {
      PoisedCell(plane, b, q);
      if q == p {
        FallOwnShaft(plane, b, p, v, m, t);
      } else {
        OtherShaft(plane, b, p, v, m, t, q);
        ShaftKeptTrans(plane, b, m[Landing(plane, b, p) := v], t, q);
      }
    }
  }

  lemma PoisedCell(plane: nat, b: seq<byte>, q: int)
    requires Poised(plane, b, q)
    ensures 0 <= q < |b| && IsGrain(b[q])
  {
  }

  /** A grain that falls alone arrives, and then nothing can fall. */
  lemma FallSolo(plane: nat, b: seq<byte>, p: int, v: byte, m: seq<byte>, t: seq<byte>)
    requires Fall(plane, b, p, v, m, t)
    ensures SoloKept(plane, b, t) && Still(plane, b, t)
  {
    hide Firm, Landing, Grains, ShaftsKept, SoloKept;
    FallCounts(plane, b, p, v, m, t);
    CanFall(plane, b, p);
    if Solo(plane, b, p) {
      OnlyOne(plane, b, p);
      Lands(plane, b, p, v, m);
    }
    AloneKept(plane, b, p, t);
  }

  lemma AloneKept(plane: nat, b: seq<byte>, p: int, t: seq<byte>)
    requires |b| == |t| && Unsettled(plane, b, p)
    requires Solo(plane, b, p) ==> Grains(t) == Grains(b) && Settled(plane, t)
    ensures SoloKept(plane, b, t) && Still(plane, b, t)
  {
    hide Poised, Grains;
  }

  lemma OnlyOne(plane: nat, b: seq<byte>, p: int)
    requires Solo(plane, b, p)
    ensures Settled(plane, b[p := AIR])
  {
    hide Firm, Landing;
    var c := b[p := AIR];
    forall i | 0 <= i < |c|
      ensures !Unsettled(plane, c, i)
    {
      assert Unsettled(plane, b, i) ==> i == p;
    }
  }

  lemma Lands(plane: nat, b: seq<byte>, p: int, v: byte, m: seq<byte>)
    requires 0 <= p < |b| && IsGrain(v) && Still(plane, b[p := AIR], m) && Settled(plane, b[p := AIR])
    requires 0 < plane <= Landing(plane, b, p) < p && !IsPassable(b[Landing(plane, b, p) - plane])
    ensures var j := Landing(plane, b, p); IsPassable(m[j]) && Settled(plane, m[j := v])
  {
    hide Landing, Grains;
    var j := Landing(plane, b, p);
    LandingLower(plane, b, p);
    var c := m[j := v];
    forall i | 0 <= i < |m|
      ensures !Unsettled(plane, c, i)
    {
      assert !Unsettled(plane, m, i);
    }
  }

  lemma FallOrderly(plane: nat, b: seq<byte>, p: int, v: byte, m: seq<byte>, t: seq<byte>)
    requires Fall(plane, b, p, v, m, t) && FirmStays(plane, b, t)
    ensures Orderly(plane, b, t)
  {
    hide Fall, Firm, FirmStays, ShaftsKept, SoloKept, Still;
    FallShafts(plane, b, p, v, m, t);
    FallSolo(plane, b, p, v, m, t);
  }

  /** A grain that falls alone changes exactly its start and its landing, apart from flooded air. */
  lemma FallTidy(plane: nat, b: seq<byte>, p: int, v: byte, m: seq<byte>, t: seq<byte>)
    requires Fall(plane, b, p, v, m, t)
    requires Tidy(plane, b[p := AIR], m) && Tidy(plane, m[Landing(plane, b, p) := v], t)
    ensures Tidy(plane, b, t)
  {
    hide Firm, Landing, Grains, ShaftsKept, SoloKept, Poised;
    var j := Landing(plane, b, p);
    CanFall(plane, b, p);
    if Solo(plane, b, p) {
      OnlyOne(plane, b, p);
      Lands(plane, b, p, v, m);
    }
  }
}
