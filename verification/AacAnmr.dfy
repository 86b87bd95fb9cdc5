/** The trellis search for AAC scalefactors: a Viterbi pass over at most 61 indices per band and its backtrack. */
module AacAnmr {
  import opened PrefixCode
  import Factors = AacScalefactors

  const STATES: nat := 61
  const DIFF_ZERO: nat := 60

  /** Path costs are exact; an unreached state costs infinity. */
  datatype Cost = Fin(value: real) | Inf {
    function Plus(x: real): Cost {
      if Inf? then Inf else Fin(value + x)
    }

    predicate Less(c: Cost) {
      Fin? && (c.Inf? || value < c.value)
    }

    predicate AtMost(c: Cost) {
      c.Inf? || (Fin? && value <= c.value)
    }
  }

  /** A band with nothing to code keeps the previous index; a coded band may use the indices low..high-1. */
  datatype Band =
    | Zero
    | Coded(low: nat, high: nat, dist: nat -> real)

  ghost predicate IsInput(bands: seq<Band>, range: nat, bits: seq<nat>) {
    && range < STATES && |bits| == 2 * DIFF_ZERO + 1
    && forall k | 0 <= k < |bands| && bands[k].Coded? :: bands[k].low < STATES && bands[k].high <= STATES
  }

  // ----- index sequences and their cost

  /** The cost of going from index i to index q in a band; infinite when the move is not allowed. */
  function StepCost(band: Band, range: nat, bits: seq<nat>, i: nat, q: nat): Cost
    requires range < STATES && |bits| == 2 * DIFF_ZERO + 1 && (band.Coded? ==> band.high <= STATES)
  {
    match band
    case Zero => if i == q < range then Fin(1.0) else Inf
    case Coded(low, high, dist) =>
      if low <= q < high && i < range then Fin(dist(q) + bits[q - i + DIFF_ZERO] as real) else Inf
  }

  /** The cost of a whole sequence of indices: the state before the first band, then one per band. */
  function PathCost(bands: seq<Band>, range: nat, bits: seq<nat>, path: seq<nat>): Cost
    requires IsInput(bands, range, bits) && |path| == |bands| + 1
  {
    if bands == [] then Fin(0.0)
    else
      var n := |bands| - 1;
      var step := StepCost(bands[n], range, bits, path[n], path[n + 1]);
      if step.Inf? then Inf else PathCost(bands[..n], range, bits, path[..n + 1]).Plus(step.value)
  }

  /** Every index is one of the 61 of the trellis. */
  ghost predicate IsPath(bands: seq<Band>, path: seq<nat>) {
    |path| == |bands| + 1 && forall k | 0 <= k < |path| :: path[k] < STATES
  }

  // ----- the recurrence the search fills in

  function Best(bands: seq<Band>, range: nat, bits: seq<nat>, q: nat): Cost
    requires IsInput(bands, range, bits) && q < STATES
    decreases |bands|, STATES
  {
    if bands == [] then Fin(0.0)
    else
      var n := |bands| - 1;
      match bands[n]
      case Zero => if q < range then Best(bands[..n], range, bits, q).Plus(1.0) else Inf
      case Coded(low, high, _) => if low <= q < high then BestVia(bands, range, bits, q, range) else Inf
  }

  /** The least cost of reaching q in the last band from an index below m. */
  function BestVia(bands: seq<Band>, range: nat, bits: seq<nat>, q: nat, m: nat): Cost
    requires IsInput(bands, range, bits) && bands != [] && bands[|bands| - 1].Coded? && q < STATES && m <= range
    decreases |bands|, m
  {
    if m == 0 then Inf
    else
      var c := Reach(bands, range, bits, q, m - 1);
      var r := BestVia(bands, range, bits, q, m - 1);
      if c.Less(r) then c else r
  }

  /** The cost of reaching q in the last, coded band from index i. */
  function Reach(bands: seq<Band>, range: nat, bits: seq<nat>, q: nat, i: nat): Cost
    requires IsInput(bands, range, bits) && bands != [] && bands[|bands| - 1].Coded? && q < STATES && i < range
    decreases |bands|, 0
  {
    var n := |bands| - 1;
    Best(bands[..n], range, bits, i).Plus(bands[n].dist(q)).Plus(bits[q - i + DIFF_ZERO] as real)
  }

  lemma {:induction false} BestViaAtMost(bands: seq<Band>, range: nat, bits: seq<nat>, q: nat, m: nat, i: nat)
    requires IsInput(bands, range, bits) && bands != [] && bands[|bands| - 1].Coded? && q < STATES && i < m <= range
    ensures BestVia(bands, range, bits, q, m).AtMost(Reach(bands, range, bits, q, i))
    decreases m
  {
    hide Reach, IsInput;
    if i < m - 1 {
      BestViaAtMost(bands, range, bits, q, m - 1, i);
    }
  }

  lemma {:induction false} BestViaAttained(bands: seq<Band>, range: nat, bits: seq<nat>, q: nat, m: nat) returns (i: nat)
    requires IsInput(bands, range, bits) && bands != [] && bands[|bands| - 1].Coded? && q < STATES && m <= range
    requires BestVia(bands, range, bits, q, m).Fin?
    ensures i < m && BestVia(bands, range, bits, q, m) == Reach(bands, range, bits, q, i)
    decreases m
  {
    hide Reach, IsInput;
    if Reach(bands, range, bits, q, m - 1).Less(BestVia(bands, range, bits, q, m - 1)) {
      i := m - 1;
    } else {
      i := BestViaAttained(bands, range, bits, q, m - 1);
    }
  }

  /** No sequence of indices ending in q is cheaper than the recurrence says. */
  lemma {:induction false} BestIsLeast(bands: seq<Band>, range: nat, bits: seq<nat>, path: seq<nat>)
    requires IsInput(bands, range, bits) && IsPath(bands, path)
    ensures Best(bands, range, bits, path[|bands|]).AtMost(PathCost(bands, range, bits, path))
    decreases |bands|
  {
    if bands != [] {
      var n := |bands| - 1;
      BestIsLeast(bands[..n], range, bits, path[..n + 1]);
      if bands[n].Coded? && path[n] < range {
        BestViaAtMost(bands, range, bits, path[n + 1], range, path[n]);
      }
    }
  }

  /** One step back: prev attains the best cost of q. */
  ghost predicate IsPrev(bands: seq<Band>, range: nat, bits: seq<nat>, q: nat, prev: int)
    requires IsInput(bands, range, bits) && bands != [] && q < STATES
  {
    var n := |bands| - 1;
    0 <= prev < range && StepCost(bands[n], range, bits, prev, q).Fin? &&
    Best(bands, range, bits, q) == Best(bands[..n], range, bits, prev).Plus(StepCost(bands[n], range, bits, prev, q).value)
  }

  lemma IsPrevOfReach(bands: seq<Band>, range: nat, bits: seq<nat>, q: nat, i: nat)
    requires IsInput(bands, range, bits) && bands != [] && bands[|bands| - 1].Coded? && q < STATES && i < range
    requires bands[|bands| - 1].low <= q < bands[|bands| - 1].high
    requires BestVia(bands, range, bits, q, range) == Reach(bands, range, bits, q, i)
    ensures IsPrev(bands, range, bits, q, i)
  {
    hide BestVia;
  }

  lemma {:induction false} BestAttained(bands: seq<Band>, range: nat, bits: seq<nat>, q: nat) returns (path: seq<nat>)
    requires IsInput(bands, range, bits) && q < STATES && Best(bands, range, bits, q).Fin?
    ensures IsPath(bands, path) && path[|bands|] == q
    ensures PathCost(bands, range, bits, path) == Best(bands, range, bits, q)
    decreases |bands|
  {
    path := [q];
    if bands != [] {
      var n := |bands| - 1;
      var i := q;
      if bands[n].Coded? {
        i := BestViaAttained(bands, range, bits, q, range);
        IsPrevOfReach(bands, range, bits, q, i);
      }
      path := BestAttained(bands[..n], range, bits, i);
      path := ExtendPath(bands, range, bits, path, q);
    }
  }

  lemma ExtendPath(bands: seq<Band>, range: nat, bits: seq<nat>, path: seq<nat>, q: nat) returns (longer: seq<nat>)
    requires IsInput(bands, range, bits) && bands != [] && q < STATES && IsPath(bands[..|bands| - 1], path)
    requires PathCost(bands[..|bands| - 1], range, bits, path) == Best(bands[..|bands| - 1], range, bits, path[|bands| - 1])
    requires IsPrev(bands, range, bits, q, path[|bands| - 1])
    ensures longer == path + [q] && IsPath(bands, longer)
    ensures PathCost(bands, range, bits, longer) == Best(bands, range, bits, q)
  {
    hide Best;
    longer := path + [q];
    assert longer[..|bands|] == path;
  }

  // ----- when a path exists at all

  /** Some index can be carried into and out of every band. */
  predicate Feasible(bands: seq<Band>, range: nat) {
    && (bands != [] ==> range > 0)
    && (forall k | 0 <= k < |bands| && bands[k].Coded? ::
          bands[k].low < bands[k].high && (k < |bands| - 1 ==> bands[k].low < range))
  }

  ghost predicate Reachable(bands: seq<Band>, range: nat, bits: seq<nat>)
    requires IsInput(bands, range, bits)
  {
    exists q: nat | q < STATES :: Best(bands, range, bits, q).Fin?
  }

  /** The recurrence is finite somewhere exactly when the ranges of the bands can be chained. */
  lemma FeasibleIff(bands: seq<Band>, range: nat, bits: seq<nat>)
    requires IsInput(bands, range, bits)
    ensures Feasible(bands, range) <==> Reachable(bands, range, bits)
  {
    if Feasible(bands, range) {
      FeasibleBest(bands, range, bits);
    }
    if Reachable(bands, range, bits) {
      var q: nat :| q < STATES && Best(bands, range, bits, q).Fin?;
      BestFeasible(bands, range, bits, q);
    }
  }

  /** An index at which a feasible prefix ends and from which the next band can start. */
  function Exit(bands: seq<Band>, range: nat): (q: nat) {
    if bands == [] then 0
    else match bands[|bands| - 1]
         case Zero => Exit(bands[..|bands| - 1], range)
         case Coded(low, _, _) => low
  }

  lemma {:induction false} FeasibleBest(bands: seq<Band>, range: nat, bits: seq<nat>)
    requires IsInput(bands, range, bits) && Feasible(bands, range)
    ensures Exit(bands, range) < STATES && Best(bands, range, bits, Exit(bands, range)).Fin?
    ensures (bands == [] || bands[|bands| - 1].Zero? || bands[|bands| - 1].low < range) && range > 0 ==> Exit(bands, range) < range
    decreases |bands|
  {
    if bands != [] {
      var n := |bands| - 1;
      FeasibleBest(bands[..n], range, bits);
      if bands[n].Coded? {
        var i := Exit(bands[..n], range);
        BestViaAtMost(bands, range, bits, bands[n].low, range, i);
      }
    }
  }

  lemma {:induction false} BestFeasible(bands: seq<Band>, range: nat, bits: seq<nat>, q: nat)
    requires IsInput(bands, range, bits) && q < STATES && Best(bands, range, bits, q).Fin?
    ensures Feasible(bands, range)
    ensures q < range ==> forall k | 0 <= k < |bands| && bands[k].Coded? :: bands[k].low < range
    decreases |bands|
  {
    if bands != [] {
      var n := |bands| - 1;
      if bands[n].Zero? {
        BestFeasible(bands[..n], range, bits, q);
      } else {
        var i := BestViaAttained(bands, range, bits, q, range);
        BestFeasible(bands[..n], range, bits, i);
      }
      forall k | 0 <= k < n && bands[k].Coded?
        ensures bands[k].low < bands[k].high && bands[k].low < range
      {
        assert bands[k] == bands[..n][k];
      }
    }
  }

  // ----- the search, on the arrays of the trellis

  /** Row k of the trellis holds the recurrence over the first k bands, and a step back wherever it is finite. */
  ghost predicate RowDone(cost: array2<Cost>, prev: array2<int>, bands: seq<Band>, range: nat, bits: seq<nat>, k: nat)
    requires IsInput(bands, range, bits) && k <= |bands|
    requires cost.Length0 == prev.Length0 > |bands| && cost.Length1 == prev.Length1 == STATES
    reads cost, prev
  {
    forall q | 0 <= q < STATES ::
      cost[k, q] == Best(bands[..k], range, bits, q) &&
      (k > 0 && cost[k, q].Fin? ==> IsPrev(bands[..k], range, bits, q, prev[k, q]))
  }

  /** The cheapest way into q: the inner loop over the previous index. */
  method FillState(cost: array2<Cost>, prev: array2<int>, bands: seq<Band>, range: nat, bits: seq<nat>, k: nat, q: nat)
    requires IsInput(bands, range, bits) && 0 < k <= |bands| && q < STATES
    requires cost.Length0 == prev.Length0 > |bands| && cost.Length1 == prev.Length1 == STATES
    requires bands[k - 1].Coded? && bands[k - 1].low <= q < bands[k - 1].high
    requires cost[k, q] == Inf && RowDone(cost, prev, bands, range, bits, k - 1)
    modifies cost, prev
    ensures cost[k, q] == Best(bands[..k], range, bits, q)
    ensures cost[k, q].Fin? ==> IsPrev(bands[..k], range, bits, q, prev[k, q])
    ensures forall j, i | 0 <= j < cost.Length0 && 0 <= i < STATES && !(j == k && i == q) ::
              cost[j, i] == old(cost[j, i]) && prev[j, i] == old(prev[j, i])
  {
    ghost var b := bands[..k];
    assert b[..k - 1] == bands[..k - 1] && b[k - 1] == bands[k - 1];
    var dist := bands[k - 1].dist(q);
    for i := 0 to range
      invariant cost[k, q] == BestVia(b, range, bits, q, i)
      invariant cost[k, q].Fin? ==> 0 <= prev[k, q] < i && cost[k, q] == Reach(b, range, bits, q, prev[k, q])
      invariant forall j, i | 0 <= j < cost.Length0 && 0 <= i < STATES && !(j == k && i == q) ::
                  cost[j, i] == old(cost[j, i]) && prev[j, i] == old(prev[j, i])
    {
      var c := cost[k - 1, i].Plus(dist).Plus(bits[q - i + DIFF_ZERO] as real);
      assert c == Reach(b, range, bits, q, i);
      if c.Less(cost[k, q]) {
        cost[k, q] := c;
        prev[k, q] := i;
      }
    }
    if cost[k, q].Fin? {
      IsPrevOfReach(b, range, bits, q, prev[k, q]);
    }
  }

  /** One stage of the trellis, for one band. */
  method FillRow(cost: array2<Cost>, prev: array2<int>, bands: seq<Band>, range: nat, bits: seq<nat>, k: nat)
    requires IsInput(bands, range, bits) && 0 < k <= |bands|
    requires cost.Length0 == prev.Length0 > |bands| && cost.Length1 == prev.Length1 == STATES
    requires RowDone(cost, prev, bands, range, bits, k - 1)
    requires forall q | 0 <= q < STATES :: cost[k, q] == Inf
    modifies cost, prev
    ensures RowDone(cost, prev, bands, range, bits, k)
    ensures forall j, i | 0 <= j < cost.Length0 && 0 <= i < STATES && j != k ::
              cost[j, i] == old(cost[j, i]) && prev[j, i] == old(prev[j, i])
  {
    ghost var b := bands[..k];
    assert b[..k - 1] == bands[..k - 1] && b[k - 1] == bands[k - 1];
    match bands[k - 1]
    case Zero =>
      for q := 0 to range
        invariant forall i | 0 <= i < STATES :: cost[k, i] == if i < q then Best(b, range, bits, i) else Inf
        invariant forall i | 0 <= i < q && cost[k, i].Fin? :: IsPrev(b, range, bits, i, prev[k, i])
        invariant forall j, i | 0 <= j < cost.Length0 && 0 <= i < STATES && j != k ::
                    cost[j, i] == old(cost[j, i]) && prev[j, i] == old(prev[j, i])
      {
        cost[k, q] := cost[k - 1, q].Plus(1.0);
        prev[k, q] := q;
      }
    case Coded(low, high, _) =>
      var q := low;
      while q < high
        invariant low <= q && (q <= high || q == low)
        invariant forall i | 0 <= i < STATES :: cost[k, i] == if low <= i < q then Best(b, range, bits, i) else Inf
        invariant forall i | low <= i < q && cost[k, i].Fin? :: IsPrev(b, range, bits, i, prev[k, i])
        invariant forall j, i | 0 <= j < cost.Length0 && 0 <= i < STATES && j != k ::
                    cost[j, i] == old(cost[j, i]) && prev[j, i] == old(prev[j, i])
      {
        FillState(cost, prev, bands, range, bits, k, q);
        q := q + 1;
      }
  }

  /** The whole search: whether any path exists, and then the indices of a cheapest one, state before the first band included. */
  method Search(bands: seq<Band>, range: nat, bits: seq<nat>) returns (feasible: bool, path: seq<nat>)
    requires IsInput(bands, range, bits)
    ensures feasible <==> Feasible(bands, range)
    ensures feasible ==> IsPath(bands, path) && PathCost(bands, range, bits, path).Fin?
    ensures feasible ==> forall other | IsPath(bands, other) ::
              PathCost(bands, range, bits, path).AtMost(PathCost(bands, range, bits, other))
  {
    hide Best, IsPrev, PathCost;
    var n := |bands|;
    var cost := new Cost[n + 1, STATES]((j, _) => if j == 0 then Fin(0.0) else Inf);
    var prev := new int[n + 1, STATES]((j, _) => if j == 0 then -1 else -2);
    NoBands(range, bits);
    for k := 1 to n + 1
      invariant forall j | 0 <= j < k :: RowDone(cost, prev, bands, range, bits, j)
      invariant forall j, q | k <= j <= n && 0 <= q < STATES :: cost[j, q] == Inf
    {
      label Before:
      FillRow(cost, prev, bands, range, bits, k);
      forall j | 0 <= j < k
        ensures RowDone(cost, prev, bands, range, bits, j)
      {
        assert old@Before(RowDone(cost, prev, bands, range, bits, j));
        assert forall q | 0 <= q < STATES :: cost[j, q] == old@Before(cost[j, q]) && prev[j, q] == old@Before(prev[j, q]);
      }
    }
    assert bands[..n] == bands;
    var q, least := 0, cost[n, 0];
    for i := 1 to STATES
      invariant 0 <= q < STATES && least == cost[n, q]
      invariant forall r | 0 <= r < i :: least.AtMost(cost[n, r])
    {
      if cost[n, i].Less(least) {
        q, least := i, cost[n, i];
      }
    }
    feasible := least.Fin?;
    FeasibleIff(bands, range, bits);
    assert RowDone(cost, prev, bands, range, bits, n);
    assert feasible ==> Best(bands, range, bits, q).Fin?;
    path := [];
    if feasible {
      path := Backtrack(cost, prev, bands, range, bits, q);
      forall other | IsPath(bands, other)
        ensures PathCost(bands, range, bits, path).AtMost(PathCost(bands, range, bits, other))
      {
        BestIsLeast(bands, range, bits, other);
        assert least.AtMost(cost[n, other[n]]);
      }
    }
  }

  lemma NoBands(range: nat, bits: seq<nat>)
    requires IsInput([], range, bits)
    ensures forall q | 0 <= q < STATES :: Best([], range, bits, q) == Fin(0.0)
  {
  }

  lemma StepBack(bands: seq<Band>, range: nat, bits: seq<nat>, k: nat, q: nat, prev: int)
    requires IsInput(bands, range, bits) && 0 < k <= |bands| && q < STATES && Best(bands[..k], range, bits, q).Fin?
    requires IsPrev(bands[..k], range, bits, q, prev)
    ensures 0 <= prev < range && Best(bands[..k - 1], range, bits, prev).Fin?
  {
    assert bands[..k][..k - 1] == bands[..k - 1];
    hide Best, StepCost;
  }

  /** Follows the steps back from the last band to the first. */
  method Backtrack(cost: array2<Cost>, prev: array2<int>, bands: seq<Band>, range: nat, bits: seq<nat>, last: nat)
    returns (path: seq<nat>)
    requires IsInput(bands, range, bits) && last < STATES
    requires cost.Length0 == prev.Length0 > |bands| && cost.Length1 == prev.Length1 == STATES
    requires forall j | 0 <= j <= |bands| :: RowDone(cost, prev, bands, range, bits, j)
    requires cost[|bands|, last].Fin?
    ensures IsPath(bands, path) && path[|bands|] == last
    ensures PathCost(bands, range, bits, path) == Best(bands, range, bits, last) == cost[|bands|, last]
  {
    hide IsPrev, Best, PathCost, StepCost;
    var k, q := |bands|, last;
    var tail: seq<nat> := [last];
    while k > 0
      invariant 0 <= k <= |bands| && 0 <= q < STATES && cost[k, q].Fin?
      invariant |tail| == |bands| - k + 1 && tail[0] == q && tail[|bands| - k] == last
      invariant forall i | 0 <= i < |tail| :: tail[i] < STATES
      invariant forall i | 0 <= i < |bands| - k ::
                  IsPrev(bands[..k + i + 1], range, bits, tail[i + 1], tail[i])
    {
      assert RowDone(cost, prev, bands, range, bits, k) && RowDone(cost, prev, bands, range, bits, k - 1);
      StepBack(bands, range, bits, k, q, prev[k, q]);
      q := prev[k, q];
      k := k - 1;
      tail := [q] + tail;
    }
    path := tail;
    ChainCost(bands, range, bits, path, |bands|);
    assert bands[..|bands|] == bands && path[..|bands| + 1] == path;
    assert RowDone(cost, prev, bands, range, bits, |bands|);
  }

  /** Steps that each attain the best cost add up to the best cost. */
  lemma {:induction false} ChainCost(bands: seq<Band>, range: nat, bits: seq<nat>, path: seq<nat>, k: nat)
    requires IsInput(bands, range, bits) && IsPath(bands, path) && k <= |bands|
    requires forall i | 0 <= i < |bands| :: IsPrev(bands[..i + 1], range, bits, path[i + 1], path[i])
    ensures PathCost(bands[..k], range, bits, path[..k + 1]) == Best(bands[..k], range, bits, path[k])
  {
    if k > 0 {
      ChainCost(bands, range, bits, path, k - 1);
      var b := bands[..k];
      assert b[..k - 1] == bands[..k - 1];
      assert IsPrev(bands[..k - 1 + 1], range, bits, path[k], path[k - 1]);
      var longer := ExtendPath(b, range, bits, path[..k], path[k]);
      assert longer == path[..k + 1];
    }
  }

  // ----- what the cost is

  /** The indices of the coded bands, in order. */
  function Indices(bands: seq<Band>, path: seq<nat>): seq<int>
    requires |path| == |bands| + 1
  {
    if bands == [] then []
    else
      var n := |bands| - 1;
      Indices(bands[..n], path[..n + 1]) + if bands[n].Coded? then [path[n + 1]] else []
  }

  /** The distortion of the coded bands, and one for every other band. */
  function Distortion(bands: seq<Band>, path: seq<nat>): real
    requires |path| == |bands| + 1
  {
    if bands == [] then 0.0
    else
      var n := |bands| - 1;
      Distortion(bands[..n], path[..n + 1]) + if bands[n].Coded? then bands[n].dist(path[n + 1]) else 1.0
  }

  /** The cost of a sequence is the distortion and the length of the differential code of its scalefactors, from the state before the
      first band on. */
  lemma {:induction false} CostIsWritten(bands: seq<Band>, range: nat, bits: seq<nat>, codes: seq<Word>, path: seq<nat>)
    requires IsInput(bands, range, bits) && IsPath(bands, path) && PathCost(bands, range, bits, path).Fin?
    requires |codes| == |bits| && forall d | 0 <= d < |codes| :: bits[d] == |codes[d]|
    ensures var sfs := Indices(bands, path);
            && Factors.Codable(path[0], sfs) && Factors.LastOf(path[0], sfs) == path[|bands|]
            && PathCost(bands, range, bits, path).value
               == Distortion(bands, path) + |Factors.WriteDifferences(codes, path[0], sfs)| as real
  {
    hide PathCost, Indices, Distortion, Factors.Codable, Factors.WriteDifferences;
    CostStep(bands, range, bits, path);
    if bands != [] {
      var n := |bands| - 1;
      CostIsWritten(bands[..n], range, bits, codes, path[..n + 1]);
      if bands[n].Coded? {
        Factors.DifferenceAdded(codes, path[0], Indices(bands[..n], path[..n + 1]), path[n + 1]);
      }
    } else {
      NothingWritten(codes, path[0]);
    }
  }

  lemma NothingWritten(codes: seq<Word>, start: int)
    requires |codes| == 2 * DIFF_ZERO + 1
    ensures Factors.Codable(start, []) && Factors.WriteDifferences(codes, start, []) == []
  {
  }

  lemma CostStep(bands: seq<Band>, range: nat, bits: seq<nat>, path: seq<nat>)
    requires IsInput(bands, range, bits) && IsPath(bands, path) && PathCost(bands, range, bits, path).Fin?
    ensures var cost, sfs, d := PathCost(bands, range, bits, path).value, Indices(bands, path), Distortion(bands, path);
            if bands == [] then cost == 0.0 && sfs == [] && d == 0.0
            else
              var n := |bands| - 1;
              var b, p := bands[..n], path[..n + 1];
              && IsInput(b, range, bits) && IsPath(b, p) && PathCost(b, range, bits, p).Fin?
              && if bands[n].Zero? then
                   path[n + 1] == path[n] && sfs == Indices(b, p) && d == Distortion(b, p) + 1.0
                   && cost == PathCost(b, range, bits, p).value + 1.0
                 else
                   && sfs == Indices(b, p) + [path[n + 1]] && d == Distortion(b, p) + bands[n].dist(path[n + 1])
                   && cost == PathCost(b, range, bits, p).value + bands[n].dist(path[n + 1])
                              + bits[path[n + 1] - path[n] + DIFF_ZERO] as real
  {
  }

  // ----- the index window and the result

  /** The window q0..q1 of indices, cut to 60 steps around the mean energy and pushed back inside its old limits. */
  function Window(low: int, high: int, energy: int): (int, int) {
    if high - low <= 60 then (low, high)
    else
      var q0, q1 := energy - 30, energy + 30;
      if q0 < low then (low, q1 + (low - q0))
      else if q1 > high then (q0 - (q1 - high), high)
      else (q0, q1)
  }

  lemma WindowFits(low: int, high: int, energy: int)
    requires 0 <= low <= high <= 255
    ensures var (q0, q1) := Window(low, high, energy);
            low <= q0 <= q1 <= high && q1 - q0 <= 60 && (high - low > 60 ==> q1 - q0 == 60)
  {
  }

  function Distance(x: int, y: int): nat {
    if x < y then y - x else x - y
  }

  /** When it is cut, no window of 60 steps inside the limits has its middle nearer to the energy. */
  lemma WindowNearest(low: int, high: int, energy: int, other: int)
    requires high - low > 60 && low <= other && other + 60 <= high
    ensures var (q0, q1) := Window(low, high, energy);
            q1 == q0 + 60 && Distance(q0 + 30, energy) <= Distance(other + 30, energy)
  {
  }

  /** Writes the chosen indices into the scalefactor array: any two of them differ by at most 60. */
  method SearchForQuantizers(sf: array<int>, addr: seq<nat>, bands: seq<Band>, bits: seq<nat>, low: int, high: int, energy: int)
    returns (feasible: bool, path: seq<nat>)
    requires 0 <= low <= high <= 255 && |addr| == |bands|
    requires forall k | 0 <= k < |addr| :: addr[k] < sf.Length
    requires forall k, n | 0 <= k < n < |addr| :: addr[k] != addr[n]
    requires IsInput(bands, 0, bits)
    modifies sf
    ensures var (q0, q1) := Window(low, high, energy);
            && 0 <= q1 - q0 <= 60 && IsInput(bands, q1 - q0, bits)
            && (feasible <==> Feasible(bands, q1 - q0))
            && (feasible ==>
                  && IsPath(bands, path)
                  && (forall other | IsPath(bands, other) ::
                        PathCost(bands, q1 - q0, bits, path).AtMost(PathCost(bands, q1 - q0, bits, other)))
                  && forall k | 0 <= k < |addr| :: sf[addr[k]] == path[k + 1] + q0)
            && (feasible ==> forall k, n | 0 <= k < |addr| && 0 <= n < |addr| :: -60 <= sf[addr[k]] - sf[addr[n]] <= 60)
    ensures forall i | 0 <= i < sf.Length && (feasible ==> i !in addr) :: sf[i] == old(sf[i])
  {
    hide PathCost, Feasible;
    WindowFits(low, high, energy);
    var (q0, q1) := Window(low, high, energy);
    feasible, path := Search(bands, q1 - q0, bits);
    if feasible {
      var idx := |bands|;
      while idx > 0
        invariant 0 <= idx <= |bands|
        invariant forall k | idx <= k < |addr| :: sf[addr[k]] == path[k + 1] + q0
        invariant forall i | 0 <= i < sf.Length && i !in addr :: sf[i] == old(sf[i])
      {
        sf[addr[idx - 1]] := path[idx] + q0;
        idx := idx - 1;
      }
    }
  }
}
