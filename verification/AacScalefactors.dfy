/** Scalefactors of one AAC channel: the two-loop rate search, and the differential code they are written in. */
module AacScalefactors {
  import opened PrefixCode
  import opened Wrappers

  const MAX_DIFF: int := 60
  const DIFF_ZERO: int := 60

  /** Positions of the bands of the first window of each group, in coding order; the first one is position 0. */
  ghost predicate IsOrder(order: seq<nat>, size: nat) {
    && order != [] && order[0] == 0
    && (forall k | 0 <= k < |order| :: order[k] < size)
    && forall k, n | 0 <= k < n < |order| :: order[k] != order[n]
  }

  /** Any two of the listed scalefactors differ by at most 60. */
  ghost predicate Spread(sf: seq<int>, order: seq<nat>) {
    && (forall k | 0 <= k < |order| :: order[k] < |sf|)
    && forall k, n | 0 <= k < |order| && 0 <= n < |order| :: -MAX_DIFF <= sf[order[k]] - sf[order[n]] <= MAX_DIFF
  }

  /** What the search asks about the signal: bits and distortion of a band at a scalefactor, its limit, and the smallest codebook. */
  datatype Signal = Signal(bits: (nat, int) -> nat, dist: (nat, int) -> real, limit: nat -> real, book: (nat, int) -> nat)

  // ----- the saturating steps

  function Up(x: int, q: nat): int {
    if x < 218 - q then x + q else x
  }

  function Down(x: int, q: nat): int {
    if x > 60 - q then x - q else x
  }

  /** A saturating step of at most 32 keeps two scalefactors within 60 of each other. */
  lemma StepSpread(x: int, y: int, q: nat)
    requires -MAX_DIFF <= x - y <= MAX_DIFF && q <= 32
    ensures -MAX_DIFF <= Up(x, q) - Up(y, q) <= MAX_DIFF
    ensures -MAX_DIFF <= Down(x, q) - Down(y, q) <= MAX_DIFF
  {
  }

  /** Upwards or not at all, by exactly q while that stays below 218; and downwards while x is above 60 - q. */
  lemma StepMoves(x: int, q: nat)
    ensures Up(x, q) == x + q || (Up(x, q) == x && x + q >= 218)
    ensures Down(x, q) == x - q || (Down(x, q) == x && x + q <= 60)
    ensures q > 0 ==> (Up(x, q) > x <==> x + q < 218) && (Down(x, q) < x <==> x + q > 60)
  {
  }

  function Clip(x: int, low: int, high: int): (r: int)
    ensures low <= high ==> low <= r <= high
  {
    if x < low then low else if x > high then high else x
  }

  /** A band takes part in the count when it is not zero and its scalefactor is below 218. */
  predicate Counted(sf: seq<int>, zeroes: seq<bool>, i: nat)
    requires i < |sf| == |zeroes|
  {
    !zeroes[i] && sf[i] < 218
  }

  /** The last of the first n bands that takes part. */
  function LastCounted(sf: seq<int>, zeroes: seq<bool>, order: seq<nat>, n: nat): (r: Option<nat>)
    requires IsOrder(order, |sf|) && |zeroes| == |sf| && n <= |order|
    ensures r.Some? ==> r.value < n
  {
    if n == 0 then None
    else if Counted(sf, zeroes, order[n - 1]) then Some(n - 1)
    else LastCounted(sf, zeroes, order, n - 1)
  }

  /** The bits of the first n bands: their data, and the code of each scalefactor's difference from the one before it. */
  function TotalBits(sf: seq<int>, zeroes: seq<bool>, order: seq<nat>, s: Signal, sfBits: seq<nat>, n: nat): nat
    requires IsOrder(order, |sf|) && |zeroes| == |sf| && |sfBits| == 2 * MAX_DIFF + 1 && Spread(sf, order) && n <= |order|
  {
    if n == 0 then 0
    else
      var i := order[n - 1];
      var before := TotalBits(sf, zeroes, order, s, sfBits, n - 1);
      if !Counted(sf, zeroes, i) then before
      else
        var prev := LastCounted(sf, zeroes, order, n - 1);
        before + s.bits(i, sf[i]) + if prev.Some? then sfBits[sf[i] - sf[order[prev.value]] + DIFF_ZERO] else 0
  }

  lemma CountNone(sf: seq<int>, zeroes: seq<bool>, order: seq<nat>, s: Signal, sfBits: seq<nat>)
    requires IsOrder(order, |sf|) && |zeroes| == |sf| && |sfBits| == 2 * MAX_DIFF + 1 && Spread(sf, order)
    ensures LastCounted(sf, zeroes, order, 0) == None && TotalBits(sf, zeroes, order, s, sfBits, 0) == 0
  {
  }

  lemma CountStep(sf: seq<int>, zeroes: seq<bool>, order: seq<nat>, s: Signal, sfBits: seq<nat>, n: nat)
    requires IsOrder(order, |sf|) && |zeroes| == |sf| && |sfBits| == 2 * MAX_DIFF + 1 && Spread(sf, order) && n < |order|
    ensures var i, last := order[n], LastCounted(sf, zeroes, order, n);
            if Counted(sf, zeroes, i) then
              && LastCounted(sf, zeroes, order, n + 1) == Some(n)
              && (last.Some? ==> 0 <= sf[i] - sf[order[last.value]] + DIFF_ZERO <= 2 * MAX_DIFF)
              && TotalBits(sf, zeroes, order, s, sfBits, n + 1) ==
                 TotalBits(sf, zeroes, order, s, sfBits, n) + s.bits(i, sf[i]) +
                 if last.Some? then sfBits[sf[i] - sf[order[last.value]] + DIFF_ZERO] else 0
            else
              && LastCounted(sf, zeroes, order, n + 1) == last
              && TotalBits(sf, zeroes, order, s, sfBits, n + 1) == TotalBits(sf, zeroes, order, s, sfBits, n)
  {
  }

  /** The least of the scalefactors counted so far, and the distortions set so far. */
  ghost predicate LeastTo(sf: seq<int>, zeroes: seq<bool>, order: seq<nat>, n: nat, given: int, least: int)
    requires IsOrder(order, |sf|) && |zeroes| == |sf| && n <= |order|
  {
    && least <= given && (forall k | 0 <= k < n && Counted(sf, zeroes, order[k]) :: least <= sf[order[k]])
    && (least == given || exists k | 0 <= k < n :: Counted(sf, zeroes, order[k]) && least == sf[order[k]])
  }

  ghost predicate DistsTo(sf: seq<int>, zeroes: seq<bool>, order: seq<nat>, s: Signal, n: nat, was: seq<real>, dists: seq<real>)
    requires IsOrder(order, |sf|) && |zeroes| == |sf| == |was| == |dists| && n <= |order|
  {
    && (forall k | 0 <= k < n && Counted(sf, zeroes, order[k]) ::
          dists[order[k]] == s.dist(order[k], sf[order[k]]) - s.bits(order[k], sf[order[k]]) as real)
    && forall i | 0 <= i < |sf| && (i !in order || !Counted(sf, zeroes, i)) :: dists[i] == was[i]
  }

  lemma LeastStep(sf: seq<int>, zeroes: seq<bool>, order: seq<nat>, n: nat, given: int, least: int)
    requires IsOrder(order, |sf|) && |zeroes| == |sf| && n < |order| && LeastTo(sf, zeroes, order, n, given, least)
    ensures var x := sf[order[n]];
            LeastTo(sf, zeroes, order, n + 1, given, if Counted(sf, zeroes, order[n]) && x < least then x else least)
  {
    hide Counted;
  }

  lemma DistStep(sf: seq<int>, zeroes: seq<bool>, order: seq<nat>, s: Signal, n: nat, was: seq<real>, dists: seq<real>)
    requires IsOrder(order, |sf|) && |zeroes| == |sf| == |was| == |dists| && n < |order|
    requires DistsTo(sf, zeroes, order, s, n, was, dists)
    ensures var i := order[n];
            DistsTo(sf, zeroes, order, s, n + 1, was,
                    if Counted(sf, zeroes, i) then dists[i := s.dist(i, sf[i]) - s.bits(i, sf[i]) as real] else dists)
  {
    hide Counted;
  }

  /** One pass over the bands: total bits, the least scalefactor seen, and each counted band's distortion. */
  method CountBits(sf: array<int>, zeroes: seq<bool>, order: seq<nat>, s: Signal, sfBits: seq<nat>, dists: array<real>, least: int)
    returns (total: nat, least': int)
    requires IsOrder(order, sf.Length) && |zeroes| == sf.Length == dists.Length && |sfBits| == 2 * MAX_DIFF + 1
    requires Spread(sf[..], order)
    modifies dists
    ensures total == TotalBits(sf[..], zeroes, order, s, sfBits, |order|)
    ensures LeastTo(sf[..], zeroes, order, |order|, least, least')
    ensures DistsTo(sf[..], zeroes, order, s, |order|, old(dists[..]), dists[..])
  {
    hide Spread, TotalBits, LastCounted, LeastTo, DistsTo;
    CountNone(sf[..], zeroes, order, s, sfBits);
    total, least' := 0, least;
    var prev := None;
    ghost var f, was := sf[..], dists[..];
    NothingCounted(f, zeroes, order, s, least, was);
    for n := 0 to |order|
      invariant f == sf[..]
      invariant total == TotalBits(f, zeroes, order, s, sfBits, n)
      invariant match LastCounted(f, zeroes, order, n)
                case None => prev == None
                case Some(k) => prev == Some(f[order[k]])
      invariant LeastTo(f, zeroes, order, n, least, least')
      invariant DistsTo(f, zeroes, order, s, n, was, dists[..])
    {
      var i := order[n];
      CountStep(f, zeroes, order, s, sfBits, n);
      LeastStep(f, zeroes, order, n, least, least');
      DistStep(f, zeroes, order, s, n, was, dists[..]);
      if !zeroes[i] && sf[i] < 218 {
        if sf[i] < least' {
          least' := sf[i];
        }
        var bits := s.bits(i, sf[i]);
        ghost var d := dists[..];
        dists[i] := s.dist(i, sf[i]) - bits as real;
        assert dists[..] == d[i := s.dist(i, f[i]) - s.bits(i, f[i]) as real];
        if prev.Some? {
          bits := bits + sfBits[sf[i] - prev.value + DIFF_ZERO];
        }
        total := total + bits;
        prev := Some(sf[i]);
      }
    }
  }

  lemma NothingCounted(sf: seq<int>, zeroes: seq<bool>, order: seq<nat>, s: Signal, least: int, dists: seq<real>)
    requires IsOrder(order, |sf|) && |zeroes| == |sf| == |dists|
    ensures LeastTo(sf, zeroes, order, 0, least, least) && DistsTo(sf, zeroes, order, s, 0, dists, dists)
  {
  }

  /** Moves every scalefactor one saturating step, coarser when over the target and finer otherwise. */
  method Step(sf: array<int>, over: bool, q: nat, ghost order: seq<nat>)
    requires Spread(sf[..], order) && q <= 32
    modifies sf
    ensures forall i | 0 <= i < sf.Length :: sf[i] == if over then Up(old(sf[i]), q) else Down(old(sf[i]), q)
    ensures Spread(sf[..], order)
  {
    ghost var was := sf[..];
    for i := 0 to sf.Length
      invariant forall k | 0 <= k < i :: sf[k] == if over then Up(was[k], q) else Down(was[k], q)
      invariant forall k | i <= k < sf.Length :: sf[k] == was[k]
    {
      if over {
        if sf[i] < 218 - q {
          sf[i] := sf[i] + q;
        }
      } else if sf[i] > 60 - q {
        sf[i] := sf[i] - q;
      }
    }
    forall k, n | 0 <= k < |order| && 0 <= n < |order|
      ensures -MAX_DIFF <= sf[..][order[k]] - sf[..][order[n]] <= MAX_DIFF
    {
      StepSpread(was[order[k]], was[order[n]], q);
    }
  }

  /** All scalefactors after one step. */
  function Stepped(sf: seq<int>, over: bool, q: nat): (r: seq<int>)
    ensures |r| == |sf|
  {
    seq(|sf|, i requires 0 <= i < |sf| => if over then Up(sf[i], q) else Down(sf[i], q))
  }

  // ----- the inner loop

  /** What the search is given besides the scalefactors. */
  datatype Job = Job(zeroes: seq<bool>, order: seq<nat>, s: Signal, sfBits: seq<nat>, target: nat)

  ghost predicate IsJob(job: Job, size: nat) {
    IsOrder(job.order, size) && |job.zeroes| == size && |job.sfBits| == 2 * MAX_DIFF + 1
  }

  /** The bits counted at these scalefactors. */
  function Total(job: Job, sf: seq<int>): nat
    requires IsJob(job, |sf|) && Spread(sf, job.order)
  {
    TotalBits(sf, job.zeroes, job.order, job.s, job.sfBits, |job.order|)
  }

  /** The steps halve, down to single ones. */
  function StepAt(q0: nat, n: nat): nat {
    if n == 0 then q0 else var q := StepAt(q0, n - 1) / 2; if q == 0 then 1 else q
  }

  /** A count after which the loop ends, with the step that follows it: at single steps, within two percent of the target, or with
      the first scalefactor saturated. */
  ghost predicate Enough(job: Job, q: nat, counted: seq<int>, after: seq<int>)
    requires IsJob(job, |counted|) && Spread(counted, job.order) && |after| > 0
  {
    q == 1 && (Total(job, counted) * 100 <= job.target * 102 || after[0] >= 217)
  }

  /** The scalefactors counted, one count after another from start: after each all take a step, coarser exactly when the count is
      over the target; and no count but the last was enough. */
  ghost predicate Moves(job: Job, q0: nat, start: seq<int>, passes: seq<seq<int>>, after: seq<int>)
    requires IsJob(job, |start|)
    decreases |passes|
  {
    if passes == [] then after == start && Spread(after, job.order)
    else
      var n := |passes| - 1;
      && |passes[n]| == |start|
      && Moves(job, q0, start, passes[..n], passes[n])
      && MovesOn(job, StepAt(q0, n), passes[n], after)
      && (n > 0 ==> NotYet(job, StepAt(q0, n - 1), passes[n - 1], passes[n]))
  }

  ghost predicate MovesOn(job: Job, q: nat, counted: seq<int>, after: seq<int>)
    requires IsJob(job, |counted|)
  {
    && Spread(counted, job.order) && Spread(after, job.order)
    && after == Stepped(counted, Total(job, counted) > job.target, q)
  }

  ghost predicate NotYet(job: Job, q: nat, counted: seq<int>, after: seq<int>) {
    IsJob(job, |counted|) && Spread(counted, job.order) && |after| > 0 && !Enough(job, q, counted, after)
  }

  /** The counts of one inner loop, and where it leaves the scalefactors. */
  ghost predicate Fitted(job: Job, q0: nat, start: seq<int>, passes: seq<seq<int>>, after: seq<int>)
    requires IsJob(job, |start|)
  {
    && passes != [] && |after| == |start| && Moves(job, q0, start, passes, after)
    && var n := |passes| - 1;
       |passes[n]| == |start| && Spread(passes[n], job.order) && Enough(job, StepAt(q0, n), passes[n], after)
  }

  /** The least scalefactor counted, or the one given. */
  ghost predicate IsLeast(job: Job, passes: seq<seq<int>>, given: int, least: int) {
    && least <= given
    && (forall j, k | 0 <= j < |passes| && 0 <= k < |job.order| && Takes(job, passes[j], k) :: least <= passes[j][job.order[k]])
    && (least == given
        || exists j, k | 0 <= j < |passes| && 0 <= k < |job.order| :: Takes(job, passes[j], k) && least == passes[j][job.order[k]])
  }

  /** Band k of the order takes part in a count. */
  predicate Takes(job: Job, sf: seq<int>, k: nat)
    requires k < |job.order|
  {
    job.order[k] < |sf| == |job.zeroes| && Counted(sf, job.zeroes, job.order[k])
  }

  /** The distortion of a band: that of the last count it took part in. */
  function Distortion(job: Job, passes: seq<seq<int>>, before: real, k: nat): real
    requires k < |job.order|
  {
    if passes == [] then before
    else
      var n := |passes| - 1;
      var i := job.order[k];
      if Takes(job, passes[n], k) then job.s.dist(i, passes[n][i]) - job.s.bits(i, passes[n][i]) as real
      else Distortion(job, passes[..n], before, k)
  }

  ghost predicate IsDistortions(job: Job, passes: seq<seq<int>>, before: seq<real>, dists: seq<real>) {
    && |before| == |dists|
    && (forall k | 0 <= k < |job.order| ::
          job.order[k] < |dists| && dists[job.order[k]] == Distortion(job, passes, before[job.order[k]], k))
    && forall i | 0 <= i < |dists| && i !in job.order :: dists[i] == before[i]
  }

  /** One count more. */
  lemma PassAdded(job: Job, q0: nat, start: seq<int>, passes: seq<seq<int>>, counted: seq<int>, after: seq<int>)
    requires IsJob(job, |start|) && |counted| == |start| && Moves(job, q0, start, passes, counted)
    requires MovesOn(job, StepAt(q0, |passes|), counted, after)
    requires passes != [] ==> NotYet(job, StepAt(q0, |passes| - 1), passes[|passes| - 1], counted)
    ensures Moves(job, q0, start, passes + [counted], after)
  {
    hide MovesOn, NotYet, StepAt, IsJob;
    var all := passes + [counted];
    assert all[..|passes|] == passes;
  }

  lemma LeastAdded(job: Job, passes: seq<seq<int>>, counted: seq<int>, given: int, least: int, least': int)
    requires IsJob(job, |counted|) && IsLeast(job, passes, given, least)
    requires LeastTo(counted, job.zeroes, job.order, |job.order|, least, least')
    ensures IsLeast(job, passes + [counted], given, least')
  {
    var all := passes + [counted];
    assert all[|passes|] == counted;
    if least' != least {
      var k :| 0 <= k < |job.order| && Counted(counted, job.zeroes, job.order[k]) && least' == counted[job.order[k]];
      assert Takes(job, all[|passes|], k);
    } else if least != given {
      var j, k :| 0 <= j < |passes| && 0 <= k < |job.order| && Takes(job, passes[j], k) && least == passes[j][job.order[k]];
      assert Takes(job, all[j], k);
    }
  }

  lemma DistortionsAdded(job: Job, passes: seq<seq<int>>, counted: seq<int>, before: seq<real>, dists: seq<real>, dists': seq<real>)
    requires IsJob(job, |counted|) && IsDistortions(job, passes, before, dists) && |dists| == |counted| == |dists'|
    requires DistsTo(counted, job.zeroes, job.order, job.s, |job.order|, dists, dists')
    ensures IsDistortions(job, passes + [counted], before, dists')
  {
    var all := passes + [counted];
    assert all[..|passes|] == passes;
    forall k | 0 <= k < |job.order|
      ensures dists'[job.order[k]] == Distortion(job, all, before[job.order[k]], k)
    {
      assert Takes(job, counted, k) <==> Counted(counted, job.zeroes, job.order[k]);
    }
  }

  lemma NoPasses(job: Job, q0: nat, start: seq<int>, before: seq<real>)
    requires IsJob(job, |start|) && Spread(start, job.order) && |before| == |start|
    ensures Moves(job, q0, start, [], start) && IsLeast(job, [], start[0], start[0]) && IsDistortions(job, [], before, before)
  {
  }

  /** The inner loop: halving steps from q0 down to 1, then single steps. It ends one single step after a count that is
      within two percent of the target, or with the first scalefactor saturated. */
  method FitBits(sf: array<int>, zeroes: seq<bool>, order: seq<nat>, s: Signal, sfBits: seq<nat>, dists: array<real>,
                 target: nat, q0: nat) returns (least: int, ghost passes: seq<seq<int>>)
    requires IsOrder(order, sf.Length) && |zeroes| == sf.Length == dists.Length && |sfBits| == 2 * MAX_DIFF + 1
    requires Spread(sf[..], order) && 1 <= q0 <= 32
    modifies sf, dists
    ensures Spread(sf[..], order)
    ensures Fitted(Job(zeroes, order, s, sfBits, target), q0, old(sf[..]), passes, sf[..])
    ensures IsLeast(Job(zeroes, order, s, sfBits, target), passes, old(sf[0]), least)
    ensures IsDistortions(Job(zeroes, order, s, sfBits, target), passes, old(dists[..]), dists[..])
  {
    hide Moves, MovesOn, IsLeast, IsDistortions, TotalBits, StepAt, Spread, Stepped, LeastTo, DistsTo;
    ghost var job := Job(zeroes, order, s, sfBits, target);
    ghost var start, before := sf[..], dists[..];
    least, passes := sf[0], [];
    NoPasses(job, q0, start, before);
    StepAtZero(q0);
    var q := q0;
    while q > 0
      invariant Spread(sf[..], order) && q <= 32 && |sf[..]| == |start|
      invariant Moves(job, q0, start, passes, sf[..])
      invariant IsLeast(job, passes, start[0], least) && IsDistortions(job, passes, before, dists[..])
      invariant q > 0 ==> q == StepAt(q0, |passes|)
      invariant passes != [] ==>
        var n := |passes| - 1;
        && |passes[n]| == |start| && Spread(passes[n], order)
        && (Enough(job, StepAt(q0, n), passes[n], sf[..]) <==> q == 0)
      invariant q == 0 ==> passes != []
      decreases q, 217 - sf[0]
    {
      var total, least';
      ghost var d := dists[..];
      total, least' := CountBits(sf, zeroes, order, s, sfBits, dists, least);
      ghost var counted := sf[..];
      LeastAdded(job, passes, counted, start[0], least, least');
      DistortionsAdded(job, passes, counted, before, d, dists[..]);
      least := least';
      Step(sf, total > target, q, order);
      SteppedIs(counted, sf[..], total > target, q);
      MovesOnIs(job, q, counted, sf[..], total);
      PassAdded(job, q0, start, passes, counted, sf[..]);
      StepAtNext(q0, |passes|);
      passes := passes + [counted];
      q := q / 2;
      if q == 0 && total * 100 > target * 102 && sf[0] < 217 {
        q := 1;
      }
    }
  }

  lemma StepAtZero(q0: nat)
    ensures StepAt(q0, 0) == q0
  {
  }

  lemma StepAtNext(q0: nat, n: nat)
    ensures StepAt(q0, n + 1) == if StepAt(q0, n) / 2 == 0 then 1 else StepAt(q0, n) / 2
  {
  }

  lemma SteppedIs(counted: seq<int>, after: seq<int>, over: bool, q: nat)
    requires |after| == |counted| && forall i | 0 <= i < |counted| :: after[i] == if over then Up(counted[i], q) else Down(counted[i], q)
    ensures after == Stepped(counted, over, q)
  {
  }

  lemma MovesOnIs(job: Job, q: nat, counted: seq<int>, after: seq<int>, total: nat)
    requires IsJob(job, |counted|) && Spread(counted, job.order) && Spread(after, job.order)
    requires total == TotalBits(counted, job.zeroes, job.order, job.s, job.sfBits, |job.order|)
    requires after == Stepped(counted, total > job.target, q)
    ensures MovesOn(job, q, counted, after) && Total(job, counted) == total
  {
    hide TotalBits, Stepped;
  }

  /** The outer loop's correction of one band. */
  function Corrected(i: nat, x: int, dist: real, s: Signal, least: int): int {
    var y := if dist > s.limit(i) && x > 60 then (if s.book(i, x - 1) != 0 then x - 1 else x - 2) else x;
    var z := Clip(y, least, least + MAX_DIFF);
    if z > 219 then 219 else z
  }

  /** The correction of all bands: everything ends within 60 of the clipped least scalefactor, and at most at 219. */
  method Correct(sf: array<int>, bandType: array<nat>, order: seq<nat>, s: Signal, dists: array<real>, least: int)
    returns (changed: bool)
    requires IsOrder(order, sf.Length) && sf.Length == dists.Length == bandType.Length && 60 <= least <= 195
    modifies sf, bandType
    ensures Spread(sf[..], order)
    ensures forall k | 0 <= k < |order| :: 60 <= sf[order[k]] <= 219 && bandType[order[k]] == s.book(order[k], sf[order[k]])
    ensures forall k | 0 <= k < |order| :: sf[order[k]] == Corrected(order[k], old(sf[order[k]]), dists[order[k]], s, least)
    ensures changed <==> exists k :: 0 <= k < |order| && sf[order[k]] != old(sf[order[k]])
    ensures forall i | 0 <= i < sf.Length && i !in order :: sf[i] == old(sf[i]) && bandType[i] == old(bandType[i])
  {
    hide Corrected;
    changed := false;
    ghost var was := sf[..];
    for n := 0 to |order|
      invariant forall k | 0 <= k < n :: sf[order[k]] == Corrected(order[k], was[order[k]], dists[order[k]], s, least)
                                         && bandType[order[k]] == s.book(order[k], sf[order[k]])
      invariant forall k | n <= k < |order| :: sf[order[k]] == was[order[k]]
      invariant changed <==> exists k :: 0 <= k < n && sf[order[k]] != was[order[k]]
      invariant forall i | 0 <= i < sf.Length && i !in order :: sf[i] == was[i] && bandType[i] == old(bandType[i])
    {
      var different := CorrectBand(sf, bandType, order[n], s, dists[order[n]], least);
      changed := changed || different;
    }
    forall k | 0 <= k < |order|
      ensures least <= sf[order[k]] <= least + MAX_DIFF && sf[order[k]] <= 219
    {
      CorrectedInRange(order[k], was[order[k]], dists[order[k]], s, least);
    }
  }

  lemma CorrectedInRange(i: nat, x: int, dist: real, s: Signal, least: int)
    requires 60 <= least <= 195
    ensures least <= Corrected(i, x, dist, s, least) <= least + MAX_DIFF && Corrected(i, x, dist, s, least) <= 219
  {
  }

  method CorrectBand(sf: array<int>, bandType: array<nat>, i: nat, s: Signal, dist: real, least: int) returns (different: bool)
    requires i < sf.Length == bandType.Length
    modifies sf, bandType
    ensures sf[i] == Corrected(i, old(sf[i]), dist, s, least) && bandType[i] == s.book(i, sf[i])
    ensures different <==> sf[i] != old(sf[i])
    ensures forall k | 0 <= k < sf.Length && k != i :: sf[k] == old(sf[k]) && bandType[k] == old(bandType[k])
  {
    var before := sf[i];
    if dist > s.limit(i) && sf[i] > 60 {
      if s.book(i, sf[i] - 1) != 0 {
        sf[i] := sf[i] - 1;
      } else {
        sf[i] := sf[i] - 2;
      }
    }
    sf[i] := Clip(sf[i], least, least + MAX_DIFF);
    sf[i] := if sf[i] > 219 then 219 else sf[i];
    different := sf[i] != before;
    bandType[i] := s.book(i, sf[i]);
  }

  // ----- the outer loop

  /** One round: the counts of the inner loop, where it leaves the scalefactors, their distortions and the least of them, and the
      scalefactors corrected. */
  datatype Round = Round(passes: seq<seq<int>>, after: seq<int>, dists: seq<real>, least: int, result: seq<int>)

  /** A round from start, the distortions found before being given. */
  ghost predicate IsRound(job: Job, q0: nat, start: seq<int>, before: seq<real>, r: Round) {
    && IsJob(job, |start|) && |r.after| == |r.result| == |r.dists| == |start|
    && Fitted(job, q0, start, r.passes, r.after)
    && IsLeast(job, r.passes, start[0], r.least) && IsDistortions(job, r.passes, before, r.dists)
    && (forall k | 0 <= k < |job.order| :: IsCorrected(job, r, job.order[k]))
    && forall i | 0 <= i < |start| && i !in job.order :: r.result[i] == r.after[i]
  }

  predicate IsCorrected(job: Job, r: Round, i: nat) {
    && i < |r.after| && i < |r.result| && i < |r.dists|
    && r.result[i] == Corrected(i, r.after[i], r.dists[i], job.s, Clip(r.least, 60, 255 - MAX_DIFF))
  }

  /** The correction changes something. */
  ghost predicate Changes(job: Job, r: Round) {
    exists k | 0 <= k < |job.order| ::
      job.order[k] < |r.after| && job.order[k] < |r.result| && r.result[job.order[k]] != r.after[job.order[k]]
  }

  /** Round n follows the one before, and steps of 32 are tried in the first one alone. */
  ghost predicate RoundAt(job: Job, start: seq<int>, rounds: seq<Round>, n: nat)
    requires n < |rounds|
  {
    && IsRound(job, if n == 0 then 32 else 1, if n == 0 then start else rounds[n - 1].result,
               if n == 0 then seq(|start|, _ => 0.0) else rounds[n - 1].dists, rounds[n])
    && |rounds[n].result| == |start|
  }

  /** The rounds of a search from start. It ends after ten, or after one whose correction changes nothing, and not before. */
  ghost predicate Searched(job: Job, start: seq<int>, rounds: seq<Round>) {
    && IsJob(job, |start|) && 0 < |rounds| <= 10
    && (forall n | 0 <= n < |rounds| :: RoundAt(job, start, rounds, n))
    && (forall n | 0 <= n < |rounds| - 1 :: Changes(job, rounds[n]))
    && (|rounds| == 10 || !Changes(job, rounds[|rounds| - 1]))
  }

  /** A search under way. */
  ghost predicate Searching(job: Job, start: seq<int>, rounds: seq<Round>, sf: seq<int>, dists: seq<real>) {
    && IsJob(job, |start|) && |sf| == |dists| == |start|
    && (forall n | 0 <= n < |rounds| :: RoundAt(job, start, rounds, n))
    && (if rounds == [] then sf == start && dists == seq(|start|, _ => 0.0)
        else sf == rounds[|rounds| - 1].result && dists == rounds[|rounds| - 1].dists)
  }

  lemma RoundAdded(job: Job, start: seq<int>, rounds: seq<Round>, sf: seq<int>, dists: seq<real>, r: Round)
    requires Searching(job, start, rounds, sf, dists) && IsRound(job, if rounds == [] then 32 else 1, sf, dists, r)
    ensures Searching(job, start, rounds + [r], r.result, r.dists)
  {
    hide IsRound, IsJob;
    var all := rounds + [r];
    RoundLengths(job, if rounds == [] then 32 else 1, sf, dists, r);
    forall n | 0 <= n < |all|
      ensures RoundAt(job, start, all, n)
    {
      if n < |rounds| {
        assert RoundAt(job, start, rounds, n);
      }
    }
  }

  lemma RoundLengths(job: Job, q0: nat, start: seq<int>, before: seq<real>, r: Round)
    requires IsRound(job, q0, start, before, r)
    ensures |r.after| == |r.result| == |r.dists| == |start| && forall k | 0 <= k < |job.order| :: job.order[k] < |r.after|
  {
  }

  /** The search terminates for every signal and every target, and every coded scalefactor is in 60..219 and within 60
      of every other; and they are what the rounds of the search come to. */
  method TwoLoopSearch(sf: array<int>, bandType: array<nat>, zeroes: seq<bool>, order: seq<nat>, s: Signal, sfBits: seq<nat>, target: nat)
    returns (ghost rounds: seq<Round>)
    requires IsOrder(order, sf.Length) && |zeroes| == sf.Length == bandType.Length && |sfBits| == 2 * MAX_DIFF + 1
    requires forall k | 0 <= k < |order| :: 140 <= sf[order[k]] <= 199
    modifies sf, bandType
    ensures Spread(sf[..], order)
    ensures forall k | 0 <= k < |order| :: 60 <= sf[order[k]] <= 219
    ensures forall k | 0 <= k < |order| :: bandType[order[k]] == s.book(order[k], sf[order[k]])
    ensures forall i | 0 <= i < sf.Length && i !in order :: bandType[i] == old(bandType[i])
    ensures Searched(Job(zeroes, order, s, sfBits, target), old(sf[..]), rounds) && sf[..] == rounds[|rounds| - 1].result
  {
    hide Fitted, IsLeast, IsDistortions, IsRound, RoundAt, Corrected, Clip, Changes, Spread, Searching, Searched;
    var dists := new real[sf.Length](_ => 0.0);
    var its, more := 0, true;
    ghost var job, start := Job(zeroes, order, s, sfBits, target), sf[..];
    rounds := [];
    NoRounds(job, start, dists[..]);
    StartSpread(start, order);
    while more
      invariant its <= 10 && Spread(sf[..], order) && |rounds| == its
      invariant Searching(job, start, rounds, sf[..], dists[..])
      invariant forall n | 0 <= n < its - 1 :: Changes(job, rounds[n])
      invariant its > 0 ==> (more <==> its < 10 && Changes(job, rounds[its - 1]))
      invariant !more ==> its > 0
      invariant !more ==> forall k | 0 <= k < |order| :: 60 <= sf[order[k]] <= 219
      invariant !more ==> forall k | 0 <= k < |order| :: bandType[order[k]] == s.book(order[k], sf[order[k]])
      invariant more ==> its < 10
      invariant forall i | 0 <= i < sf.Length && i !in order :: bandType[i] == old(bandType[i])
      decreases 10 - its, more
    {
      var least;
      ghost var passes;
      ghost var f, d := sf[..], dists[..];
      least, passes := FitBits(sf, zeroes, order, s, sfBits, dists, target, if its > 0 then 1 else 32);
      ghost var after := sf[..];
      ClipRange(least);
      var changed := Correct(sf, bandType, order, s, dists, Clip(least, 60, 255 - MAX_DIFF));
      ghost var r := Round(passes, after, dists[..], least, sf[..]);
      RoundIs(job, if its > 0 then 1 else 32, f, d, r);
      RoundAdded(job, start, rounds, f, d, r);
      ChangesIs(job, r, changed);
      rounds := rounds + [r];
      its := its + 1;
      more := changed && its < 10;
    }
    SearchEnds(job, start, rounds, sf[..], dists[..]);
  }

  lemma SearchEnds(job: Job, start: seq<int>, rounds: seq<Round>, sf: seq<int>, dists: seq<real>)
    requires Searching(job, start, rounds, sf, dists) && 0 < |rounds| <= 10
    requires forall n | 0 <= n < |rounds| - 1 :: Changes(job, rounds[n])
    requires |rounds| == 10 || !Changes(job, rounds[|rounds| - 1])
    ensures Searched(job, start, rounds) && sf == rounds[|rounds| - 1].result
  {
    hide RoundAt, Changes;
  }

  lemma StartSpread(sf: seq<int>, order: seq<nat>)
    requires IsOrder(order, |sf|) && forall k | 0 <= k < |order| :: 140 <= sf[order[k]] <= 199
    ensures Spread(sf, order)
  {
  }

  lemma ChangesIs(job: Job, r: Round, changed: bool)
    requires IsJob(job, |r.after|) && |r.result| == |r.after|
    requires changed <==> exists k :: 0 <= k < |job.order| && r.result[job.order[k]] != r.after[job.order[k]]
    ensures changed <==> Changes(job, r)
  {
  }

  lemma ClipRange(x: int)
    ensures 60 <= Clip(x, 60, 255 - MAX_DIFF) <= 195
  {
  }

  lemma NoRounds(job: Job, start: seq<int>, dists: seq<real>)
    requires IsJob(job, |start|) && |dists| == |start| && forall i | 0 <= i < |dists| :: dists[i] == 0.0
    ensures Searching(job, start, [], start, dists)
  {
  }

  lemma RoundIs(job: Job, q0: nat, start: seq<int>, before: seq<real>, r: Round)
    requires IsJob(job, |start|) && |r.after| == |r.result| == |r.dists| == |start|
    requires Fitted(job, q0, start, r.passes, r.after)
    requires IsLeast(job, r.passes, start[0], r.least) && IsDistortions(job, r.passes, before, r.dists)
    requires forall k | 0 <= k < |job.order| ::
               var i := job.order[k];
               r.result[i] == Corrected(i, r.after[i], r.dists[i], job.s, Clip(r.least, 60, 255 - MAX_DIFF))
    requires forall i | 0 <= i < |start| && i !in job.order :: r.result[i] == r.after[i]
    ensures IsRound(job, q0, start, before, r)
  {
    hide Fitted, IsLeast, IsDistortions, Corrected, Clip;
  }

  /** What a correction leaves alone: a scalefactor inside the window whose band is not over its limit, or cannot go lower. */
  lemma CorrectionRests(i: nat, x: int, dist: real, s: Signal, least: int)
    requires 60 <= least <= 195
    ensures Corrected(i, x, dist, s, least) == x
            <==> least <= x <= least + MAX_DIFF && x <= 219 && (dist > s.limit(i) && x > 60 ==> x == least)
  {
  }

  /** What it lowers: a band over its limit, by one when the band then has a codebook, and else by two. */
  lemma CorrectionLowers(i: nat, x: int, dist: real, s: Signal, least: int)
    requires 60 <= least <= x - 2 && x <= least + MAX_DIFF && x <= 219
    ensures var r := Corrected(i, x, dist, s, least);
            && (r < x <==> dist > s.limit(i))
            && (r < x ==> if s.book(i, x - 1) == 0 then r == x - 2 else r == x - 1)
  {
  }

  /** A search that ends before its tenth round has come to rest: its last count was within two percent of the target, or the first
      scalefactor is saturated; and every band is within its limit, or at the least scalefactor. */
  lemma SearchRests(job: Job, start: seq<int>, rounds: seq<Round>)
    requires Searched(job, start, rounds) && |rounds| < 10
    ensures var r := rounds[|rounds| - 1];
            && IsJob(job, |start|) && r.passes != [] && |r.result| == |r.dists| == |start| && r.result == r.after
            && var counted := r.passes[|r.passes| - 1];
            && |counted| == |start| && Spread(counted, job.order)
            && (Total(job, counted) * 100 <= job.target * 102 || r.result[0] >= 217)
            && r.result == Stepped(counted, Total(job, counted) > job.target, 1)
            && forall k | 0 <= k < |job.order| ::
                 var i := job.order[k];
                 r.dists[i] <= job.s.limit(i) || r.result[i] == Clip(r.least, 60, 255 - MAX_DIFF)
  {
    hide Moves, IsLeast, IsDistortions, Corrected, Clip, Stepped, TotalBits, StepAt, Spread;
    var n := |rounds| - 1;
    var r := rounds[n];
    assert RoundAt(job, start, rounds, n);
    assert r.result == r.after by {
      forall i | 0 <= i < |r.result|
        ensures r.result[i] == r.after[i]
      {
        if i in job.order {
          var k :| 0 <= k < |job.order| && job.order[k] == i;
        }
      }
    }
    var m := |r.passes| - 1;
    MovesLast(job, if n == 0 then 32 else 1, if n == 0 then start else rounds[n - 1].result, r.passes, r.after);
    ClipRange(r.least);
    forall k | 0 <= k < |job.order|
      ensures var i := job.order[k]; r.dists[i] <= job.s.limit(i) || r.result[i] == Clip(r.least, 60, 255 - MAX_DIFF)
    {
      var i := job.order[k];
      assert IsCorrected(job, r, i);
      CorrectionRests(i, r.after[i], r.dists[i], job.s, Clip(r.least, 60, 255 - MAX_DIFF));
    }
  }

  lemma MovesLast(job: Job, q0: nat, start: seq<int>, passes: seq<seq<int>>, after: seq<int>)
    requires IsJob(job, |start|) && Moves(job, q0, start, passes, after) && passes != []
    ensures var n := |passes| - 1; |passes[n]| == |start| && MovesOn(job, StepAt(q0, n), passes[n], after)
  {
    hide MovesOn, StepAt;
  }

  // ----- the differential code

  /** What the code can carry: bytes, each within 60 of the one before. */
  predicate Codable(start: int, sfs: seq<int>)
    decreases |sfs|
  {
    sfs == [] || (0 <= sfs[0] <= 255 && -MAX_DIFF <= sfs[0] - start <= MAX_DIFF && Codable(sfs[0], sfs[1..]))
  }

  /** The code of all 121 differences. */
  ghost predicate IsCode(codes: seq<Word>) {
    |codes| == 2 * MAX_DIFF + 1 && PrefixFree(codes) && forall k | 0 <= k < |codes| :: codes[k] != []
  }

  function WriteDifferences(codes: seq<Word>, start: int, sfs: seq<int>): Word
    requires |codes| == 2 * MAX_DIFF + 1 && Codable(start, sfs)
    decreases |sfs|
  {
    if sfs == [] then [] else codes[sfs[0] - start + DIFF_ZERO] + WriteDifferences(codes, sfs[0], sfs[1..])
  }

  /** The decoder: n scalefactors from a running offset that must stay a byte. */
  function ReadDifferences(codes: seq<Word>, stream: Word, offset: int, n: nat): Option<(seq<int>, Word)>
    decreases n
  {
    if n == 0 then Some(([], stream))
    else
      var d := ReadSymbol(codes, stream);
      if d.None? then None
      else
        var x := offset + d.value.0 - DIFF_ZERO;
        if x < 0 || x > 255 then None
        else
          var rest := ReadDifferences(codes, d.value.1, x, n - 1);
          if rest.None? then None else Some(([x] + rest.value.0, rest.value.1))
  }

  lemma DifferencesFirst(codes: seq<Word>, start: int, sfs: seq<int>, rest: Word)
    requires |codes| == 2 * MAX_DIFF + 1 && Codable(start, sfs) && sfs != []
    ensures 0 <= sfs[0] <= 255 && -MAX_DIFF <= sfs[0] - start <= MAX_DIFF && Codable(sfs[0], sfs[1..])
    ensures WriteDifferences(codes, start, sfs) + rest
         == codes[sfs[0] - start + DIFF_ZERO] + (WriteDifferences(codes, sfs[0], sfs[1..]) + rest)
  {
  }

  lemma ReadFirst(codes: seq<Word>, stream: Word, offset: int, n: nat, d: nat, tail: Word)
    requires n > 0 && ReadSymbol(codes, stream) == Some((d, tail)) && 0 <= offset + d - DIFF_ZERO <= 255
    ensures var x := offset + d - DIFF_ZERO;
            var rest := ReadDifferences(codes, tail, x, n - 1);
            ReadDifferences(codes, stream, offset, n) == if rest.None? then None else Some(([x] + rest.value.0, rest.value.1))
  {
    hide ReadSymbol;
  }

  /** The decoder gets back every scalefactor written. */
  lemma {:induction false} DifferencesBack(codes: seq<Word>, start: int, sfs: seq<int>, rest: Word)
    requires IsCode(codes) && Codable(start, sfs)
    ensures ReadDifferences(codes, WriteDifferences(codes, start, sfs) + rest, start, |sfs|) == Some((sfs, rest))
    decreases |sfs|
  {
    if sfs == [] {
      assert WriteDifferences(codes, start, sfs) + rest == rest;
    } else {
      hide ReadSymbol, PrefixFree, Codable, WriteDifferences, ReadDifferences;
      var d := sfs[0] - start + DIFF_ZERO;
      var tail := WriteDifferences(codes, sfs[0], sfs[1..]) + rest;
      DifferencesFirst(codes, start, sfs, rest);
      ReadSymbolBack(codes, d, tail);
      DifferencesBack(codes, sfs[0], sfs[1..], rest);
      ReadFirst(codes, codes[d] + tail, start, |sfs|, d, tail);
      assert sfs == [sfs[0]] + sfs[1..];
    }
  }

  /** The coded scalefactors from position n of the order on. */
  function CodedFrom(sf: seq<int>, zeroes: seq<bool>, order: seq<nat>, n: nat): seq<int>
    requires IsOrder(order, |sf|) && |zeroes| == |sf| && n <= |order|
    decreases |order| - n
  {
    if n == |order| then []
    else (if zeroes[order[n]] then [] else [sf[order[n]]]) + CodedFrom(sf, zeroes, order, n + 1)
  }

  function LastOf(start: int, sfs: seq<int>): int {
    if sfs == [] then start else sfs[|sfs| - 1]
  }

  /** One scalefactor more. */
  lemma {:induction false} DifferenceAdded(codes: seq<Word>, start: int, sfs: seq<int>, x: int)
    requires |codes| == 2 * MAX_DIFF + 1 && Codable(start, sfs)
    requires 0 <= x <= 255 && -MAX_DIFF <= x - LastOf(start, sfs) <= MAX_DIFF
    ensures Codable(start, sfs + [x])
    ensures WriteDifferences(codes, start, sfs + [x])
         == WriteDifferences(codes, start, sfs) + codes[x - LastOf(start, sfs) + DIFF_ZERO]
    decreases |sfs|
  {
    var all := sfs + [x];
    if sfs == [] {
      assert all[1..] == [];
    } else {
      assert all[1..] == sfs[1..] + [x];
      DifferenceAdded(codes, sfs[0], sfs[1..], x);
    }
  }

  /** The bits of the data of the bands from the n-th on. */
  function DataFrom(sf: seq<int>, zeroes: seq<bool>, order: seq<nat>, s: Signal, n: nat): nat
    requires IsOrder(order, |sf|) && |zeroes| == |sf| && n <= |order|
    decreases |order| - n
  {
    if n == |order| then 0
    else (if zeroes[order[n]] then 0 else s.bits(order[n], sf[order[n]])) + DataFrom(sf, zeroes, order, s, n + 1)
  }

  /** The bits still to count after n bands, as the writer spends them. */
  lemma {:induction false} CountFrom(job: Job, codes: seq<Word>, sf: seq<int>, n: nat)
    requires IsJob(job, |sf|) && IsCode(codes) && Spread(sf, job.order) && n <= |job.order|
    requires forall k | 0 <= k < |job.order| :: 0 <= sf[job.order[k]] <= 255 && (!job.zeroes[job.order[k]] ==> sf[job.order[k]] < 218)
    requires forall d | 0 <= d < |codes| :: job.sfBits[d] == |codes[d]|
    ensures var rest := CodedFrom(sf, job.zeroes, job.order, n);
            var last := LastCounted(sf, job.zeroes, job.order, n);
            var bits := TotalBits(sf, job.zeroes, job.order, job.s, job.sfBits, n) + DataFrom(sf, job.zeroes, job.order, job.s, n);
            if last.Some? then
              Codable(sf[job.order[last.value]], rest)
              && Total(job, sf) == bits + |WriteDifferences(codes, sf[job.order[last.value]], rest)|
            else if rest == [] then Total(job, sf) == bits
            else Codable(rest[0], rest[1..]) && Total(job, sf) == bits + |WriteDifferences(codes, rest[0], rest[1..])|
    decreases |job.order| - n
  {
    hide PrefixFree, Spread, TotalBits, LastCounted;
    if n < |job.order| {
      CountFrom(job, codes, sf, n + 1);
      CountStep(sf, job.zeroes, job.order, job.s, job.sfBits, n);
      var i, later := job.order[n], CodedFrom(sf, job.zeroes, job.order, n + 1);
      var last := LastCounted(sf, job.zeroes, job.order, n);
      if job.zeroes[i] {
        assert CodedFrom(sf, job.zeroes, job.order, n) == later;
      } else {
        assert CodedFrom(sf, job.zeroes, job.order, n) == [sf[i]] + later;
        assert ([sf[i]] + later)[1..] == later;
        if last.Some? {
          SpreadCodable(sf, job.zeroes, job.order, n, last.value);
        }
      }
    }
  }

  /** What is counted is what is written of data and differences when every band with data takes part, but for the first
      difference, which is not counted. */
  lemma CountIsWritten(job: Job, codes: seq<Word>, sf: seq<int>)
    requires IsJob(job, |sf|) && IsCode(codes) && Spread(sf, job.order)
    requires forall k | 0 <= k < |job.order| :: 0 <= sf[job.order[k]] <= 255 && (!job.zeroes[job.order[k]] ==> sf[job.order[k]] < 218)
    requires forall d | 0 <= d < |codes| :: job.sfBits[d] == |codes[d]|
    ensures var coded := CodedFrom(sf, job.zeroes, job.order, 0);
            && Codable(sf[0], coded)
            && DataFrom(sf, job.zeroes, job.order, job.s, 0) + |WriteDifferences(codes, sf[0], coded)|
               == Total(job, sf) + if coded == [] then 0 else |codes[coded[0] - sf[0] + DIFF_ZERO]|
  {
    hide PrefixFree, Spread, TotalBits, LastCounted;
    CountFrom(job, codes, sf, 0);
    CountNone(sf, job.zeroes, job.order, job.s, job.sfBits);
    SpreadCodable(sf, job.zeroes, job.order, 0, 0);
  }

  /** Scalefactors that are bytes within 60 of each other can be coded, whatever bands are left out. */
  lemma {:induction false} SpreadCodable(sf: seq<int>, zeroes: seq<bool>, order: seq<nat>, n: nat, prev: nat)
    requires IsOrder(order, |sf|) && |zeroes| == |sf| && n <= |order| && prev < |order| && Spread(sf, order)
    requires forall k | 0 <= k < |order| :: 0 <= sf[order[k]] <= 255
    ensures Codable(sf[order[prev]], CodedFrom(sf, zeroes, order, n))
    decreases |order| - n
  {
    if n < |order| {
      var rest := CodedFrom(sf, zeroes, order, n + 1);
      if zeroes[order[n]] {
        SpreadCodable(sf, zeroes, order, n + 1, prev);
        assert [] + rest == rest;
      } else {
        SpreadCodable(sf, zeroes, order, n + 1, n);
        assert ([sf[order[n]]] + rest)[1..] == rest;
      }
    }
  }

  /** Writes the differences of the coded scalefactors; the first is relative to the first scalefactor of all, sent before. */
  method EncodeScaleFactors(sf: array<int>, zeroes: seq<bool>, order: seq<nat>, codes: seq<Word>) returns (out: Word, tooBig: bool)
    requires IsOrder(order, sf.Length) && |zeroes| == sf.Length && IsCode(codes)
    requires Spread(sf[..], order) && forall k | 0 <= k < |order| :: 0 <= sf[order[k]] <= 255
    ensures !tooBig
    ensures Codable(sf[0], CodedFrom(sf[..], zeroes, order, 0))
    ensures out == WriteDifferences(codes, sf[0], CodedFrom(sf[..], zeroes, order, 0))
  {
    hide PrefixFree, Spread;
    ghost var f := sf[..];
    ghost var prev: nat := 0;
    var off := sf[0];
    out, tooBig := [], false;
    SpreadCodable(f, zeroes, order, 0, 0);
    for n := 0 to |order|
      invariant prev < |order| && off == f[order[prev]]
      invariant !tooBig
      invariant Codable(off, CodedFrom(f, zeroes, order, n))
      invariant out + WriteDifferences(codes, off, CodedFrom(f, zeroes, order, n)) ==
                WriteDifferences(codes, f[0], CodedFrom(f, zeroes, order, 0))
    {
      ghost var rest := CodedFrom(f, zeroes, order, n + 1);
      if zeroes[order[n]] {
        assert CodedFrom(f, zeroes, order, n) == rest;
      } else {
        assert CodedFrom(f, zeroes, order, n) == [f[order[n]]] + rest;
        assert ([f[order[n]]] + rest)[1..] == rest;
        var diff := sf[order[n]] - off + DIFF_ZERO;
        if diff < 0 || diff > 120 {
          tooBig := true;
        }
        off := sf[order[n]];
        prev := n;
        out := out + codes[diff];
      }
    }
  }

  /** After the two-loop search the differences are always codable and decode to the same scalefactors. */
  lemma SearchedRoundTrip(sf: seq<int>, zeroes: seq<bool>, order: seq<nat>, codes: seq<Word>, rest: Word)
    requires IsOrder(order, |sf|) && |zeroes| == |sf| && IsCode(codes) && Spread(sf, order)
    requires forall k | 0 <= k < |order| :: 0 <= sf[order[k]] <= 255
    ensures var coded := CodedFrom(sf, zeroes, order, 0);
            Codable(sf[0], coded) &&
            ReadDifferences(codes, WriteDifferences(codes, sf[0], coded) + rest, sf[0], |coded|) == Some((coded, rest))
  {
    SpreadCodable(sf, zeroes, order, 0, 0);
    DifferencesBack(codes, sf[0], CodedFrom(sf, zeroes, order, 0), rest);
  }
}
