/** How the transcoder keeps its output frames in step with input times: duplicating, dropping, and restamping. */
module VideoSync {

  /** Passthrough is method 0; in the other methods constant or variable frame rate is kept. */
  datatype Mode = Passthrough | Constant | Variable

  /** The next output time, counts, and the times of the frames given to the encoder. cut counts frames held back by the limit. */
  datatype Output = Output(opts: int, frames: nat, dup: int, drop: nat, cut: int, written: seq<int>)

  /** The nearest integer, ties to even. */
  function Rint(x: real): (r: int)
    ensures -0.5 <= x - r as real <= 0.5
  {
    var f := x.Floor;
    var frac := x - f as real;
    if frac < 0.5 then f else if frac > 0.5 then f + 1 else if f % 2 == 0 then f else f + 1
  }

  /** The number of frames to output for an input at time ipts, and the time to start them at. */
  function Decide(mode: Mode, opts: int, ipts: real): (r: (int, int))
  {
    var delta := ipts - opts as real;
    match mode
    case Passthrough => (1, Rint(ipts))
    case Constant => if delta < -1.1 then (0, opts) else if delta > 1.1 then (Rint(delta), opts) else (1, opts)
    case Variable =>
      if delta < -1.1 || delta <= -0.6 then (0, opts) else if delta > 0.6 then (1, Rint(ipts)) else (1, opts)
  }

  function Stamps(from: int, n: nat): (t: seq<int>)
    ensures |t| == n
  {
    seq(n, i => from + i)
  }

  /** The output after one input frame. */
  function OneFrame(mode: Mode, limit: int, s: Output, ipts: real): Output {
    var (n, opts) := Decide(mode, s.opts, ipts);
    var room := limit - s.frames;
    var m := if n <= 0 || room <= 0 then 0 else if n < room then n else room;
    Output(opts + m, s.frames + m,
           s.dup + (if mode != Passthrough && n > 1 then n - 1 else 0),
           s.drop + (if mode != Passthrough && n == 0 then 1 else 0),
           s.cut + n - m,
           s.written + Stamps(opts, m))
  }

  function Run(mode: Mode, limit: int, s: Output, inputs: seq<real>): Output {
    if inputs == [] then s else OneFrame(mode, limit, Run(mode, limit, s, inputs[..|inputs| - 1]), inputs[|inputs| - 1])
  }

  function Distance(x: real, t: int): real {
    if x < t as real then t as real - x else x - t as real
  }

  /** No other output time is nearer to the input. */
  ghost predicate Nearest(x: real, t: int) {
    forall other: int :: Distance(x, t) <= Distance(x, other)
  }

  lemma RintNearest(x: real, other: int)
    ensures Distance(x, Rint(x)) <= Distance(x, other)
  {
    hide Rint;
    if other < Rint(x) {
      assert other as real + 1.0 <= Rint(x) as real;
    } else if other > Rint(x) {
      assert Rint(x) as real + 1.0 <= other as real;
    }
  }

  /** At a constant rate an input is dropped exactly when it is more than 1.1 behind, and repeated exactly when it is more than 1.1
      ahead; and then as often as brings the next output time nearest to it. */
  lemma ConstantCount(opts: int, ipts: real)
    ensures var (n, start) := Decide(Constant, opts, ipts);
            && start == opts
            && (n == 0 <==> ipts - opts as real < -1.1)
            && (ipts - opts as real > 1.1 ==> n >= 1 && Nearest(ipts, opts + n))
            && (-1.1 <= ipts - opts as real <= 1.1 ==> n == 1)
  {
    var delta := ipts - opts as real;
    if delta > 1.1 {
      var n := Rint(delta);
      forall other: int
        ensures Distance(ipts, opts + n) <= Distance(ipts, other)
      {
        RintNearest(delta, other - opts);
        assert Distance(ipts, other) == Distance(delta, other - opts);
      }
    }
  }

  /** At a variable rate it is dropped exactly when it is at least 0.6 behind, never repeated, and given the nearest time of its own
      exactly when it is more than 0.6 ahead. */
  lemma VariableCount(opts: int, ipts: real)
    ensures var (n, start) := Decide(Variable, opts, ipts);
            && (n == 0 <==> ipts - opts as real <= -0.6) && 0 <= n <= 1
            && (if ipts - opts as real > 0.6 then Nearest(ipts, start) else start == opts)
  {
    hide Rint;
    forall other: int
      ensures Distance(ipts, Rint(ipts)) <= Distance(ipts, other)
    {
      RintNearest(ipts, other);
    }
  }

  lemma RunStep(mode: Mode, limit: int, inputs: seq<real>, k: nat)
    requires 0 < k <= |inputs|
    ensures Run(mode, limit, Empty, inputs[..k]) == OneFrame(mode, limit, Run(mode, limit, Empty, inputs[..k - 1]), inputs[k - 1])
  {
    hide OneFrame;
    assert inputs[..k][..k - 1] == inputs[..k - 1];
  }

  const Empty: Output := Output(0, 0, 0, 0, 0, [])

  /** The frames asked for are never negative. */
  lemma DecideCount(mode: Mode, opts: int, ipts: real)
    ensures 0 <= Decide(mode, opts, ipts).0
    ensures mode != Passthrough ==> Decide(mode, opts, ipts).1 >= opts
  {
  }

  /** Frames out are frames in plus duplicates minus drops, less those the frame limit held back; so the balance is exact
      precisely while the limit has held none back. */
  lemma {:induction false} FramesBalance(mode: Mode, limit: int, inputs: seq<real>)
    ensures var r := Run(mode, limit, Empty, inputs);
            && r.frames == |inputs| + r.dup - r.drop - r.cut && |r.written| == r.frames && r.cut >= 0
            && (r.frames == |inputs| + r.dup - r.drop <==> r.cut == 0)
  {
    if inputs != [] {
      var n := |inputs| - 1;
      FramesBalance(mode, limit, inputs[..n]);
      DecideCount(mode, Run(mode, limit, Empty, inputs[..n]).opts, inputs[n]);
      assert |inputs[..n]| == n;
    }
  }

  /** Never more frames than the limit are output, and frames are held back only once there are as many. */
  lemma {:induction false} LimitKept(mode: Mode, limit: int, inputs: seq<real>)
    ensures var r := Run(mode, limit, Empty, inputs);
            r.frames <= (if limit < 0 then 0 else limit) && (r.cut > 0 ==> r.frames >= limit)
  {
    if inputs != [] {
      var n := |inputs| - 1;
      LimitKept(mode, limit, inputs[..n]);
      DecideCount(mode, Run(mode, limit, Empty, inputs[..n]).opts, inputs[n]);
      hide Decide;
    }
  }

  ghost predicate Increasing(t: seq<int>) {
    forall i, j | 0 <= i < j < |t| :: t[i] < t[j]
  }

  /** Unless frames pass through unchecked, output times strictly increase over any run, whatever the input times. */
  lemma {:induction false} TimesIncrease(mode: Mode, limit: int, inputs: seq<real>)
    requires mode != Passthrough
    ensures var r := Run(mode, limit, Empty, inputs);
            Increasing(r.written) && forall i | 0 <= i < |r.written| :: r.written[i] < r.opts
  {
    if inputs != [] {
      var n := |inputs| - 1;
      var s := Run(mode, limit, Empty, inputs[..n]);
      TimesIncrease(mode, limit, inputs[..n]);
      DecideCount(mode, s.opts, inputs[n]);
      hide Decide;
      var r := OneFrame(mode, limit, s, inputs[n]);
      forall i | 0 <= i < |r.written|
        ensures r.written[i] < r.opts && (i < |s.written| ==> r.written[i] == s.written[i])
        ensures i >= |s.written| ==> r.written[i] == Decide(mode, s.opts, inputs[n]).1 + (i - |s.written|)
      {
      }
    }
  }

  /** Passed through unchecked, each frame is given its own input time, rounded; so output times increase exactly when
      the rounded input times do. */
  lemma {:induction false} PassthroughTimes(limit: int, inputs: seq<real>)
    requires |inputs| <= limit
    ensures var r := Run(Passthrough, limit, Empty, inputs);
            && |r.written| == r.frames == |inputs|
            && (forall i | 0 <= i < |inputs| :: r.written[i] == Rint(inputs[i]))
            && (Increasing(r.written) <==> forall i, j | 0 <= i < j < |inputs| :: Rint(inputs[i]) < Rint(inputs[j]))
  {
    hide Rint;
    if inputs != [] {
      PassthroughTimes(limit, inputs[..|inputs| - 1]);
    }
  }

  /** Two inputs at one time, passed through unchecked, are given the same output time. */
  lemma PassthroughRepeats(limit: int, t: real)
    requires limit >= 2
    ensures !Increasing(Run(Passthrough, limit, Empty, [t, t]).written)
  {
    PassthroughTimes(limit, [t, t]);
    assert !(Rint([t, t][0]) < Rint([t, t][1]));
  }

  ghost predicate NonDecreasing(inputs: seq<real>) {
    forall i, j | 0 <= i < j < |inputs| :: inputs[i] <= inputs[j]
  }

  /** The lead of the last input over the next output time. */
  function Lead(mode: Mode, limit: int, inputs: seq<real>): real
    requires inputs != []
  {
    inputs[|inputs| - 1] - Run(mode, limit, Empty, inputs).opts as real
  }

  /** How far the lead may be: from 2.1 behind to 0.5 ahead at a constant rate, 1.6 to 0.4 behind at a variable one. */
  predicate InStep(mode: Mode, lead: real)
    requires mode != Passthrough
  {
    if mode == Constant then -2.1 <= lead <= 0.5 else -1.6 <= lead <= -0.4
  }

  /** For input times that never go back and no frame held back, the output is in step after every frame exactly when
      the first input is not further behind than that. */
  lemma {:induction false} DriftBounded(mode: Mode, limit: int, inputs: seq<real>)
    requires mode != Passthrough && NonDecreasing(inputs) && inputs != [] && Run(mode, limit, Empty, inputs).cut == 0
    ensures (forall k | 0 < k <= |inputs| :: InStep(mode, Lead(mode, limit, inputs[..k]))) <==>
            inputs[0] >= (if mode == Constant then -2.1 else -1.6)
  {
    forall k | 0 < k <= |inputs|
      ensures inputs[0] >= (if mode == Constant then -2.1 else -1.6) ==> InStep(mode, Lead(mode, limit, inputs[..k]))
    {
      if inputs[0] >= if mode == Constant then -2.1 else -1.6 {
        StaysInStep(mode, limit, inputs, k);
      }
    }
    if inputs[0] < if mode == Constant then -2.1 else -1.6 {
      assert inputs[..1][..0] == [];
      assert Run(mode, limit, Empty, inputs[..1]).opts == 0;
      assert !InStep(mode, Lead(mode, limit, inputs[..1]));
    }
  }

  lemma {:induction false} CutGrows(mode: Mode, limit: int, inputs: seq<real>, k: nat)
    requires k <= |inputs|
    ensures 0 <= Run(mode, limit, Empty, inputs[..k]).cut <= Run(mode, limit, Empty, inputs).cut
    decreases |inputs|
  {
    hide Run, OneFrame;
    FramesBalance(mode, limit, inputs[..k]);
    if k < |inputs| {
      var n := |inputs| - 1;
      assert inputs[..n][..k] == inputs[..k] && inputs[..n + 1] == inputs;
      CutGrows(mode, limit, inputs[..n], k);
      RunStep(mode, limit, inputs, n + 1);
      FrameCut(mode, limit, Run(mode, limit, Empty, inputs[..n]), inputs[n]);
    } else {
      assert inputs[..k] == inputs;
    }
  }

  lemma FrameCut(mode: Mode, limit: int, s: Output, ipts: real)
    ensures var (n, opts) := Decide(mode, s.opts, ipts);
            var r := OneFrame(mode, limit, s, ipts);
            n >= 0 && r.cut >= s.cut && (r.cut == s.cut ==> r.opts == opts + n)
  {
    DecideCount(mode, s.opts, ipts);
    hide Decide;
  }

  lemma {:induction false} StaysInStep(mode: Mode, limit: int, inputs: seq<real>, k: nat)
    requires mode != Passthrough && NonDecreasing(inputs) && 0 < k <= |inputs| && Run(mode, limit, Empty, inputs).cut == 0
    requires inputs[0] >= if mode == Constant then -2.1 else -1.6
    ensures InStep(mode, Lead(mode, limit, inputs[..k]))
    decreases k
  {
    hide Run, OneFrame, InStep;
    var s := Run(mode, limit, Empty, inputs[..k - 1]);
    CutGrows(mode, limit, inputs, k);
    CutGrows(mode, limit, inputs, k - 1);
    RunStep(mode, limit, inputs, k);
    FrameCut(mode, limit, s, inputs[k - 1]);
    if k > 1 {
      StaysInStep(mode, limit, inputs, k - 1);
      assert inputs[k - 2] <= inputs[k - 1];
      NextInStep(mode, s.opts, inputs[k - 2], inputs[k - 1]);
    } else {
      NothingRun(mode, limit, inputs);
      FirstInStep(mode, inputs[0]);
    }
  }

  lemma NothingRun(mode: Mode, limit: int, inputs: seq<real>)
    ensures Run(mode, limit, Empty, inputs[..0]) == Empty
  {
  }

  /** An input that does not go back, after one that was in step. */
  lemma NextInStep(mode: Mode, opts: int, last: real, ipts: real)
    requires mode != Passthrough && InStep(mode, last - opts as real) && last <= ipts
    ensures var (n, start) := Decide(mode, opts, ipts); InStep(mode, ipts - (start + n) as real)
  {
    hide Rint;
  }

  lemma FirstInStep(mode: Mode, ipts: real)
    requires mode != Passthrough && ipts >= if mode == Constant then -2.1 else -1.6
    ensures var (n, start) := Decide(mode, 0, ipts); InStep(mode, ipts - (start + n) as real)
  {
    hide Rint;
  }

  // ----- the state as it is updated

  class VideoOutput {
    var opts: int
    var frameNumber: nat
    var nbDup: int
    var nbDrop: nat
    ghost var cut: int
    var written: seq<int>

    ghost function State(): Output
      reads this
    {
      Output(opts, frameNumber, nbDup, nbDrop, cut, written)
    }

    constructor ()
      ensures State() == Empty
    {
      opts, frameNumber, nbDup, nbDrop, cut, written := 0, 0, 0, 0, 0, [];
    }

    /** One input frame; syncMethod is the -vsync option, and variable whether the format allows a variable rate. */
    method DoVideoOut(ipts: real, syncMethod: int, variable: bool, limit: int)
      modifies this
      ensures var mode := if syncMethod == 0 then Passthrough
                          else if syncMethod == 2 || (syncMethod < 0 && variable) then Variable else Constant;
              State() == OneFrame(mode, limit, old(State()), ipts)
    {
      var nbFrames := 1;
      if syncMethod != 0 {
        var vdelta := ipts - opts as real;
        if vdelta < -1.1 {
          nbFrames := 0;
        } else if syncMethod == 2 || (syncMethod < 0 && variable) {
          if vdelta <= -0.6 {
            nbFrames := 0;
          } else if vdelta > 0.6 {
            opts := Rint(ipts);
          }
        } else if vdelta > 1.1 {
          nbFrames := Rint(vdelta);
        }
        if nbFrames == 0 {
          nbDrop := nbDrop + 1;
        } else if nbFrames > 1 {
          nbDup := nbDup + (nbFrames - 1);
        }
      } else {
        opts := Rint(ipts);
      }
      cut := cut + nbFrames;
      if limit - frameNumber < nbFrames {
        nbFrames := limit - frameNumber;
      }
      if nbFrames <= 0 {
        return;
      }
      cut := cut - nbFrames;
      Emit(nbFrames);
    }

    /** Gives so many frames to the encoder, one after another in time. */
    method Emit(n: nat)
      modifies this
      ensures State() == old(State()).(opts := old(opts) + n, frames := old(frameNumber) + n,
                                       written := old(written) + Stamps(old(opts), n))
    {
      ghost var before := State();
      for i := 0 to n
        invariant State() == before.(opts := before.opts + i, frames := before.frames + i,
                                     written := before.written + Stamps(before.opts, i))
      {
        assert Stamps(before.opts, i + 1) == Stamps(before.opts, i) + [before.opts + i];
        written := written + [opts];
        opts := opts + 1;
        frameNumber := frameNumber + 1;
      }
    }
  }
}
