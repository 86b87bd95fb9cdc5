/** The threads of the player around its two-slot picture ring and its video packet queue: one atomic step per locked
    section, any interleaving of the display, decoder and reader threads. */
module PlayerSync {

  import opened Wrappers

  /** A seek starts a new epoch; its marker is the first packet of that epoch. */
  datatype Packet = Marker(epoch: nat) | Data(epoch: nat)

  datatype Slot = Slot(id: nat, epoch: int, pts: real, target: real, ready: bool)

  /** The display thread: idle, holding the picture to show, with the read index advanced and the size still to lower, or
      closing the stream to change the channel. */
  datatype Display = Idle | Hold | Leaving | Busy

  /** The decoder thread. */
  datatype Decoder =
    | Get                 // about to take a packet
    | Full                // waiting for room in the ring
    | Room                // found room; looking at the slot
    | Alloc               // waiting for the slot's bitmap
    | Write               // copying the picture
    | Advance             // picture copied; write index to be moved
    | Commit              // write index moved; size to be raised
    | Flush               // took a seek marker; clocks to be cleared
    | Drain               // waiting for the ring to empty
    | Reset               // clocks to be reset
    | Done

  /** The reader thread: reading, between the two halves of a seek, or closing the stream at its end. */
  datatype Reader = Reading | Seeking | Stopped

  /** The two signals of closing. */
  datatype Closing = Open | Aborted | Signalled

  datatype State = State(
    now: real,
    slots: seq<Slot>, size: int, rindex: nat, windex: nat,
    timer: real, lastDelay: real, lastPts: Option<real>, curPts: real, drift: real, paused: bool,
    packets: seq<Packet>, abort: bool,
    display: Display, decoder: Decoder, reader: Reader, closing: Closing, marked: bool,
    asleepPackets: bool, asleepPictures: bool,
    seeks: nat, epoch: int, entered: nat, left: nat)

  /** The queue starts with a marker, if there is memory for it. */
  ghost predicate Init(s: State) {
    && s.now >= 0.0 && |s.slots| == 2 && s.size == 0 && s.rindex == 0 && s.windex == 0
    && s.timer == 0.0 && s.lastDelay == 0.0 && s.curPts == 0.0 && s.drift == 0.0
    && s.packets == (if s.marked then [Marker(0)] else []) && !s.abort
    && s.display == Idle && s.decoder == Get && s.reader == Reading && s.closing == Open
    && !s.asleepPackets && !s.asleepPictures
    && s.seeks == 0 && s.epoch == -1 && s.entered == 0 && s.left == 0
  }

  /** Atomic steps, with what the outside decides: the clock read, picture times, and which way an opaque test goes. */
  datatype DisplayStep =
    | Check(now: real)                                  // look at the first picture; hold it when it is due
    | Leave                                             // done with the picture: move the read index
    | Lower                                             // lower the size and signal
    | Allocate                                          // make the bitmap of the slot being written
    | Pause(now: real, enosys: bool)                    // pause or resume

  datatype DecoderStep =
    | TakePacket(picture: bool)                         // take a packet, or fall asleep, or end
    | WaitRoom
    | LookAtSlot(fits: bool)
    | WaitAlloc
    | CopyPicture(pts: real)
    | MoveWrite
    | Raise(slave: bool, diff: real)
    | ClearClocks
    | WaitEmpty
    | ResetClocks(now: real)

  datatype ReaderStep =
    | Put
    | SeekFlush
    | SeekMark
    | SeekLost                                          // no memory for the marker

  /** Closing is begun by the reader thread, or by the display thread while the reader goes on. */
  datatype CloserStep =
    | Abort(byReader: bool)
    | Signal

  datatype Step =
    | ByDisplay(d: DisplayStep)
    | ByDecoder(c: DecoderStep)
    | ByReader(r: ReaderStep)
    | ByCloser(k: CloserStep)

  // ----- clocks

  /** The delay from the previous frame to this one, and the delay to remember. */
  function NominalDelay(lastPts: Option<real>, lastDelay: real, pts: real): (real, real) {
    if lastPts.Some? && 0.0 < pts - lastPts.value < 10.0 then (pts - lastPts.value, pts - lastPts.value)
    else (lastDelay, lastDelay)
  }

  /** Dropped or doubled when video follows another clock and is off by more than the threshold. */
  function CorrectedDelay(delay: real, slave: bool, diff: real): real {
    var threshold := if delay > 0.01 then delay else 0.01;
    if slave && -10.0 < diff < 10.0 then
      if diff <= -threshold then 0.0 else if diff >= threshold then 2.0 * delay else delay
    else delay
  }

  function Paused(s: State, now: real, enosys: bool): State {
    if s.paused then
      var pts := if enosys then s.curPts else s.drift + now;
      s.(now := now, timer := s.timer + now + s.drift - s.curPts, curPts := pts, drift := pts - now, paused := false)
    else s.(now := now, paused := true)
  }

  function Size(x: real): real {
    if x < 0.0 then -x else x
  }

  /** How far a following clock must be off for a delay to be corrected. */
  function Threshold(n: real): real {
    if n > 0.01 then n else 0.01
  }

  /** A picture is due d after the one before, where its times say n: what is then left of the offset diff is never more than
      before, and less by n when the clock follows another and is off by more than the threshold and less than 10 seconds; and
      otherwise the picture is due when its times say. */
  ghost predicate Follows(n: real, d: real, slave: bool, diff: real) {
    var left := diff - (d - n);
    && Size(left) <= Size(diff) && d >= 0.0
    && (if slave && Threshold(n) <= Size(diff) < 10.0 then Size(left) == Size(diff) - n else d == n)
  }

  lemma CorrectionFollows(n: real, slave: bool, diff: real)
    requires n >= 0.0
    ensures Follows(n, CorrectedDelay(n, slave, diff), slave, diff)
  {
  }

  /** The offsets left after each picture, with n from one to the next. */
  function Offset(n: real, diff: real, k: nat): real {
    if k == 0 then diff
    else var before := Offset(n, diff, k - 1); before - (CorrectedDelay(n, true, before) - n)
  }

  /** A clock that follows another comes within the threshold of it: each picture takes its delay off the offset until then. */
  lemma {:induction false} SyncsUp(n: real, diff: real, k: nat)
    requires n >= 0.0 && Size(diff) < 10.0
    ensures Size(Offset(n, diff, k)) < Threshold(n) || Size(Offset(n, diff, k)) == Size(diff) - k as real * n
    ensures Size(Offset(n, diff, k)) <= Size(diff)
  {
    hide CorrectedDelay;
    if k > 0 {
      SyncsUp(n, diff, k - 1);
      CorrectionFollows(n, true, Offset(n, diff, k - 1));
    }
  }

  // ----- the steps

  ghost predicate Indexed(s: State) {
    |s.slots| == 2 && s.rindex < 2 && s.windex < 2
  }

  predicate DisplayMay(s: State, step: DisplayStep) {
    match step
    case Check(now) => now >= s.now && s.display == Idle
    case Leave => s.display == Hold
    case Lower => s.display == Leaving
    case Allocate => s.display == Idle && s.decoder == Alloc
    case Pause(now, _) => now >= s.now && s.display != Busy
  }

  function DisplayDoes(s: State, step: DisplayStep): (r: State)
    requires Indexed(s) && DisplayMay(s, step)
    ensures r.epoch == s.epoch && r.left == s.left + if step.Leave? then 1 else 0
  {
    match step
    case Check(now) =>
      var vp := s.slots[s.rindex];
      if s.size == 0 || now < vp.target then s.(now := now)
      else s.(now := now, curPts := vp.pts, drift := vp.pts - now, display := Hold)
    case Leave => s.(rindex := 1 - s.rindex, display := Leaving, left := s.left + 1)
    case Lower => s.(size := s.size - 1, asleepPictures := false, display := Idle)
    case Allocate => s.(slots := s.slots[s.windex := s.slots[s.windex].(ready := true)], asleepPictures := false)
    case Pause(now, enosys) => Paused(s, now, enosys)
  }

  predicate DecoderMay(s: State, step: DecoderStep) {
    match step
    case TakePacket(_) => s.decoder == Get && !s.asleepPackets
    case WaitRoom => s.decoder == Full && !s.asleepPictures
    case LookAtSlot(_) => s.decoder == Room
    case WaitAlloc => s.decoder == Alloc && !s.asleepPictures
    case CopyPicture(_) => s.decoder == Write
    case MoveWrite => s.decoder == Advance
    case Raise(_, _) => s.decoder == Commit
    case ClearClocks => s.decoder == Flush
    case WaitEmpty => s.decoder == Drain && !s.asleepPictures
    case ResetClocks(now) => now >= s.now && s.decoder == Reset
  }

  function Taken(s: State, picture: bool): (r: State)
    ensures r.left == s.left
    ensures r.epoch == if !s.abort && s.packets != [] then s.packets[0].epoch else s.epoch
  {
    if s.abort then s.(decoder := Done)
    else if s.packets == [] then s.(asleepPackets := true)
    else
      var p := s.packets[0];
      if p.Marker? then s.(packets := s.packets[1..], decoder := Flush, epoch := p.epoch)
      else s.(packets := s.packets[1..], decoder := if picture then Full else Get, epoch := p.epoch)
  }

  /** The picture committed: its target time is the frame timer moved by the delay. */
  function Raised(s: State, slave: bool, diff: real): State
    requires Indexed(s)
  {
    var w := 1 - s.windex;
    var (delay, last) := NominalDelay(s.lastPts, s.lastDelay, s.slots[w].pts);
    var timer := s.timer + CorrectedDelay(delay, slave, diff);
    s.(slots := s.slots[w := s.slots[w].(target := timer)], timer := timer, lastDelay := last,
       lastPts := Some(s.slots[w].pts), size := s.size + 1, decoder := Get)
  }

  function DecoderDoes(s: State, step: DecoderStep): (r: State)
    requires Indexed(s) && DecoderMay(s, step)
    ensures r.left == s.left
    ensures r.epoch == if step.TakePacket? then Taken(s, step.picture).epoch else s.epoch
  {
    match step
    case TakePacket(picture) => Taken(s, picture)
    case WaitRoom =>
      if s.size >= 2 && !s.abort then s.(asleepPictures := true) else s.(decoder := Room)
    case LookAtSlot(fits) =>
      if s.abort then s.(decoder := Done)
      else if fits then s.(decoder := Write)
      else s.(slots := s.slots[s.windex := s.slots[s.windex].(ready := false)], decoder := Alloc)
    case WaitAlloc =>
      if !s.slots[s.windex].ready && !s.abort then s.(asleepPictures := true)
      else if s.abort then s.(decoder := Done)
      else s.(decoder := Write)
    case CopyPicture(pts) =>
      s.(slots := s.slots[s.windex := s.slots[s.windex].(id := s.entered, epoch := s.epoch, pts := pts)],
         entered := s.entered + 1, decoder := Advance)
    case MoveWrite => s.(windex := 1 - s.windex, decoder := Commit)
    case Raise(slave, diff) => Raised(s, slave, diff)
    case ClearClocks =>
      s.(slots := [s.slots[0].(target := 0.0), s.slots[1].(target := 0.0)], decoder := Drain)
    case WaitEmpty =>
      if s.size != 0 && !s.abort then s.(asleepPictures := true) else s.(decoder := Reset)
    case ResetClocks(now) => s.(now := now, lastPts := None, lastDelay := 0.0, timer := now, decoder := Get)
  }

  predicate ReaderMay(s: State, step: ReaderStep) {
    match step
    case Put => s.reader == Reading
    case SeekFlush => s.reader == Reading
    case SeekMark => s.reader == Seeking
    case SeekLost => s.reader == Seeking
  }

  function ReaderDoes(s: State, step: ReaderStep): (r: State)
    requires ReaderMay(s, step)
    ensures r.epoch == s.epoch && r.left == s.left
  {
    match step
    case Put => s.(packets := s.packets + [Data(s.seeks)], asleepPackets := false)
    case SeekFlush => s.(packets := [], seeks := s.seeks + 1, reader := Seeking)
    case SeekMark => s.(packets := s.packets + [Marker(s.seeks)], asleepPackets := false, reader := Reading)
    case SeekLost => s.(reader := Reading, marked := false)
  }

  predicate CloserMay(s: State, step: CloserStep) {
    match step
    case Abort(byReader) => s.closing == Open && if byReader then s.reader == Reading else s.display == Idle
    case Signal => s.closing == Aborted
  }

  function CloserDoes(s: State, step: CloserStep): (r: State)
    requires CloserMay(s, step)
    ensures r.epoch == s.epoch && r.left == s.left
  {
    match step
    case Abort(byReader) =>
      var r := s.(abort := true, asleepPackets := false, closing := Aborted);
      if byReader then r.(reader := Stopped) else r.(display := Busy)
    case Signal => s.(asleepPictures := false, closing := Signalled)
  }

  predicate Enabled(s: State, step: Step) {
    match step
    case ByDisplay(d) => DisplayMay(s, d)
    case ByDecoder(c) => DecoderMay(s, c)
    case ByReader(r) => ReaderMay(s, r)
    case ByCloser(k) => CloserMay(s, k)
  }

  function Apply(s: State, step: Step): State
    requires Indexed(s) && Enabled(s, step)
  {
    match step
    case ByDisplay(d) => DisplayDoes(s, d)
    case ByDecoder(c) => DecoderDoes(s, c)
    case ByReader(r) => ReaderDoes(s, r)
    case ByCloser(k) => CloserDoes(s, k)
  }

  // ----- the invariant

  /** The pictures the display thread has not left yet. */
  function Live(s: State): int {
    s.size - if s.display == Leaving then 1 else 0
  }

  /** One while a picture is in its slot but not yet counted. */
  function Pending(s: State): int {
    if s.decoder == Advance || s.decoder == Commit then 1 else 0
  }

  /** The first and second slots in reading order. */
  function First(s: State): Slot
    requires Indexed(s)
  {
    s.slots[s.rindex]
  }

  function Second(s: State): Slot
    requires Indexed(s)
  {
    s.slots[1 - s.rindex]
  }

  /** The ring indices: the decoder writes after the pictures that are live and the one it is committing. */
  ghost predicate Shape(s: State) {
    && Indexed(s) && 0 <= s.size <= 2 && 0 <= Live(s) && Live(s) + Pending(s) <= 2
    && s.windex == (if Live(s) + (if s.decoder == Commit then 1 else 0) == 1 then 1 - s.rindex else s.rindex)
    && (s.display == Hold ==> Live(s) >= 1)
    && (s.decoder == Room && !s.abort ==> s.size <= 1)
    && (s.decoder == Alloc || s.decoder == Write || s.decoder == Advance || s.decoder == Commit ==> s.size <= 1)
    && (s.abort <==> s.closing != Open)
  }

  /** The pictures in the ring are the latest ones that entered, in order. */
  ghost predicate Ordered(s: State)
    requires Indexed(s)
  {
    && s.entered == s.left + Live(s) + Pending(s)
    && (s.entered - s.left >= 1 ==> First(s).id == s.left)
    && (s.entered - s.left >= 2 ==> Second(s).id == s.left + 1)
  }

  /** Target times never decrease along the ring, nor past the frame timer. */
  ghost predicate Timed(s: State)
    requires Indexed(s)
  {
    && s.now >= 0.0 && s.timer >= 0.0 && s.lastDelay >= 0.0 && s.curPts - s.drift <= s.now
    && (Live(s) >= 1 ==> First(s).target <= s.timer)
    && (Live(s) >= 2 ==> First(s).target <= Second(s).target <= s.timer)
    && (s.decoder == Drain || s.decoder == Reset ==> s.slots[0].target == 0.0 && s.slots[1].target == 0.0)
  }

  /** The queue holds packets of the current epoch only, its marker first; and unless a marker has been lost, the decoder goes
      on with a packet of another epoch than its own only after that epoch's marker. */
  ghost predicate Queued(s: State) {
    && (forall k | 0 <= k < |s.packets| :: s.packets[k].epoch == s.seeks && (s.packets[k].Marker? ==> k == 0))
    && s.epoch <= s.seeks
    && (s.reader == Seeking ==> s.packets == [] && s.epoch < s.seeks)
    && (if s.packets != [] && s.packets[0].Marker? then s.epoch < s.seeks
        else s.marked ==> s.reader == Seeking || s.epoch == s.seeks)
  }

  /** Outside a flush the ring holds pictures of the decoder's epoch only, unless a marker has been lost. */
  ghost predicate Fresh(s: State)
    requires Indexed(s)
  {
    && (s.marked && !s.abort && s.decoder != Flush && s.decoder != Drain && s.decoder != Reset && s.decoder != Done ==>
          && (Live(s) + Pending(s) >= 1 ==> First(s).epoch == s.epoch)
          && (Live(s) + Pending(s) >= 2 ==> Second(s).epoch == s.epoch))
    && (s.decoder == Reset && !s.abort ==> s.size == 0)
  }

  /** A sleeping decoder has a reason to sleep, and none is left once closing has signalled. */
  ghost predicate Awake(s: State)
    requires Indexed(s)
  {
    && (s.asleepPackets ==> s.decoder == Get && s.packets == [] && !s.abort)
    && (s.asleepPictures ==>
          && s.closing != Signalled
          && ((s.decoder == Full && s.size == 2) || (s.decoder == Alloc && !s.slots[s.windex].ready)
              || (s.decoder == Drain && s.size > 0)))
  }

  ghost predicate Inv(s: State) {
    Shape(s) && Ordered(s) && Timed(s) && Queued(s) && Fresh(s) && Awake(s)
  }

  lemma InitInv(s: State)
    requires Init(s)
    ensures Inv(s)
  {
  }

  // ----- every step of every thread keeps it

  /** The ring and its counts are the same, and the pictures on their way too. */
  ghost predicate SameRing(s: State, r: State) {
    && r.slots == s.slots && r.size == s.size && r.rindex == s.rindex && r.windex == s.windex
    && r.entered == s.entered && r.left == s.left && Live(r) == Live(s) && Pending(r) == Pending(s)
  }

  predicate Flushing(d: Decoder) {
    d == Flush || d == Drain || d == Reset || d == Done
  }

  lemma OrderedKept(s: State, r: State)
    requires Indexed(s) && Ordered(s) && SameRing(s, r)
    ensures Indexed(r) && Ordered(r)
  {
    hide Live, Pending;
  }

  lemma TimedKept(s: State, r: State)
    requires Indexed(s) && Timed(s) && SameRing(s, r)
    requires r.now >= s.now && r.timer >= s.timer && r.lastDelay == s.lastDelay && r.curPts - r.drift <= r.now
    requires r.decoder == Drain || r.decoder == Reset ==> s.decoder == Drain || s.decoder == Reset
    ensures Indexed(r) && Timed(r)
  {
    hide Live, Pending;
  }

  lemma QueuedKept(s: State, r: State)
    requires Queued(s) && r.packets == s.packets && r.seeks == s.seeks && r.epoch == s.epoch
    requires r.reader == Seeking <==> s.reader == Seeking
    requires r.marked == s.marked
    ensures Queued(r)
  {
  }

  lemma FreshKept(s: State, r: State)
    requires Indexed(s) && Fresh(s) && SameRing(s, r) && r.epoch == s.epoch
    requires (r.marked ==> s.marked) && (!r.abort ==> !s.abort)
    requires r.abort || Flushing(r.decoder) || !Flushing(s.decoder)
    requires r.decoder == Reset && !r.abort ==> r.size == 0 || s.decoder == Reset
    ensures Indexed(r) && Fresh(r)
  {
    hide Live, Pending;
  }

  lemma TimedClock(s: State)
    requires Indexed(s) && Timed(s)
    ensures s.curPts - s.drift <= s.now
  {
  }

  lemma CheckKeeps(s: State, step: DisplayStep)
    requires Inv(s) && step.Check? && DisplayMay(s, step)
    ensures Inv(DisplayDoes(s, step))
  {
    hide Shape, Ordered, Timed, Queued, Fresh, Awake, SameRing;
    ShapeIndexed(s);
    TimedClock(s);
    var r := DisplayDoes(s, step);
    CheckIs(s, step);
    hide DisplayDoes, DisplayMay;
    HoldShape(s, r);
    OrderedKept(s, r);
    TimedKept(s, r);
    QueuedKept(s, r);
    FreshKept(s, r);
  }

  lemma CheckIs(s: State, step: DisplayStep)
    requires Indexed(s) && step.Check? && DisplayMay(s, step) && s.curPts - s.drift <= s.now
    ensures var r := DisplayDoes(s, step);
            && r == s.(now := step.now, curPts := r.curPts, drift := r.drift, display := r.display)
            && r.now >= s.now && r.curPts - r.drift <= r.now && s.display == Idle
            && (r.display == Idle || (r.display == Hold && s.size != 0))
  {
  }

  lemma ShapeIndexed(s: State)
    requires Shape(s)
    ensures Indexed(s)
  {
  }

  lemma HoldShape(s: State, r: State)
    requires Shape(s) && Awake(s) && s.display == Idle
    requires r == s.(now := r.now, curPts := r.curPts, drift := r.drift, display := r.display)
    requires r.display == Idle || (r.display == Hold && s.size != 0)
    ensures Shape(r) && Awake(r) && SameRing(s, r)
  {
  }

  lemma LeaveKeeps(s: State, step: DisplayStep)
    requires Inv(s) && step.Leave? && DisplayMay(s, step)
    ensures Inv(DisplayDoes(s, step))
  {
  }

  lemma LowerKeeps(s: State, step: DisplayStep)
    requires Inv(s) && step.Lower? && DisplayMay(s, step)
    ensures Inv(DisplayDoes(s, step))
  {
  }

  lemma AllocateKeeps(s: State, step: DisplayStep)
    requires Inv(s) && step.Allocate? && DisplayMay(s, step)
    ensures Inv(DisplayDoes(s, step))
  {
  }

  /** Resuming moves the frame timer by the time since the last picture was shown, never backwards; and the video clock goes on from
      where it was when the input cannot pause, and else from where it would be without the pause. */
  lemma PausedEffect(s: State, now: real, enosys: bool)
    requires s.curPts - s.drift <= s.now <= now
    ensures var r := Paused(s, now, enosys);
            && r == s.(now := now, timer := r.timer, curPts := r.curPts, drift := r.drift, paused := r.paused)
            && r.timer >= s.timer && r.curPts - r.drift <= now
            && r.paused == !s.paused
            && r.timer == (if s.paused then s.timer + (now - (s.curPts - s.drift)) else s.timer)
            && (s.paused ==> r.drift + now == if enosys then s.curPts else s.drift + now)
  {
  }

  lemma PauseKeeps(s: State, step: DisplayStep)
    requires Inv(s) && step.Pause? && DisplayMay(s, step)
    ensures Inv(DisplayDoes(s, step))
  {
    assert s.curPts - s.drift <= s.now by {
      TimedClock(s);
    }
    hide Ordered, Timed, Queued, Fresh, Paused;
    var r := DisplayDoes(s, step);
    PausedEffect(s, step.now, step.enosys);
    OrderedKept(s, r);
    TimedKept(s, r);
    QueuedKept(s, r);
    FreshKept(s, r);
  }

  /** A step that only moves the decoder on keeps what is said of ring, times and queue. */
  lemma MovedOn(s: State, r: State)
    requires Inv(s) && r == s.(decoder := r.decoder, asleepPictures := r.asleepPictures, asleepPackets := r.asleepPackets)
    requires Pending(r) == Pending(s) && (r.decoder == Drain || r.decoder == Reset ==> s.decoder == Drain)
    requires s.abort || Flushing(r.decoder) || !Flushing(s.decoder)
    requires r.decoder == Reset && !r.abort ==> r.size == 0
    ensures Indexed(r) && Ordered(r) && Timed(r) && Queued(r) && Fresh(r)
  {
    TimedClock(s);
    hide Ordered, Timed, Queued, Fresh, Awake;
    OrderedKept(s, r);
    TimedKept(s, r);
    QueuedKept(s, r);
    FreshKept(s, r);
  }

  lemma TakePacketKeeps(s: State, step: DecoderStep)
    requires Inv(s) && step.TakePacket? && DecoderMay(s, step)
    ensures Inv(DecoderDoes(s, step))
  {
    var r := DecoderDoes(s, step);
    hide Ordered, Timed, Queued, Fresh;
    if s.abort || s.packets == [] {
      MovedOn(s, r);
    } else {
      TimedClock(s);
      OrderedKept(s, r);
      TimedKept(s, r);
      TakenQueue(s, step.picture);
      TakenFresh(s, step.picture);
    }
  }

  lemma TakenQueue(s: State, picture: bool)
    requires Queued(s) && !s.abort && s.packets != []
    ensures Queued(Taken(s, picture))
    ensures s.marked && s.packets[0].Data? ==> s.packets[0].epoch == s.epoch
  {
  }

  lemma TakenFresh(s: State, picture: bool)
    requires Indexed(s) && Queued(s) && Fresh(s) && s.decoder == Get && !s.abort && s.packets != []
    ensures Fresh(Taken(s, picture))
  {
    TakenQueue(s, picture);
    hide Queued;
  }

  lemma WaitRoomKeeps(s: State, step: DecoderStep)
    requires Inv(s) && step.WaitRoom? && DecoderMay(s, step)
    ensures Inv(DecoderDoes(s, step))
  {
    hide Ordered, Timed, Queued, Fresh;
    MovedOn(s, DecoderDoes(s, step));
  }

  lemma LookAtSlotKeeps(s: State, step: DecoderStep)
    requires Inv(s) && step.LookAtSlot? && DecoderMay(s, step)
    ensures Inv(DecoderDoes(s, step))
  {
    if s.abort || step.fits {
      hide Ordered, Timed, Queued, Fresh;
      MovedOn(s, DecoderDoes(s, step));
    } else {
      hide Queued, Awake;
      QueuedKept(s, DecoderDoes(s, step));
    }
  }

  lemma WaitAllocKeeps(s: State, step: DecoderStep)
    requires Inv(s) && step.WaitAlloc? && DecoderMay(s, step)
    ensures Inv(DecoderDoes(s, step))
  {
    hide Ordered, Timed, Queued, Fresh;
    MovedOn(s, DecoderDoes(s, step));
  }

  lemma CopyPictureKeeps(s: State, step: DecoderStep)
    requires Inv(s) && step.CopyPicture? && DecoderMay(s, step)
    ensures Inv(DecoderDoes(s, step))
  {
  }

  lemma MoveWriteKeeps(s: State, step: DecoderStep)
    requires Inv(s) && step.MoveWrite? && DecoderMay(s, step)
    ensures Inv(DecoderDoes(s, step))
  {
  }

  lemma RaiseKeeps(s: State, step: DecoderStep)
    requires Inv(s) && step.Raise? && DecoderMay(s, step)
    ensures Inv(DecoderDoes(s, step))
  {
  }

  lemma ClearClocksKeeps(s: State, step: DecoderStep)
    requires Inv(s) && step.ClearClocks? && DecoderMay(s, step)
    ensures Inv(DecoderDoes(s, step))
  {
  }

  lemma WaitEmptyKeeps(s: State, step: DecoderStep)
    requires Inv(s) && step.WaitEmpty? && DecoderMay(s, step)
    ensures Inv(DecoderDoes(s, step))
  {
    hide Ordered, Timed, Queued, Fresh;
    MovedOn(s, DecoderDoes(s, step));
  }

  lemma ResetClocksKeeps(s: State, step: DecoderStep)
    requires Inv(s) && step.ResetClocks? && DecoderMay(s, step)
    ensures Inv(DecoderDoes(s, step))
  {
  }

  lemma PutKeeps(s: State, step: ReaderStep)
    requires Inv(s) && step.Put? && ReaderMay(s, step)
    ensures Inv(ReaderDoes(s, step))
  {
  }

  lemma SeekFlushKeeps(s: State, step: ReaderStep)
    requires Inv(s) && step.SeekFlush? && ReaderMay(s, step)
    ensures Inv(ReaderDoes(s, step))
  {
  }

  lemma SeekMarkKeeps(s: State, step: ReaderStep)
    requires Inv(s) && step.SeekMark? && ReaderMay(s, step)
    ensures Inv(ReaderDoes(s, step))
  {
  }

  lemma SeekLostKeeps(s: State, step: ReaderStep)
    requires Inv(s) && step.SeekLost? && ReaderMay(s, step)
    ensures Inv(ReaderDoes(s, step))
  {
  }

  lemma AbortKeeps(s: State, step: CloserStep)
    requires Inv(s) && step.Abort? && CloserMay(s, step)
    ensures Inv(CloserDoes(s, step))
  {
    hide Shape, Ordered, Timed, Queued, Fresh, Awake, SameRing;
    ShapeIndexed(s);
    var r := CloserDoes(s, step);
    AbortShape(s, step);
    TimedClock(s);
    OrderedKept(s, r);
    TimedKept(s, r);
    QueuedKept(s, r);
    FreshKept(s, r);
  }

  lemma AbortShape(s: State, step: CloserStep)
    requires Shape(s) && Awake(s) && step.Abort? && CloserMay(s, step)
    ensures var r := CloserDoes(s, step);
            && Shape(r) && Awake(r) && SameRing(s, r) && r.abort && (r.reader == Seeking <==> s.reader == Seeking)
            && r == s.(abort := true, asleepPackets := false, closing := r.closing, reader := r.reader, display := r.display)
  {
  }

  lemma SignalKeeps(s: State, step: CloserStep)
    requires Inv(s) && step.Signal? && CloserMay(s, step)
    ensures Inv(CloserDoes(s, step))
  {
  }

  lemma DisplayKeeps(s: State, step: DisplayStep)
    requires Inv(s) && DisplayMay(s, step)
    ensures Inv(DisplayDoes(s, step))
  {
    hide Inv, DisplayDoes, DisplayMay;
    if step.Check? {
      CheckKeeps(s, step);
    } else if step.Leave? {
      LeaveKeeps(s, step);
    } else if step.Lower? {
      LowerKeeps(s, step);
    } else if step.Allocate? {
      AllocateKeeps(s, step);
    } else {
      PauseKeeps(s, step);
    }
  }

  lemma DecoderKeeps(s: State, step: DecoderStep)
    requires Inv(s) && DecoderMay(s, step)
    ensures Inv(DecoderDoes(s, step))
  {
    hide Inv, DecoderDoes, DecoderMay;
    if step.TakePacket? {
      TakePacketKeeps(s, step);
    } else if step.WaitRoom? {
      WaitRoomKeeps(s, step);
    } else if step.LookAtSlot? {
      LookAtSlotKeeps(s, step);
    } else if step.WaitAlloc? {
      WaitAllocKeeps(s, step);
    } else if step.CopyPicture? {
      CopyPictureKeeps(s, step);
    } else if step.MoveWrite? {
      MoveWriteKeeps(s, step);
    } else if step.Raise? {
      RaiseKeeps(s, step);
    } else if step.ClearClocks? {
      ClearClocksKeeps(s, step);
    } else if step.WaitEmpty? {
      WaitEmptyKeeps(s, step);
    } else {
      ResetClocksKeeps(s, step);
    }
  }

  lemma ReaderKeeps(s: State, step: ReaderStep)
    requires Inv(s) && ReaderMay(s, step)
    ensures Inv(ReaderDoes(s, step))
  {
    hide Inv, ReaderDoes, ReaderMay;
    if step.Put? {
      PutKeeps(s, step);
    } else if step.SeekFlush? {
      SeekFlushKeeps(s, step);
    } else if step.SeekMark? {
      SeekMarkKeeps(s, step);
    } else {
      SeekLostKeeps(s, step);
    }
  }

  lemma CloserKeeps(s: State, step: CloserStep)
    requires Inv(s) && CloserMay(s, step)
    ensures Inv(CloserDoes(s, step))
  {
    hide Inv, CloserDoes, CloserMay;
    if step.Abort? {
      AbortKeeps(s, step);
    } else {
      SignalKeeps(s, step);
    }
  }

  lemma StepKeeps(s: State, step: Step)
    requires Inv(s) && Enabled(s, step)
    ensures Inv(Apply(s, step))
  {
    hide DisplayDoes, DecoderDoes, ReaderDoes, CloserDoes, DisplayMay, DecoderMay, ReaderMay, CloserMay, Inv;
    match step
    case ByDisplay(d) => DisplayKeeps(s, d);
    case ByDecoder(c) => DecoderKeeps(s, c);
    case ByReader(r) => ReaderKeeps(s, r);
    case ByCloser(k) => CloserKeeps(s, k);
  }

  /** When a picture is due: the target of the slot committed is the old frame timer and a delay d that corrects the delay n which
      its times say, and n is the time since the last picture when that is positive and below ten seconds, and else the delay
      remembered. */
  lemma RaisedTarget(s: State, slave: bool, diff: real)
    requires Inv(s) && s.decoder == Commit
    ensures var r, w := DecoderDoes(s, Raise(slave, diff)), 1 - s.windex;
            var pts, n := s.slots[w].pts, r.lastDelay;
            && |r.slots| == 2 && r.timer == r.slots[w].target && r.lastPts == Some(pts) && r.size == s.size + 1
            && (if s.lastPts.Some? && 0.0 < pts - s.lastPts.value < 10.0 then n == pts - s.lastPts.value else n == s.lastDelay)
            && Follows(n, r.slots[w].target - s.timer, slave, diff)
            && r.slots[w] == s.slots[w].(target := r.slots[w].target) && r.slots[1 - w] == s.slots[1 - w]
  {
    hide Ordered, Queued, Fresh, Awake, CorrectedDelay, Follows;
    var (delay, last) := NominalDelay(s.lastPts, s.lastDelay, s.slots[1 - s.windex].pts);
    CorrectionFollows(delay, slave, diff);
  }

  // ----- runs: any interleaving of the three threads

  ghost predicate IsRun(s: State, steps: seq<Step>)
    decreases |steps|
  {
    Indexed(s) && (steps == [] || (Enabled(s, steps[0]) && IsRun(Apply(s, steps[0]), steps[1..])))
  }

  ghost function Final(s: State, steps: seq<Step>): State
    requires IsRun(s, steps)
    decreases |steps|
  {
    if steps == [] then s else Final(Apply(s, steps[0]), steps[1..])
  }

  lemma {:induction false} RunKeeps(s: State, steps: seq<Step>)
    requires Inv(s) && IsRun(s, steps)
    ensures Inv(Final(s, steps))
    decreases |steps|
  {
    hide Inv, Apply, Enabled;
    if steps != [] {
      StepKeeps(s, steps[0]);
      RunKeeps(Apply(s, steps[0]), steps[1..]);
    }
  }

  /** A picture is shown when it is due, and not before. */
  ghost predicate OnTime(s: State) {
    Indexed(s) && (s.display == Hold ==> First(s).target <= s.now)
  }

  /** What is shown stays what it is, or has its time cleared. */
  ghost predicate StillShown(s: State, r: State)
    requires Indexed(s)
  {
    && Indexed(r) && r.rindex == s.rindex && r.now >= s.now >= 0.0 && r.display == s.display
    && (s.display == Hold ==> r.slots[s.rindex].target == s.slots[s.rindex].target || r.slots[s.rindex].target == 0.0)
  }

  lemma ShownOnTime(s: State, r: State)
    requires OnTime(s) && StillShown(s, r)
    ensures OnTime(r)
  {
  }

  /** The first picture is shown exactly when it is due, and the video clock then reads its time. */
  lemma ShownWhenDue(s: State, now: real)
    requires Inv(s) && DisplayMay(s, Check(now))
    ensures var r := DisplayDoes(s, Check(now));
            && (r.display == Hold <==> s.size > 0 && First(s).target <= now)
            && (r.display == Hold ==> r.curPts == First(s).pts && r.drift + now == First(s).pts && First(r) == First(s))
  {
    hide Ordered, Timed, Queued, Fresh, Awake;
  }

  lemma DisplayOnTime(s: State, step: DisplayStep)
    requires Shape(s) && s.now >= 0.0 && OnTime(s) && DisplayMay(s, step)
    ensures OnTime(DisplayDoes(s, step))
  {
    hide Paused;
    if step.Pause? {
      hide Shape;
      PauseShows(s, step);
      ShownOnTime(s, DisplayDoes(s, step));
    } else if step.Check? {
      hide Shape;
    }
  }

  lemma PauseShows(s: State, step: DisplayStep)
    requires Indexed(s) && s.now >= 0.0 && step.Pause? && DisplayMay(s, step)
    ensures StillShown(s, DisplayDoes(s, step))
  {
  }

  lemma RaiseShows(s: State, step: DecoderStep)
    requires Shape(s) && s.now >= 0.0 && step.Raise? && DecoderMay(s, step)
    ensures StillShown(s, DecoderDoes(s, step))
  {
    hide NominalDelay, CorrectedDelay;
  }

  lemma DecoderShows(s: State, step: DecoderStep)
    requires Indexed(s) && s.now >= 0.0 && !step.Raise? && DecoderMay(s, step)
    ensures StillShown(s, DecoderDoes(s, step))
  {
    hide Raised, Taken;
    if step.TakePacket? {
      TakenShows(s, step.picture);
    } else if !step.ClearClocks? && !step.ResetClocks? {
      hide StillShown;
      OthersShow(s, step);
    }
  }

  lemma OthersShow(s: State, step: DecoderStep)
    requires Indexed(s) && s.now >= 0.0 && DecoderMay(s, step)
    requires !step.Raise? && !step.TakePacket? && !step.ClearClocks? && !step.ResetClocks?
    ensures StillShown(s, DecoderDoes(s, step))
  {
    hide Raised, Taken;
  }

  lemma TakenShows(s: State, picture: bool)
    requires Indexed(s) && s.now >= 0.0
    ensures StillShown(s, Taken(s, picture))
  {
  }

  lemma ReaderShows(s: State, step: ReaderStep)
    requires Indexed(s) && s.now >= 0.0 && ReaderMay(s, step)
    ensures StillShown(s, ReaderDoes(s, step))
  {
  }

  lemma CloserOnTime(s: State, step: CloserStep)
    requires OnTime(s) && CloserMay(s, step)
    ensures OnTime(CloserDoes(s, step))
  {
  }

  lemma NowIsTime(s: State)
    requires Indexed(s) && Timed(s)
    ensures s.now >= 0.0
  {
  }

  lemma StepOnTime(s: State, step: Step)
    requires Inv(s) && OnTime(s) && Enabled(s, step)
    ensures OnTime(Apply(s, step))
  {
    hide Shape, Ordered, Timed, Queued, Fresh, Awake, OnTime, StillShown;
    hide DisplayDoes, DecoderDoes, ReaderDoes, CloserDoes, DisplayMay, DecoderMay, ReaderMay, CloserMay;
    ShapeIndexed(s);
    NowIsTime(s);
    match step
    case ByDisplay(d) => DisplayOnTime(s, d);
    case ByDecoder(c) =>
      if c.Raise? {
        RaiseShows(s, c);
      } else {
        DecoderShows(s, c);
      }
      ShownOnTime(s, DecoderDoes(s, c));
    case ByReader(r) => ReaderShows(s, r); ShownOnTime(s, ReaderDoes(s, r));
    case ByCloser(k) => CloserOnTime(s, k);
  }

  lemma {:induction false} RunOnTime(s: State, steps: seq<Step>)
    requires Inv(s) && OnTime(s) && IsRun(s, steps)
    ensures OnTime(Final(s, steps))
    decreases |steps|
  {
    hide Inv, Apply, Enabled, OnTime;
    if steps != [] {
      StepKeeps(s, steps[0]);
      StepOnTime(s, steps[0]);
      RunOnTime(Apply(s, steps[0]), steps[1..]);
    }
  }

  /** The pictures that leave the ring during a run, in order. */
  ghost function LeaveOrder(s: State, steps: seq<Step>): seq<nat>
    requires IsRun(s, steps)
    decreases |steps|
  {
    if steps == [] then []
    else
      (if steps[0] == ByDisplay(Leave) then [First(s).id] else []) + LeaveOrder(Apply(s, steps[0]), steps[1..])
  }

  lemma LeavingIsNext(s: State, step: Step)
    requires Inv(s) && Enabled(s, step)
    ensures Indexed(s) && (step == ByDisplay(Leave) ==> First(s).id == s.left)
    ensures Apply(s, step).left == s.left + if step == ByDisplay(Leave) then 1 else 0
  {
    hide Timed, Queued, Fresh, Awake, DisplayDoes, DecoderDoes, ReaderDoes, CloserDoes, DecoderMay, ReaderMay, CloserMay;
  }

  /** Pictures leave in the order they entered, none skipped and none twice. */
  lemma {:induction false} PicturesInOrder(s: State, steps: seq<Step>)
    requires Inv(s) && IsRun(s, steps)
    ensures var ids := LeaveOrder(s, steps);
            |ids| == Final(s, steps).left - s.left && forall k | 0 <= k < |ids| :: ids[k] == s.left + k
    decreases |steps|
  {
    hide Inv, Apply, Enabled;
    if steps != [] {
      StepKeeps(s, steps[0]);
      LeavingIsNext(s, steps[0]);
      PicturesInOrder(Apply(s, steps[0]), steps[1..]);
    }
  }

  lemma InitOnTime(s: State)
    requires Init(s)
    ensures OnTime(s)
  {
  }

  // ----- what becomes of a picture

  /** A picture as the decoder gives it: its time, and the seek it is from. */
  datatype Picture = Picture(pts: real, epoch: int)

  function Held(slot: Slot): Picture {
    Picture(slot.pts, slot.epoch)
  }

  /** The pictures that have entered and not left, first one first. */
  ghost function InRing(s: State): seq<Picture>
    requires Indexed(s)
  {
    (if Live(s) + Pending(s) >= 1 then [Held(First(s))] else []) + if Live(s) + Pending(s) >= 2 then [Held(Second(s))] else []
  }

  ghost function Arriving(s: State, step: Step): seq<Picture> {
    if step.ByDecoder? && step.c.CopyPicture? then [Picture(step.c.pts, s.epoch)] else []
  }

  ghost function Departing(s: State, step: Step): seq<Picture>
    requires Indexed(s)
  {
    if step == ByDisplay(Leave) then [Held(First(s))] else []
  }

  ghost function AllArriving(s: State, steps: seq<Step>): seq<Picture>
    requires IsRun(s, steps)
    decreases |steps|
  {
    if steps == [] then [] else Arriving(s, steps[0]) + AllArriving(Apply(s, steps[0]), steps[1..])
  }

  ghost function AllDeparting(s: State, steps: seq<Step>): seq<Picture>
    requires IsRun(s, steps)
    decreases |steps|
  {
    if steps == [] then [] else Departing(s, steps[0]) + AllDeparting(Apply(s, steps[0]), steps[1..])
  }

  lemma DisplayConserves(s: State, step: DisplayStep)
    requires Shape(s) && DisplayMay(s, step)
    ensures Indexed(DisplayDoes(s, step))
    ensures InRing(s) == Departing(s, ByDisplay(step)) + InRing(DisplayDoes(s, step))
  {
    hide Paused, InRing, Departing, DisplayDoes, DisplayMay, Shape;
    ShapeIndexed(s);
    match step
    case Check(_) => CheckConserves(s, step);
    case Leave => LeaveConserves(s, step);
    case Lower => LowerConserves(s, step);
    case Allocate => AllocateConserves(s, step);
    case Pause(_, _) => PauseConserves(s, step);
  }

  lemma CheckConserves(s: State, step: DisplayStep)
    requires Indexed(s) && DisplayMay(s, step) && step.Check?
    ensures Indexed(DisplayDoes(s, step))
    ensures InRing(s) == Departing(s, ByDisplay(step)) + InRing(DisplayDoes(s, step))
  {
    assert SameRing(s, DisplayDoes(s, step));
    hide InRing;
    SameInRing(s, DisplayDoes(s, step));
    assert [] + InRing(s) == InRing(s);
  }

  lemma LeaveConserves(s: State, step: DisplayStep)
    requires Shape(s) && DisplayMay(s, step) && step.Leave?
    ensures Indexed(DisplayDoes(s, step))
    ensures InRing(s) == Departing(s, ByDisplay(step)) + InRing(DisplayDoes(s, step))
  {
  }

  lemma LowerConserves(s: State, step: DisplayStep)
    requires Indexed(s) && DisplayMay(s, step) && step.Lower?
    ensures Indexed(DisplayDoes(s, step))
    ensures InRing(s) == Departing(s, ByDisplay(step)) + InRing(DisplayDoes(s, step))
  {
    assert [] + InRing(s) == InRing(s);
  }

  lemma AllocateConserves(s: State, step: DisplayStep)
    requires Indexed(s) && DisplayMay(s, step) && step.Allocate?
    ensures Indexed(DisplayDoes(s, step))
    ensures InRing(s) == Departing(s, ByDisplay(step)) + InRing(DisplayDoes(s, step))
  {
    assert [] + InRing(s) == InRing(s);
  }

  lemma PauseConserves(s: State, step: DisplayStep)
    requires Indexed(s) && step.Pause? && DisplayMay(s, step)
    ensures Indexed(DisplayDoes(s, step))
    ensures InRing(s) == Departing(s, ByDisplay(step)) + InRing(DisplayDoes(s, step))
  {
    assert [] + InRing(s) == InRing(s);
  }

  /** A step that leaves slots and counts alone leaves the pictures. */
  lemma SameInRing(s: State, r: State)
    requires Indexed(s) && SameRing(s, r)
    ensures Indexed(r) && InRing(r) == InRing(s)
  {
    hide Live, Pending;
  }

  lemma DecoderConserves(s: State, step: DecoderStep)
    requires Shape(s) && DecoderMay(s, step)
    ensures Indexed(DecoderDoes(s, step))
    ensures InRing(s) + Arriving(s, ByDecoder(step)) == InRing(DecoderDoes(s, step))
  {
    if step.CopyPicture? {
      CopyConserves(s, step);
    } else {
      assert InRing(s) + [] == InRing(s);
      hide InRing, NominalDelay, CorrectedDelay;
      OtherConserves(s, step);
    }
  }

  lemma CopyConserves(s: State, step: DecoderStep)
    requires Shape(s) && DecoderMay(s, step) && step.CopyPicture?
    ensures Indexed(DecoderDoes(s, step))
    ensures InRing(s) + Arriving(s, ByDecoder(step)) == InRing(DecoderDoes(s, step))
  {
  }

  lemma OtherConserves(s: State, step: DecoderStep)
    requires Shape(s) && DecoderMay(s, step) && !step.CopyPicture?
    ensures Indexed(DecoderDoes(s, step)) && InRing(DecoderDoes(s, step)) == InRing(s)
  {
    hide Raised, Taken, InRing, DecoderDoes, DecoderMay, Shape, SameRing;
    ShapeIndexed(s);
    if step.Raise? {
      RaiseConserves(s, step);
    } else if step.ClearClocks? || step.LookAtSlot? || step.MoveWrite? {
      SlotsConserve(s, step);
    } else {
      OtherSame(s, step);
      SameInRing(s, DecoderDoes(s, step));
    }
  }

  /** The pictures are the same where the slots hold the same and as many count. */
  ghost predicate SamePictures(s: State, r: State)
    requires Indexed(s)
  {
    && Indexed(r) && r.rindex == s.rindex && Live(r) + Pending(r) == Live(s) + Pending(s)
    && Held(r.slots[0]) == Held(s.slots[0]) && Held(r.slots[1]) == Held(s.slots[1])
  }

  lemma SamePicturesInRing(s: State, r: State)
    requires Indexed(s) && SamePictures(s, r)
    ensures Indexed(r) && InRing(r) == InRing(s)
  {
    hide Live, Pending;
  }

  lemma SlotsConserve(s: State, step: DecoderStep)
    requires Indexed(s) && DecoderMay(s, step) && (step.ClearClocks? || step.LookAtSlot? || step.MoveWrite?)
    ensures Indexed(DecoderDoes(s, step)) && InRing(DecoderDoes(s, step)) == InRing(s)
  {
    hide Raised, Taken, InRing, SamePictures, DecoderDoes, DecoderMay;
    if step.ClearClocks? {
      ClearConserves(s, step);
    } else if step.LookAtSlot? {
      LookConserves(s, step);
    } else {
      MoveConserves(s, step);
    }
    SamePicturesInRing(s, DecoderDoes(s, step));
  }

  lemma ClearConserves(s: State, step: DecoderStep)
    requires Indexed(s) && DecoderMay(s, step) && step.ClearClocks?
    ensures SamePictures(s, DecoderDoes(s, step))
  {
  }

  lemma LookConserves(s: State, step: DecoderStep)
    requires Indexed(s) && DecoderMay(s, step) && step.LookAtSlot?
    ensures SamePictures(s, DecoderDoes(s, step))
  {
  }

  lemma MoveConserves(s: State, step: DecoderStep)
    requires Indexed(s) && DecoderMay(s, step) && step.MoveWrite?
    ensures SamePictures(s, DecoderDoes(s, step))
  {
  }

  lemma RaiseConserves(s: State, step: DecoderStep)
    requires Shape(s) && DecoderMay(s, step) && step.Raise?
    ensures Indexed(DecoderDoes(s, step)) && InRing(DecoderDoes(s, step)) == InRing(s)
  {
    hide NominalDelay, CorrectedDelay;
  }

  lemma OtherSame(s: State, step: DecoderStep)
    requires Indexed(s) && DecoderMay(s, step)
    requires step.TakePacket? || step.WaitRoom? || step.WaitAlloc? || step.WaitEmpty? || step.ResetClocks?
    ensures SameRing(s, DecoderDoes(s, step))
  {
    hide Raised;
    if step.TakePacket? {
      hide Taken;
      TakenSame(s, step.picture);
    }
  }

  lemma TakenSame(s: State, picture: bool)
    requires s.decoder == Get
    ensures SameRing(s, Taken(s, picture))
  {
  }

  lemma ReaderConserves(s: State, step: ReaderStep)
    requires Indexed(s) && ReaderMay(s, step)
    ensures SameRing(s, ReaderDoes(s, step))
  {
  }

  lemma CloserConserves(s: State, step: CloserStep)
    requires Indexed(s) && CloserMay(s, step)
    ensures SameRing(s, CloserDoes(s, step))
  {
  }

  lemma StepConserves(s: State, step: Step)
    requires Inv(s) && Enabled(s, step)
    ensures Indexed(Apply(s, step))
    ensures InRing(s) + Arriving(s, step) == Departing(s, step) + InRing(Apply(s, step))
  {
    hide Shape, Ordered, Timed, Queued, Fresh, Awake, SameRing, InRing;
    hide DisplayDoes, DecoderDoes, ReaderDoes, CloserDoes, DisplayMay, DecoderMay, ReaderMay, CloserMay;
    ShapeIndexed(s);
    var now := InRing(s);
    assert now + [] == [] + now == now;
    match step
    case ByDisplay(d) => DisplayConserves(s, d);
    case ByDecoder(c) => DecoderConserves(s, c); assert [] + InRing(DecoderDoes(s, c)) == InRing(DecoderDoes(s, c));
    case ByReader(r) => ReaderConserves(s, r); SameInRing(s, ReaderDoes(s, r));
    case ByCloser(k) => CloserConserves(s, k); SameInRing(s, CloserDoes(s, k));
  }

  /** In every interleaving the pictures that leave the ring, and then those in it, are those that were in it and those that entered,
      in order, each with the time and the seek the decoder gave it. */
  lemma {:induction false} PicturesConserved(s: State, steps: seq<Step>)
    requires Inv(s) && IsRun(s, steps)
    ensures Indexed(Final(s, steps))
    ensures InRing(s) + AllArriving(s, steps) == AllDeparting(s, steps) + InRing(Final(s, steps))
    decreases |steps|
  {
    hide Inv, Apply, Enabled, InRing, Arriving, Departing;
    if steps == [] {
      assert InRing(s) + [] == [] + InRing(s);
    } else {
      var r, rest := Apply(s, steps[0]), steps[1..];
      StepKeeps(s, steps[0]);
      StepConserves(s, steps[0]);
      PicturesConserved(r, rest);
      calc {
        InRing(s) + AllArriving(s, steps);
        (InRing(s) + Arriving(s, steps[0])) + AllArriving(r, rest);
        Departing(s, steps[0]) + (InRing(r) + AllArriving(r, rest));
        Departing(s, steps[0]) + (AllDeparting(r, rest) + InRing(Final(r, rest)));
        AllDeparting(s, steps) + InRing(Final(s, steps));
      }
    }
  }

  /** Pictures the decoder has and has not yet put into the ring. */
  function InHand(s: State): nat {
    if s.decoder == Full || s.decoder == Room || s.decoder == Alloc || s.decoder == Write then 1 else 0
  }

  function Decoded(s: State, step: Step): nat {
    if step.ByDecoder? && step.c.TakePacket? && step.c.picture && !s.abort && s.packets != [] && s.packets[0].Data? then 1 else 0
  }

  ghost function AllDecoded(s: State, steps: seq<Step>): nat
    requires IsRun(s, steps)
    decreases |steps|
  {
    if steps == [] then 0 else Decoded(s, steps[0]) + AllDecoded(Apply(s, steps[0]), steps[1..])
  }

  lemma DecoderLosesNone(s: State, step: DecoderStep)
    requires Indexed(s) && DecoderMay(s, step)
    ensures var r := DecoderDoes(s, step);
            r.abort == s.abort && (!s.abort ==> InHand(s) + Decoded(s, ByDecoder(step)) == InHand(r) + (r.entered - s.entered))
  {
    hide Raised, Taken;
    if step.TakePacket? {
      TakenLosesNone(s, step.picture);
    } else if step.Raise? {
      RaisedLosesNone(s, step.slave, step.diff);
    }
  }

  lemma TakenLosesNone(s: State, picture: bool)
    requires s.decoder == Get
    ensures var r := Taken(s, picture);
            && r.abort == s.abort && r.entered == s.entered
            && (!s.abort ==> InHand(r) == if picture && s.packets != [] && s.packets[0].Data? then 1 else 0)
  {
  }

  lemma RaisedLosesNone(s: State, slave: bool, diff: real)
    requires Indexed(s)
    ensures var r := Raised(s, slave, diff); r.abort == s.abort && r.entered == s.entered && r.decoder == Get
  {
    hide NominalDelay, CorrectedDelay;
  }

  lemma StepLosesNone(s: State, step: Step)
    requires Inv(s) && Enabled(s, step)
    ensures var r := Apply(s, step);
            (r.abort || !s.abort) && (!r.abort ==> InHand(s) + Decoded(s, step) == InHand(r) + (r.entered - s.entered))
  {
    hide Shape, Ordered, Timed, Queued, Fresh, Awake, DecoderDoes, DecoderMay, Paused;
    ShapeIndexed(s);
    match step
    case ByDisplay(d) => DisplayLosesNone(s, d);
    case ByDecoder(c) => DecoderLosesNone(s, c);
    case ByReader(r) =>
    case ByCloser(k) =>
  }

  lemma DisplayLosesNone(s: State, step: DisplayStep)
    requires Indexed(s) && DisplayMay(s, step)
    ensures var r := DisplayDoes(s, step); r.abort == s.abort && r.decoder == s.decoder && r.entered == s.entered
  {
    hide Paused;
    if step.Pause? {
      PausedLosesNone(s, step.now, step.enosys);
    }
  }

  lemma PausedLosesNone(s: State, now: real, enosys: bool)
    ensures var r := Paused(s, now, enosys); r.abort == s.abort && r.decoder == s.decoder && r.entered == s.entered
  {
  }

  /** Until closing begins every picture decoded enters the ring, but for one in hand. */
  lemma {:induction false} NoneLost(s: State, steps: seq<Step>)
    requires Inv(s) && IsRun(s, steps)
    ensures var t := Final(s, steps);
            (t.abort || !s.abort) && (!t.abort ==> InHand(s) + AllDecoded(s, steps) == InHand(t) + (t.entered - s.entered))
    decreases |steps|
  {
    hide Inv, Apply, Enabled, InHand, Decoded;
    if steps != [] {
      StepKeeps(s, steps[0]);
      StepLosesNone(s, steps[0]);
      NoneLost(Apply(s, steps[0]), steps[1..]);
    }
  }

  // ----- the first picture after a seek

  /** The clocks as a flush leaves them. */
  ghost predicate Restarted(s: State, start: real) {
    s.lastPts == None && s.lastDelay == 0.0 && s.timer == start
  }

  ghost predicate NoRaise(steps: seq<Step>) {
    forall k | 0 <= k < |steps| :: Unraised(steps[k])
  }

  /** No step of the decoder that times a picture or flushes, and no pause. */
  predicate Unraised(step: Step) {
    match step
    case ByDisplay(d) => !d.Pause?
    case ByDecoder(c) => !c.Raise? && !c.ResetClocks?
    case _ => true
  }

  lemma DisplayKeepsClocks(s: State, step: DisplayStep)
    requires Indexed(s) && DisplayMay(s, step) && !step.Pause?
    ensures var r := DisplayDoes(s, step); r.lastPts == s.lastPts && r.lastDelay == s.lastDelay && r.timer == s.timer
  {
    hide Paused;
  }

  lemma DecoderKeepsClocks(s: State, step: DecoderStep)
    requires Indexed(s) && DecoderMay(s, step) && !step.Raise? && !step.ResetClocks?
    ensures var r := DecoderDoes(s, step); r.lastPts == s.lastPts && r.lastDelay == s.lastDelay && r.timer == s.timer
  {
    hide Raised;
    if step.TakePacket? {
      hide Taken;
      TakenKeepsClocks(s, step.picture);
    }
  }

  lemma TakenKeepsClocks(s: State, picture: bool)
    ensures var r := Taken(s, picture); r.lastPts == s.lastPts && r.lastDelay == s.lastDelay && r.timer == s.timer
  {
  }

  lemma StaysRestarted(s: State, step: Step, start: real)
    requires Indexed(s) && Enabled(s, step) && Restarted(s, start) && Unraised(step)
    ensures Restarted(Apply(s, step), start)
  {
    hide DisplayDoes, DecoderDoes, DisplayMay, DecoderMay;
    match step
    case ByDisplay(d) => DisplayKeepsClocks(s, d);
    case ByDecoder(c) => DecoderKeepsClocks(s, c);
    case ByReader(r) =>
    case ByCloser(k) =>
  }

  lemma {:induction false} RunRestarted(s: State, steps: seq<Step>, start: real)
    requires Inv(s) && IsRun(s, steps) && Restarted(s, start) && NoRaise(steps)
    ensures Restarted(Final(s, steps), start) && Inv(Final(s, steps))
    decreases |steps|
  {
    hide Inv, Apply, Enabled, Restarted, Unraised;
    if steps != [] {
      assert Unraised(steps[0]);
      assert forall k | 0 <= k < |steps| - 1 :: steps[1..][k] == steps[k + 1] && Unraised(steps[k + 1]);
      StepKeeps(s, steps[0]);
      StaysRestarted(s, steps[0], start);
      RunRestarted(Apply(s, steps[0]), steps[1..], start);
    }
  }

  /** The first picture after a flush is due at the moment of the flush, however the threads go on until it is timed and whatever clock
      is followed, when no pause comes in between. */
  lemma AfterSeekAtOnce(s: State, now: real, steps: seq<Step>, slave: bool, diff: real)
    requires Inv(s) && DecoderMay(s, ResetClocks(now))
    requires var r := DecoderDoes(s, ResetClocks(now)); IsRun(r, steps) && NoRaise(steps) && Final(r, steps).decoder == Commit
    ensures var t := Final(DecoderDoes(s, ResetClocks(now)), steps);
            Inv(t) && DecoderDoes(t, Raise(slave, diff)).slots[1 - t.windex].target == now
  {
    hide IsRun, Final;
    var r := DecoderDoes(s, ResetClocks(now));
    ResetClocksKeeps(s, ResetClocks(now));
    RunRestarted(r, steps, now);
    var t := Final(r, steps);
    RaisedTarget(t, slave, diff);
    hide Inv;
    AtOnce(slave, diff);
  }

  lemma AtOnce(slave: bool, diff: real)
    ensures forall d: real :: Follows(0.0, d, slave, diff) && d == CorrectedDelay(0.0, slave, diff) ==> d == 0.0
  {
  }

  /** In every interleaving: the size stays within 0..2; the slot the decoder writes, or gets a bitmap for, or times, is
      none of those the display thread may read; a picture is shown only when it is due; and the later of two queued pictures
      is not due before the earlier. */
  lemma RingSafe(s: State, steps: seq<Step>)
    requires Init(s) && IsRun(s, steps)
    ensures var t := Final(s, steps);
            && Indexed(t) && 0 <= t.size <= 2
            && (t.decoder == Alloc || t.decoder == Write || t.decoder == Advance ==> Live(t) < 2 && (Live(t) == 1 ==> t.windex != t.rindex))
            && (t.decoder == Commit ==> Live(t) < 2 && (Live(t) == 1 ==> 1 - t.windex != t.rindex))
            && (t.display == Hold ==> Live(t) >= 1 && t.slots[t.rindex].target <= t.now)
            && (t.display == Idle && t.size > 1 ==> t.slots[(t.rindex + 1) % 2].target >= t.slots[t.rindex].target)
  {
    hide Init, IsRun, Final, Inv, OnTime;
    InitInv(s);
    InitOnTime(s);
    RunKeeps(s, steps);
    RunOnTime(s, steps);
    SafeHere(Final(s, steps));
  }

  lemma SafeHere(t: State)
    requires Inv(t) && OnTime(t)
    ensures Indexed(t) && 0 <= t.size <= 2
    ensures t.decoder == Alloc || t.decoder == Write || t.decoder == Advance ==> Live(t) < 2 && (Live(t) == 1 ==> t.windex != t.rindex)
    ensures t.decoder == Commit ==> Live(t) < 2 && (Live(t) == 1 ==> 1 - t.windex != t.rindex)
    ensures t.display == Hold ==> Live(t) >= 1 && t.slots[t.rindex].target <= t.now
    ensures t.display == Idle && t.size > 1 ==> t.slots[(t.rindex + 1) % 2].target >= t.slots[t.rindex].target
  {
    hide Ordered, Queued, Fresh, Awake;
  }

  // ----- seeks

  lemma EpochGrows(s: State, step: Step)
    requires Inv(s) && Enabled(s, step)
    ensures s.epoch <= Apply(s, step).epoch
  {
    hide Ordered, Timed, Fresh, Awake, DisplayDoes, DecoderDoes, ReaderDoes, CloserDoes, DisplayMay, DecoderMay, ReaderMay, CloserMay;
  }

  lemma {:induction false} RunEpoch(s: State, steps: seq<Step>)
    requires Inv(s) && IsRun(s, steps)
    ensures s.epoch <= Final(s, steps).epoch
    decreases |steps|
  {
    hide Inv, Apply, Enabled;
    if steps != [] {
      StepKeeps(s, steps[0]);
      EpochGrows(s, steps[0]);
      RunEpoch(Apply(s, steps[0]), steps[1..]);
    }
  }

  /** Once a packet of an epoch has been taken, no packet put before that epoch's seek is ever taken; and if every seek got
      its marker, no picture from before the decoder's epoch is in the ring once the clocks are reset. */
  lemma NothingStale(s: State, steps: seq<Step>)
    requires Inv(s) && IsRun(s, steps)
    ensures var t := Final(s, steps);
            && Indexed(t)
            && (forall k | 0 <= k < |t.packets| :: t.packets[k].epoch >= s.epoch)
            && (t.marked && t.packets != [] && t.packets[0].Data? ==> t.packets[0].epoch == t.epoch)
            && (t.marked && t.decoder == Get && !t.abort && Live(t) >= 1 ==> First(t).epoch == t.epoch >= s.epoch)
            && (t.marked && t.decoder == Get && !t.abort && Live(t) >= 2 ==> Second(t).epoch == t.epoch)
  {
    RunKeeps(s, steps);
    RunEpoch(s, steps);
    hide IsRun, Final;
  }

  /** A seek, no memory for its marker, and the first packet after it. */
  const LOST: seq<Step> := [ByReader(SeekFlush), ByReader(SeekLost), ByReader(Put), ByDecoder(TakePacket(false))]

  /** The marker is needed: when it is lost, whatever picture is in the ring is from before the seek, and stays there. */
  lemma LostMarker(s: State)
    requires Inv(s) && s.marked && s.reader == Reading && s.closing == Open && s.decoder == Get && Live(s) >= 1
    ensures IsRun(s, LOST)
    ensures var t := Final(s, LOST);
            Indexed(t) && t.decoder == Get && !t.abort && Live(t) == Live(s) && First(t) == First(s) && First(t).epoch < t.epoch
  {
    hide Timed, Ordered;
    var s1 := Apply(s, LOST[0]);
    var s2 := Apply(s1, LOST[1]);
    var s3 := Apply(s2, LOST[2]);
    assert LOST[1..][0] == LOST[1] && LOST[1..][1..][0] == LOST[2] && LOST[1..][1..][1..][0] == LOST[3];
    assert LOST[1..][1..][1..][1..] == [];
  }

  // ----- closing

  /** The decoder's distance from its end once closing has begun. */
  function Rank(d: Decoder): nat {
    match d
    case Done => 0
    case Get => 1
    case Room => 1
    case Full => 2
    case Commit => 2
    case Reset => 2
    case Advance => 3
    case Drain => 3
    case Write => 4
    case Flush => 4
    case Alloc => 1
  }

  /** After the second signal of closing the decoder is never asleep, can always move until it is done, and is done
      within four of its own moves, whatever the other threads do. */
  lemma ClosingEnds(s: State, step: Step)
    requires Inv(s) && s.closing == Signalled && Enabled(s, step)
    ensures !s.asleepPackets && !s.asleepPictures
    ensures s.decoder == Done || exists c :: DecoderMay(s, c)
    ensures Apply(s, step).closing == Signalled
    ensures Rank(s.decoder) <= 4 && if step.ByDecoder? then Rank(Apply(s, step).decoder) < Rank(s.decoder)
                                    else Apply(s, step).decoder == s.decoder
  {
    hide Ordered, Timed, Queued, Fresh, Enabled, Apply;
    if s.decoder != Done {
      DecoderMoves(s);
    }
    ClosingStep(s, step);
  }

  lemma DecoderMoves(s: State)
    requires !s.asleepPackets && !s.asleepPictures && s.decoder != Done
    ensures exists c :: DecoderMay(s, c)
  {
    match s.decoder
    case Get => assert DecoderMay(s, TakePacket(true));
    case Full => assert DecoderMay(s, WaitRoom);
    case Room => assert DecoderMay(s, LookAtSlot(true));
    case Alloc => assert DecoderMay(s, WaitAlloc);
    case Write => assert DecoderMay(s, CopyPicture(0.0));
    case Advance => assert DecoderMay(s, MoveWrite);
    case Commit => assert DecoderMay(s, Raise(false, 0.0));
    case Flush => assert DecoderMay(s, ClearClocks);
    case Drain => assert DecoderMay(s, WaitEmpty);
    case Reset => assert DecoderMay(s, ResetClocks(s.now));
    case Done =>
  }

  lemma ClosingStep(s: State, step: Step)
    requires Indexed(s) && s.abort && s.closing == Signalled && Enabled(s, step)
    ensures Apply(s, step).closing == Signalled
    ensures if step.ByDecoder? then Rank(Apply(s, step).decoder) < Rank(s.decoder) else Apply(s, step).decoder == s.decoder
  {
    hide DisplayDoes, DisplayMay, DecoderDoes, DecoderMay, ReaderDoes, ReaderMay, Rank;
    match step
    case ByDisplay(d) => DisplayLeaves(s, d);
    case ByDecoder(c) => DecoderEnds(s, c);
    case ByReader(r) => ReaderLeaves(s, r);
    case ByCloser(k) =>
  }

  lemma DisplayLeaves(s: State, step: DisplayStep)
    requires Indexed(s) && DisplayMay(s, step)
    ensures DisplayDoes(s, step).closing == s.closing && DisplayDoes(s, step).decoder == s.decoder
  {
  }

  lemma DecoderEnds(s: State, step: DecoderStep)
    requires Indexed(s) && s.abort && DecoderMay(s, step)
    ensures var r := DecoderDoes(s, step); r.closing == s.closing && Rank(r.decoder) < Rank(s.decoder)
  {
    hide NominalDelay, CorrectedDelay;
  }

  lemma ReaderLeaves(s: State, step: ReaderStep)
    requires ReaderMay(s, step)
    ensures ReaderDoes(s, step).closing == s.closing && ReaderDoes(s, step).decoder == s.decoder
  {
    }
}
