/** RTP packets sent inside an RTSP connection, between the replies (section 10.12 of RFC 2326). */
module RtspInterleave {
  import opened Wrappers

  type Bytes = seq<int>

  const MAX_PACKET: nat := 1472
  const REQUEST_ROOM: nat := 8191
  const DOLLAR: int := 0x24

  /** A whole reply, or a whole packet of one of the RTP sessions. */
  datatype Unit = Reply(bytes: Bytes) | Packet(session: nat, channel: int, data: Bytes)

  /** A unit as sent: a packet is framed by a dollar, its channel, and its length. */
  function Wire(u: Unit): Bytes {
    match u
    case Reply(bytes) => bytes
    case Packet(_, channel, data) => [DOLLAR, channel % 256, |data| / 256 % 256, |data| % 256] + data
  }

  function WireAll(units: seq<Unit>): Bytes {
    if units == [] then [] else WireAll(units[..|units| - 1]) + Wire(units[|units| - 1])
  }

  // ----- the RTSP connection

  datatype Phase = WaitRequest | SendReply | SendPacket

  /** left is what of the current unit is still to send, and of which session's memory; units, input and requests are what has
      been begun and received. */
  datatype Control = Control(phase: Phase, left: Bytes, owner: Option<nat>, request: Bytes, open: bool,
                             wire: Bytes, units: seq<Unit>, input: Bytes, requests: seq<Bytes>)

  const Fresh: Control := Control(WaitRequest, [], None, [], true, [], [], [], [])

  predicate EndsRequest(r: Bytes) {
    (|r| >= 2 && r[|r| - 2..] == [10, 10]) || (|r| >= 4 && r[|r| - 4..] == [13, 10, 13, 10])
  }

  /** One byte read while waiting for a request; reply is what the request, once whole, is answered with, if there is memory. */
  function ReadByte(c: Control, b: int, reply: Option<Bytes>): Control {
    if c.phase != WaitRequest then c
    else
      var r := c.request + [b];
      if EndsRequest(r) then
        var d := c.(request := [], input := c.input + [b], requests := c.requests + [r]);
        if reply.None? then d.(open := false)
        else d.(phase := SendReply, left := reply.value, owner := None, units := c.units + [Reply(reply.value)])
      else c.(request := r, input := c.input + [b], open := c.open && |r| < REQUEST_ROOM)
  }

  /** What a socket with room for n bytes takes of so many. */
  function Taken(n: nat, size: nat): (m: nat)
    ensures m <= size
  {
    if n < size then n else size
  }

  /** The socket takes more of what is being sent. */
  function Accept(c: Control, n: nat): Control {
    if c.phase == WaitRequest then c
    else
      var m := Taken(n, |c.left|);
      c.(wire := c.wire + c.left[..m], left := c.left[m..], phase := if m == |c.left| then WaitRequest else c.phase)
  }

  /** A packet is started, only while nothing else is being sent, and the socket takes some of it. */
  function StartPacket(c: Control, i: nat, u: Unit, n: nat): Control {
    if c.phase != WaitRequest then c
    else
      var m := Taken(n, |Wire(u)|);
      c.(wire := c.wire + Wire(u)[..m], left := Wire(u)[m..], owner := Some(i), units := c.units + [u],
         phase := if m == |Wire(u)| then WaitRequest else SendPacket)
  }

  /** Is a packet of session i under way? Its bytes stand in that session's memory. */
  predicate UnderWay(c: Control, i: nat) {
    c.phase == SendPacket && c.owner == Some(i)
  }

  /** A session's memory is freed: what is still to be sent from it may then be anything. */
  function Freed(c: Control, i: nat, junk: Bytes): Control {
    if UnderWay(c, i) && |junk| == |c.left| then c.(left := junk) else c
  }

  /** What has been sent, and what is still to be sent, are whole units one after another. */
  ghost predicate Whole(c: Control) {
    c.wire + c.left == WireAll(c.units)
  }

  ghost predicate ControlSound(c: Control) {
    && (c.phase == WaitRequest ==> c.left == [])
    && (c.phase == SendPacket ==> c.left != [])
    && (c.phase == SendReply ==> c.request == [])
    && (c.requests, c.request) == Cut(c.input)
    && (if c.open then Replies(c.units) == |c.requests| else Replies(c.units) <= |c.requests|)
  }

  /** Input cut after each blank line, and what follows the last. */
  function Cut(input: Bytes): (seq<Bytes>, Bytes) {
    if input == [] then ([], [])
    else
      var (whole, part) := Cut(input[..|input| - 1]);
      var r := part + [input[|input| - 1]];
      if EndsRequest(r) then (whole + [r], []) else (whole, r)
  }

  function Replies(units: seq<Unit>): nat {
    if units == [] then 0 else Replies(units[..|units| - 1]) + if units[|units| - 1].Reply? then 1 else 0
  }

  lemma UnitAdded(units: seq<Unit>, u: Unit)
    ensures WireAll(units + [u]) == WireAll(units) + Wire(u)
    ensures Replies(units + [u]) == Replies(units) + if u.Reply? then 1 else 0
  {
    assert (units + [u])[..|units|] == units;
  }

  lemma ByteAdded(input: Bytes, b: int)
    ensures var (whole, part) := Cut(input);
            Cut(input + [b]) == if EndsRequest(part + [b]) then (whole + [part + [b]], []) else (whole, part + [b])
  {
    assert (input + [b])[..|input|] == input;
  }

  // ----- requests as a client writes them

  /** A request's lines, none of them empty, end as a client chooses; a blank line ends it. */
  datatype Request = Request(lines: seq<Bytes>, crlf: bool)

  function LineEnd(crlf: bool): Bytes {
    if crlf then [13, 10] else [10]
  }

  function Text(lines: seq<Bytes>, crlf: bool): Bytes {
    if lines == [] then []
    else Text(lines[..|lines| - 1], crlf) + (lines[|lines| - 1] + LineEnd(crlf))
  }

  function Written(r: Request): Bytes {
    Text(r.lines, r.crlf) + LineEnd(r.crlf)
  }

  function AllWritten(rs: seq<Request>): (w: seq<Bytes>)
    ensures |w| == |rs|
  {
    seq(|rs|, k requires 0 <= k < |rs| => Written(rs[k]))
  }

  function Concat(parts: seq<Bytes>): Bytes {
    if parts == [] then [] else Concat(parts[..|parts| - 1]) + parts[|parts| - 1]
  }

  ghost predicate IsLine(line: Bytes) {
    line != [] && forall k | 0 <= k < |line| :: line[k] != 10 && line[k] != 13
  }

  ghost predicate RequestOk(r: Request) {
    r.lines != [] && forall k | 0 <= k < |r.lines| :: IsLine(r.lines[k])
  }

  /** Nothing in it ends a request, and what it ends with is the end of a line. */
  ghost predicate Quiet(t: Bytes, crlf: bool) {
    && (forall k | 0 <= k <= |t| :: !EndsRequest(t[..k]))
    && (t != [] ==> |t| >= 3 || (!crlf && |t| == 2))
    && (t != [] ==> t[|t| - 1] == 10 && if crlf then t[|t| - 2] == 13 && t[|t| - 3] !in {10, 13} else t[|t| - 2] !in {10, 13})
  }

  lemma LineQuiet(t: Bytes, line: Bytes, crlf: bool)
    requires Quiet(t, crlf) && IsLine(line)
    ensures Quiet(t + (line + LineEnd(crlf)), crlf)
  {
    hide Quiet;
    var u, n := t + (line + LineEnd(crlf)), |t| + |line|;
    forall j | |t| <= j < n
      ensures u[j] != 10 && u[j] != 13
    {
      assert u[j] == line[j - |t|];
    }
    QuietMore(t, u, n, crlf);
  }

  /** More of a line and its end. */
  lemma QuietMore(t: Bytes, u: Bytes, n: nat, crlf: bool)
    requires Quiet(t, crlf) && |t| < n < |u| && u[..|t|] == t && u[n..] == LineEnd(crlf)
    requires forall j | |t| <= j < n :: u[j] != 10 && u[j] != 13
    ensures Quiet(u, crlf)
  {
    hide EndsRequest;
    assert u[n] == LineEnd(crlf)[0] && u[|u| - 1] == 10;
    forall k | 0 <= k <= |u|
      ensures !EndsRequest(u[..k])
    {
      if k <= |t| {
        assert u[..k] == t[..k];
      } else {
        BlankLine(u[..k]);
      }
    }
  }

  /** What the bytes before a request's end are. */
  lemma BlankLine(b: Bytes)
    ensures EndsRequest(b) ==> |b| >= 2 && b[|b| - 1] == 10 && (b[|b| - 2] == 10 || (|b| >= 4 && b[|b| - 2] == 13 && b[|b| - 3] == 10))
  {
    if |b| >= 2 && b[|b| - 2..] == [10, 10] {
      assert b[|b| - 2] == [10, 10][0] && b[|b| - 1] == [10, 10][1];
    } else if |b| >= 4 && b[|b| - 4..] == [13, 10, 13, 10] {
      assert b[|b| - 3] == [13, 10, 13, 10][1] && b[|b| - 2] == [13, 10, 13, 10][2] && b[|b| - 1] == [13, 10, 13, 10][3];
    }
  }

  lemma {:induction false} TextQuiet(lines: seq<Bytes>, crlf: bool)
    requires forall k | 0 <= k < |lines| :: IsLine(lines[k])
    ensures Quiet(Text(lines, crlf), crlf) && (lines != [] ==> Text(lines, crlf) != [])
  {
    if lines != [] {
      TextQuiet(lines[..|lines| - 1], crlf);
      hide Quiet;
      LineQuiet(Text(lines[..|lines| - 1], crlf), lines[|lines| - 1], crlf);
    }
  }

  /** A request ends with its blank line and not before. */
  lemma EndsAtBlankLine(r: Request)
    requires RequestOk(r)
    ensures EndsRequest(Written(r)) && forall k | 0 <= k < |Written(r)| :: !EndsRequest(Written(r)[..k])
  {
    TextQuiet(r.lines, r.crlf);
    hide Text, IsLine;
    var t, w := Text(r.lines, r.crlf), Written(r);
    forall k | 0 <= k < |w|
      ensures !EndsRequest(w[..k])
    {
      if k <= |t| {
        assert w[..k] == t[..k];
      } else {
        assert w[..k][k - 1] == 13;
      }
    }
    if r.crlf {
      assert w[|w| - 4..] == [13, 10, 13, 10];
    } else {
      assert w[|w| - 2..] == [10, 10];
    }
  }

  lemma {:induction false} CutPart(input: Bytes, r: Bytes, k: nat)
    requires Cut(input).1 == [] && k <= |r| && forall j | 0 <= j <= k :: !EndsRequest(r[..j])
    ensures Cut(input + r[..k]) == (Cut(input).0, r[..k])
  {
    hide EndsRequest, Cut;
    if k == 0 {
      assert input + r[..0] == input;
    } else {
      CutPart(input, r, k - 1);
      ByteAdded(input + r[..k - 1], r[k - 1]);
      assert input + r[..k] == (input + r[..k - 1]) + [r[k - 1]] && r[..k] == r[..k - 1] + [r[k - 1]];
    }
  }

  /** Whatever requests a client writes one after another, they are those read. */
  lemma {:induction false} RequestsRead(rs: seq<Request>)
    requires forall k | 0 <= k < |rs| :: RequestOk(rs[k])
    ensures Cut(Concat(AllWritten(rs))) == (AllWritten(rs), [])
  {
    hide RequestOk, Written, Cut, EndsRequest;
    if rs == [] {
      NothingRead();
    } else {
      var n := |rs| - 1;
      RequestsRead(rs[..n]);
      var input, r := Concat(AllWritten(rs[..n])), Written(rs[n]);
      assert AllWritten(rs)[..n] == AllWritten(rs[..n]);
      EndsAtBlankLine(rs[n]);
      NotEmpty(rs[n]);
      CutPart(input, r, |r| - 1);
      ByteAdded(input + r[..|r| - 1], r[|r| - 1]);
      assert r == r[..|r| - 1] + [r[|r| - 1]] && AllWritten(rs) == AllWritten(rs[..n]) + [r];
      assert input + r == (input + r[..|r| - 1]) + [r[|r| - 1]];
    }
  }

  lemma NothingRead()
    ensures Cut([]) == ([], [])
  {
  }

  lemma NotEmpty(r: Request)
    ensures Written(r) != []
  {
  }

  lemma ReadByteKeeps(c: Control, b: int, reply: Option<Bytes>)
    requires ControlSound(c)
    ensures ControlSound(ReadByte(c, b, reply)) && (Whole(c) ==> Whole(ReadByte(c, b, reply)))
  {
    hide EndsRequest, Cut, WireAll, Replies;
    if reply.Some? {
      UnitAdded(c.units, Reply(reply.value));
    }
    ByteAdded(c.input, b);
  }

  lemma AcceptKeeps(c: Control, n: nat)
    requires ControlSound(c)
    ensures ControlSound(Accept(c, n)) && (Whole(c) ==> Whole(Accept(c, n)))
  {
    var m := Taken(n, |c.left|);
    assert c.wire + c.left[..m] + c.left[m..] == c.wire + c.left;
  }

  lemma StartPacketKeeps(c: Control, i: nat, u: Unit, n: nat)
    requires ControlSound(c) && u.Packet?
    ensures ControlSound(StartPacket(c, i, u, n)) && (Whole(c) ==> Whole(StartPacket(c, i, u, n)))
  {
    hide Wire, WireAll, Replies, Cut;
    var m := Taken(n, |Wire(u)|);
    UnitAdded(c.units, u);
    assert c.wire + Wire(u)[..m] + Wire(u)[m..] == c.wire + Wire(u);
  }

  // ----- the RTP sessions

  /** Packets as the muxer leaves them: each after its length in four bytes. */
  function Framed(packets: seq<Bytes>): Bytes {
    if packets == [] then [] else Length4(|packets[0]|) + packets[0] + Framed(packets[1..])
  }

  function Length4(n: nat): (b: Bytes)
    ensures |b| == 4
  {
    [n / 0x100_0000 % 256, n / 0x1_0000 % 256, n / 256 % 256, n % 256]
  }

  function FromLength4(b: Bytes): int
    requires |b| == 4
  {
    b[0] * 0x100_0000 + b[1] * 0x1_0000 + b[2] * 256 + b[3]
  }

  lemma Length4Back(n: nat)
    requires n < 0x1_0000
    ensures FromLength4(Length4(n)) == n && Length4(n)[1] == 0
  {
  }

  /** A packet of a stream. */
  datatype Given = Given(stream: nat, data: Bytes)

  function Due(stream: nat, packets: seq<Bytes>): (g: seq<Given>)
    ensures |g| == |packets|
  {
    seq(|packets|, k requires 0 <= k < |packets| => Given(stream, packets[k]))
  }

  /** A session: its buffer, the stream the buffer is of, every packet it has had to send, the datagrams it has sent when it
      sends by UDP, whether a buffer was dropped for want of memory, and whether it is still there. */
  datatype Session = Session(buffer: Bytes, stream: nat, udp: bool, given: seq<Given>, out: seq<Given>, dropped: bool, alive: bool)

  /** What one pass of the sending loop finds: whether the packet is due, memory for framing it, and room in the socket. */
  datatype Found = Found(due: bool, memory: bool, room: nat)

  /** What it does: drop a broken buffer, read outside it, wait, fail, drop the buffer for want of memory, or send the packet at
      its head. */
  datatype Pass = Broken | Outside | Wait | Fail | Drop | Send(channel: int, data: Bytes)

  function NextPass(s: Session, f: Found, open: bool, free: bool): (p: Pass)
    ensures p.Send? ==> |s.buffer| >= 4 + |p.data|
  {
    if |s.buffer| < 4 then Broken
    else
      var len := FromLength4(s.buffer[..4]);
      if len > |s.buffer| then Broken
      else if !f.due then Wait
      else if !s.udp && !open then Fail
      else if !s.udp && !free then Wait
      else if !s.udp && !f.memory then Drop
      else if len < 0 || len > |s.buffer| - 4 then Outside
      else Send(s.stream * 2 + (if s.buffer[1] == 200 then 1 else 0), s.buffer[4..4 + len])
  }

  /** One pass of the loop of session i; nothing happens when its buffer is empty. */
  function OnePass(c: Control, s: Session, i: nat, f: Found): (Control, Session) {
    if s.buffer == [] || !s.alive then (c, s)
    else match NextPass(s, f, c.open, c.phase == WaitRequest)
      case Broken => (c, s.(buffer := [], dropped := true))
      case Outside => (c, s.(alive := false))
      case Wait => (c, s)
      case Fail => (c, s.(alive := false))
      case Drop => (c, s.(buffer := [], dropped := true))
      case Send(channel, data) =>
        var t := s.(buffer := s.buffer[4 + |data|..]);
        if s.udp then (c, t.(out := s.out + [Given(s.stream, data)]))
        else (StartPacket(c, i, Packet(i, channel, data), f.room), t)
  }

  datatype System = System(control: Control, sessions: seq<Session>)

  /** What can happen: a byte or some room on the connection, or its end; a session's next frame; a pass of a session's loop; and
      the end of a session, junk being what is found in its memory afterwards. */
  datatype Event =
    | Byte(b: int, reply: Option<Bytes>)
    | Room(n: nat)
    | Hangup
    | Frame(session: nat, stream: nat, packets: seq<Bytes>)
    | Loop(session: nat, found: Found)
    | Close(session: nat, junk: Bytes)

  ghost predicate Possible(e: Event) {
    e.Frame? ==> forall i | 0 <= i < |e.packets| :: |e.packets[i]| <= MAX_PACKET
  }

  function Step(y: System, e: Event): System {
    match e
    case Byte(b, reply) => if y.control.open then y.(control := ReadByte(y.control, b, reply)) else y
    case Room(n) => if y.control.open then y.(control := Accept(y.control, n)) else y
    case Hangup => y.(control := y.control.(open := false))
    case Frame(i, stream, packets) =>
      if i >= |y.sessions| || y.sessions[i].buffer != [] || !y.sessions[i].alive then y
      else
        var s := y.sessions[i];
        y.(sessions := y.sessions[i := s.(buffer := Framed(packets), stream := stream, given := s.given + Due(stream, packets))])
    case Loop(i, f) =>
      if i >= |y.sessions| then y
      else
        var (c, s) := OnePass(y.control, y.sessions[i], i, f);
        System(c, y.sessions[i := s])
    case Close(i, junk) =>
      if i >= |y.sessions| then y
      else System(Freed(y.control, i, junk), y.sessions[i := y.sessions[i].(alive := false)])
  }

  function Run(y: System, events: seq<Event>): System {
    if events == [] then y else Step(Run(y, events[..|events| - 1]), events[|events| - 1])
  }

  /** The packets of one session among the units: those of stream k on channel 2k. */
  function Sent(units: seq<Unit>, i: nat): seq<Given> {
    if units == [] then []
    else
      var u := units[|units| - 1];
      Sent(units[..|units| - 1], i) + if u.Packet? && u.session == i then [OnChannel(u)] else []
  }

  function OnChannel(u: Unit): Given
    requires u.Packet?
  {
    Given(if u.channel >= 0 then u.channel / 2 else 0, u.data)
  }

  /** What a session has sent. */
  function Done(units: seq<Unit>, s: Session, i: nat): seq<Given> {
    if s.udp then s.out else Sent(units, i)
  }

  ghost predicate Short(packets: seq<Bytes>) {
    forall i | 0 <= i < |packets| :: |packets[i]| <= MAX_PACKET
  }

  /** some are left of all, in their order. */
  ghost predicate LeftOf(some: seq<Given>, all: seq<Given>) {
    if all == [] then some == []
    else
      var n, m := |all| - 1, |some| - 1;
      LeftOf(some, all[..n]) || (some != [] && some[m] == all[n] && LeftOf(some[..m], all[..n]))
  }

  /** What a session has had to send is what it has sent, then what is in its buffer; with a buffer dropped, these are left of
      it. */
  ghost predicate Delivering(units: seq<Unit>, s: Session, i: nat) {
    exists rest: seq<Bytes> :: Leaves(units, s, i, rest)
  }

  ghost predicate Leaves(units: seq<Unit>, s: Session, i: nat, rest: seq<Bytes>) {
    && Short(rest) && s.buffer == Framed(rest)
    && if s.dropped then LeftOf(Done(units, s, i) + Due(s.stream, rest), s.given)
       else s.given == Done(units, s, i) + Due(s.stream, rest)
  }

  ghost predicate Even(units: seq<Unit>) {
    forall k | 0 <= k < |units| :: units[k].Packet? ==> units[k].channel >= 0 && units[k].channel % 2 == 0 && |units[k].data| <= MAX_PACKET
  }

  ghost predicate Inv(y: System) {
    && ControlSound(y.control) && Even(y.control.units)
    && forall i | 0 <= i < |y.sessions| :: Delivering(y.control.units, y.sessions[i], i)
  }

  // ----- what is left of a sequence

  lemma {:induction false} AllLeft(a: seq<Given>)
    ensures LeftOf(a, a)
  {
    if a != [] {
      AllLeft(a[..|a| - 1]);
    }
  }

  lemma {:induction false} LeftOfMore(some: seq<Given>, all: seq<Given>, more: seq<Given>)
    requires LeftOf(some, all)
    ensures LeftOf(some + more, all + more)
    decreases |more|
  {
    if more == [] {
      assert some + more == some && all + more == all;
    } else {
      var n := |more| - 1;
      LeftOfMore(some, all, more[..n]);
      assert (all + more)[..|all + more| - 1] == all + more[..n];
      assert (some + more)[..|some + more| - 1] == some + more[..n];
    }
  }

  lemma {:induction false} LeftOfFewer(some: seq<Given>, x: Given, all: seq<Given>)
    requires LeftOf(some + [x], all)
    ensures LeftOf(some, all)
    decreases |all|
  {
    var n := |all| - 1;
    if LeftOf(some + [x], all[..n]) {
      LeftOfFewer(some, x, all[..n]);
    } else {
      assert (some + [x])[..|some|] == some;
    }
  }

  lemma {:induction false} LeftOfFront(some: seq<Given>, more: seq<Given>, all: seq<Given>)
    requires LeftOf(some + more, all)
    ensures LeftOf(some, all)
    decreases |more|
  {
    if more == [] {
      assert some + more == some;
    } else {
      var n := |more| - 1;
      assert some + more == (some + more[..n]) + [more[n]];
      LeftOfFewer(some + more[..n], more[n], all);
      LeftOfFront(some, more[..n], all);
    }
  }

  // ----- every event keeps the connection and its sessions in order

  /** At the head of a framed buffer there is a whole packet. */
  lemma FramedHead(s: Session, rest: seq<Bytes>, f: Found, open: bool, free: bool)
    requires Short(rest) && s.buffer == Framed(rest)
    ensures rest == [] <==> s.buffer == []
    ensures rest != [] ==>
              && |s.buffer| >= 4 + |rest[0]|
              && NextPass(s, f, open, free) ==
                 (if !f.due then Wait
                  else if s.udp then Send(s.stream * 2, rest[0])
                  else if !open then Fail
                  else if !free then Wait
                  else if !f.memory then Drop
                  else Send(s.stream * 2, rest[0]))
              && s.buffer[4 + |rest[0]|..] == Framed(rest[1..])
  {
    if rest != [] {
      var head := Length4(|rest[0]|);
      Length4Back(|rest[0]|);
      assert s.buffer == head + rest[0] + Framed(rest[1..]);
      assert s.buffer[..4] == head;
      assert s.buffer[4..4 + |rest[0]|] == rest[0];
      assert s.buffer[1] == head[1];
    }
  }

  lemma SentStep(units: seq<Unit>, u: Unit, i: nat)
    ensures Sent(units + [u], i) == Sent(units, i) + if u.Packet? && u.session == i then [OnChannel(u)] else []
  {
    assert (units + [u])[..|units|] == units;
  }

  lemma Rest(units: seq<Unit>, s: Session, i: nat) returns (rest: seq<Bytes>)
    requires Delivering(units, s, i)
    ensures Leaves(units, s, i, rest)
  {
    rest :| Leaves(units, s, i, rest);
  }

  lemma OthersDelivering(units: seq<Unit>, u: Unit, sessions: seq<Session>, except: nat)
    requires forall i | 0 <= i < |sessions| :: Delivering(units, sessions[i], i)
    requires u.Packet? ==> u.session == except
    ensures forall i | 0 <= i < |sessions| && (i != except || u.Reply?) :: Delivering(units + [u], sessions[i], i)
  {
    hide Delivering, Sent, Framed, Short, LeftOf;
    forall i | 0 <= i < |sessions| && (i != except || u.Reply?)
      ensures Delivering(units + [u], sessions[i], i)
    {
      var rest := Rest(units, sessions[i], i);
      SentStep(units, u, i);
      assert Done(units + [u], sessions[i], i) == Done(units, sessions[i], i);
      LeavesIs(units + [u], sessions[i], i, rest);
    }
  }

  lemma LeavesIs(units: seq<Unit>, s: Session, i: nat, rest: seq<Bytes>)
    requires Leaves(units, s, i, rest)
    ensures Delivering(units, s, i)
  {
  }

  lemma ByteKeeps(y: System, b: int, reply: Option<Bytes>)
    requires Inv(y)
    ensures Inv(y.(control := ReadByte(y.control, b, reply)))
  {
    hide ControlSound, Delivering, EndsRequest;
    ReadByteKeeps(y.control, b, reply);
    if reply.Some? {
      OthersDelivering(y.control.units, Reply(reply.value), y.sessions, 0);
    }
  }

  lemma FrameKeeps(y: System, i: nat, stream: nat, packets: seq<Bytes>)
    requires Inv(y) && Possible(Frame(i, stream, packets))
    ensures Inv(Step(y, Frame(i, stream, packets)))
  {
    hide ControlSound, Delivering, Framed, Sent, LeftOf;
    if i < |y.sessions| && y.sessions[i].buffer == [] && y.sessions[i].alive {
      var s, units := y.sessions[i], y.control.units;
      var rest := Rest(units, s, i);
      FramedHead(s, rest, Found(true, true, 0), true, true);
      var t := s.(buffer := Framed(packets), stream := stream, given := s.given + Due(stream, packets));
      assert Due(s.stream, rest) == [] && Done(units, s, i) + [] == Done(units, s, i);
      if s.dropped {
        LeftOfMore(Done(units, s, i), s.given, Due(stream, packets));
      }
      assert Leaves(units, t, i, packets);
      LeavesIs(units, t, i, packets);
    }
  }

  /** What a session in order is left with, by what its pass does. */
  lemma PassDelivers(units: seq<Unit>, s: Session, i: nat, f: Found, c: Control)
    requires Delivering(units, s, i) && s.buffer != [] && s.alive && units == c.units
    ensures var p := NextPass(s, f, c.open, c.phase == WaitRequest);
            && !p.Broken? && !p.Outside?
            && (p.Wait? ==> OnePass(c, s, i, f) == (c, s))
            && (p.Fail? || p.Drop? ==> OnePass(c, s, i, f).0 == c && Delivering(units, OnePass(c, s, i, f).1, i))
            && (p.Send? ==>
                  var t := OnePass(c, s, i, f).1;
                  && p.channel == 2 * s.stream && |p.data| <= MAX_PACKET
                  && if s.udp then OnePass(c, s, i, f).0 == c && Delivering(units, t, i)
                     else c.phase == WaitRequest && OnePass(c, s, i, f).0 == StartPacket(c, i, Packet(i, p.channel, p.data), f.room)
                          && Delivering(units + [Packet(i, p.channel, p.data)], t, i))
  {
    hide Sent, Framed, NextPass, LeftOf, StartPacket;
    var rest := Rest(units, s, i);
    FramedHead(s, rest, f, c.open, c.phase == WaitRequest);
    var p := NextPass(s, f, c.open, c.phase == WaitRequest);
    var t := OnePass(c, s, i, f).1;
    var done := Done(units, s, i);
    if p.Send? {
      SentStep(units, Packet(i, p.channel, p.data), i);
      DueFirst(s.stream, rest);
      assert OnChannel(Packet(i, p.channel, p.data)) == Given(s.stream, rest[0]);
      assert (done + [Given(s.stream, rest[0])]) + Due(s.stream, rest[1..]) == done + Due(s.stream, rest);
      assert Leaves(if s.udp then units else units + [Packet(i, p.channel, p.data)], t, i, rest[1..]);
    } else if p.Drop? {
      AllLeft(s.given);
      LeftOfFront(done, Due(s.stream, rest), s.given);
      assert Due(s.stream, []) == [] && done + [] == done;
      NothingFramed();
      assert Leaves(units, t, i, []);
    } else if p.Fail? {
      assert Leaves(units, t, i, rest);
    }
  }

  lemma DueFirst(stream: nat, packets: seq<Bytes>)
    requires packets != []
    ensures Due(stream, packets) == [Given(stream, packets[0])] + Due(stream, packets[1..])
  {
  }

  lemma NothingFramed()
    ensures Framed([]) == []
  {
  }

  lemma LoopKeeps(y: System, i: nat, f: Found)
    requires Inv(y)
    ensures Inv(Step(y, Loop(i, f)))
    ensures Whole(y.control) ==> Whole(Step(y, Loop(i, f)).control)
  {
    hide ControlSound, Delivering, NextPass, StartPacket, Whole, Wire;
    if i < |y.sessions| {
      var s, units, c := y.sessions[i], y.control.units, y.control;
      if s.buffer == [] || !s.alive {
        assert y.sessions[i := s] == y.sessions;
      } else {
        PassDelivers(units, s, i, f, c);
        var p := NextPass(s, f, c.open, c.phase == WaitRequest);
        if p.Wait? {
          assert y.sessions[i := s] == y.sessions;
        } else if p.Send? && !s.udp {
          var u := Packet(i, p.channel, p.data);
          StartPacketKeeps(c, i, u, f.room);
          StartedUnits(c, i, u, f.room);
          OthersDelivering(units, u, y.sessions, i);
        }
      }
    }
  }

  lemma StartedUnits(c: Control, i: nat, u: Unit, n: nat)
    requires c.phase == WaitRequest
    ensures StartPacket(c, i, u, n).units == c.units + [u] && StartPacket(c, i, u, n).open == c.open
  {
  }

  lemma CloseKeeps(y: System, i: nat, junk: Bytes)
    requires Inv(y)
    ensures Inv(Step(y, Close(i, junk)))
  {
    hide Sent, Framed, LeftOf, Cut, Replies;
    if i < |y.sessions| {
      var rest := Rest(y.control.units, y.sessions[i], i);
      assert Leaves(y.control.units, y.sessions[i].(alive := false), i, rest);
    }
  }

  /** Every event keeps the connection and its sessions in order; and all but the end of a session whose packet is under way
      keep what is sent whole. */
  lemma StepKeeps(y: System, e: Event)
    requires Inv(y) && Possible(e)
    ensures Inv(Step(y, e))
    ensures Whole(y.control) && !(e.Close? && UnderWay(y.control, e.session)) ==> Whole(Step(y, e).control)
  {
    hide Delivering, Cut, Replies, WireAll;
    match e
    case Byte(b, reply) => ByteKeeps(y, b, reply); ReadByteKeeps(y.control, b, reply);
    case Room(n) => AcceptKeeps(y.control, n);
    case Hangup =>
    case Frame(i, stream, packets) => FrameKeeps(y, i, stream, packets);
    case Loop(i, f) => LoopKeeps(y, i, f);
    case Close(i, junk) => CloseKeeps(y, i, junk);
  }

  /** A new session of the connection. */
  function New(udp: bool): Session {
    Session([], 0, udp, [], [], false, true)
  }

  /** One session for every element, which says whether it sends by UDP. */
  function Start(kinds: seq<bool>): System {
    System(Fresh, seq(|kinds|, i requires 0 <= i < |kinds| => New(kinds[i])))
  }

  lemma {:induction false} RunKeeps(kinds: seq<bool>, events: seq<Event>)
    requires forall k | 0 <= k < |events| :: Possible(events[k])
    ensures Inv(Run(Start(kinds), events))
  {
    if events == [] {
      forall i | 0 <= i < |kinds|
        ensures Delivering([], Start(kinds).sessions[i], i)
      {
        NothingFramed();
        assert Leaves([], New(kinds[i]), i, []);
      }
    } else {
      RunKeeps(kinds, events[..|events| - 1]);
      hide Inv, Step;
      StepKeeps(Run(Start(kinds), events[..|events| - 1]), events[|events| - 1]);
    }
  }

  // ----- what goes over the wire

  /** Event k ends a session whose packet is under way. */
  ghost predicate Cuts(kinds: seq<bool>, events: seq<Event>, k: nat)
    requires k < |events|
  {
    var y := Run(Start(kinds), events[..k]);
    events[k].Close? && events[k].session < |y.sessions| && UnderWay(y.control, events[k].session)
  }

  /** However the socket takes the bytes and however many sessions share the connection: as long as no session ends while its
      packet is under way, what has been sent is a prefix of whole replies and whole packets one after another, and all of them
      when nothing is under way. */
  lemma {:induction false} WireIsWhole(kinds: seq<bool>, events: seq<Event>)
    requires forall k | 0 <= k < |events| :: Possible(events[k]) && !Cuts(kinds, events, k)
    ensures var c := Run(Start(kinds), events).control;
            Whole(c) && c.wire <= WireAll(c.units) && (c.phase == WaitRequest ==> c.wire == WireAll(c.units))
  {
    hide Inv, Step, UnderWay, WireAll;
    RunKeeps(kinds, events);
    if events == [] {
      NoUnits();
    } else {
      var n := |events| - 1;
      forall k | 0 <= k < n
        ensures !Cuts(kinds, events[..n], k)
      {
        assert events[..n][..k] == events[..k];
        assert !Cuts(kinds, events, k);
      }
      WireIsWhole(kinds, events[..n]);
      RunKeeps(kinds, events[..n]);
      assert !Cuts(kinds, events, n);
      Uncut(Run(Start(kinds), events[..n]), events[n]);
    }
    NothingLeft(Run(Start(kinds), events));
  }

  lemma Uncut(y: System, e: Event)
    requires Inv(y) && Possible(e) && Whole(y.control)
    requires !(e.Close? && e.session < |y.sessions| && UnderWay(y.control, e.session))
    ensures Whole(Step(y, e).control)
  {
    hide Inv, Whole, UnderWay;
    StepKeeps(y, e);
  }

  lemma NothingLeft(y: System)
    requires Inv(y)
    ensures y.control.phase == WaitRequest ==> y.control.wire + y.control.left == y.control.wire
  {
  }

  /** The same runs, but for what is found in freed memory. */
  ghost predicate SameButJunk(events: seq<Event>, others: seq<Event>) {
    && |events| == |others|
    && forall k | 0 <= k < |events| ::
         others[k] == events[k] || (events[k].Close? && others[k].Close? && others[k].session == events[k].session)
  }

  lemma {:induction false} SameRun(kinds: seq<bool>, events: seq<Event>, others: seq<Event>)
    requires SameButJunk(events, others) && forall k | 0 <= k < |events| :: !Cuts(kinds, events, k)
    ensures Run(Start(kinds), others) == Run(Start(kinds), events)
    ensures forall k | 0 <= k < |others| :: !Cuts(kinds, others, k)
  {
    hide Cuts, Step;
    if events != [] {
      var n := |events| - 1;
      forall k | 0 <= k < n
        ensures !Cuts(kinds, events[..n], k)
      {
        CutsPrefix(kinds, events, n, k);
      }
      SameRun(kinds, events[..n], others[..n]);
      forall k | 0 <= k < n
        ensures !Cuts(kinds, others, k)
      {
        CutsPrefix(kinds, others, n, k);
      }
      SameStep(kinds, events, others, n);
    }
  }

  lemma CutsPrefix(kinds: seq<bool>, events: seq<Event>, n: nat, k: nat)
    requires k < n <= |events|
    ensures Cuts(kinds, events[..n], k) <==> Cuts(kinds, events, k)
  {
    assert events[..n][..k] == events[..k];
  }

  lemma SameStep(kinds: seq<bool>, events: seq<Event>, others: seq<Event>, n: nat)
    requires SameButJunk(events, others) && n < |events| && !Cuts(kinds, events, n)
    requires Run(Start(kinds), others[..n]) == Run(Start(kinds), events[..n])
    ensures !Cuts(kinds, others, n)
    ensures Step(Run(Start(kinds), others[..n]), others[n]) == Step(Run(Start(kinds), events[..n]), events[n])
  {
    hide Run, OnePass, ReadByte, Accept;
  }

  function OtherByte(b: int): (d: int)
    ensures 0 <= d < 256 && d != b
  {
    (b + 1) % 256
  }

  /** The first bad end: something may be found in the session's memory that makes what is sent anything but whole. */
  lemma CutSpoils(kinds: seq<bool>, events: seq<Event>, k: nat) returns (junk: Bytes)
    requires (forall j | 0 <= j < |events| :: Possible(events[j])) && k < |events| && Cuts(kinds, events, k)
    requires forall j | 0 <= j < k :: !Cuts(kinds, events, j)
    ensures !Whole(Step(Run(Start(kinds), events[..k]), Close(events[k].session, junk)).control)
  {
    hide Run, WireAll;
    forall j | 0 <= j < k
      ensures !Cuts(kinds, events[..k], j)
    {
      CutsPrefix(kinds, events, k, j);
    }
    WireIsWhole(kinds, events[..k]);
    RunKeeps(kinds, events[..k]);
    var c := Run(Start(kinds), events[..k]).control;
    junk := [OtherByte(c.left[0])] + c.left[1..];
    assert (c.wire + junk)[|c.wire|] != (c.wire + c.left)[|c.wire|];
  }

  /** The wire is whole at every moment, whatever freed memory may hold, exactly when no session ends while its packet is under
      way. */
  lemma WholeIff(kinds: seq<bool>, events: seq<Event>)
    requires forall k | 0 <= k < |events| :: Possible(events[k])
    ensures (forall others: seq<Event>, k | SameButJunk(events, others) && 0 <= k <= |events| ::
               Whole(Run(Start(kinds), others[..k]).control))
            <==> forall k | 0 <= k < |events| :: !Cuts(kinds, events, k)
  {
    hide Run, Cuts, Whole;
    if forall k | 0 <= k < |events| :: !Cuts(kinds, events, k) {
      forall others: seq<Event>, k | SameButJunk(events, others) && 0 <= k <= |events|
        ensures Whole(Run(Start(kinds), others[..k]).control)
      {
        StillWhole(kinds, events, others, k);
      }
    } else {
      var k := FirstCut(kinds, events, 0);
      CloseAt(kinds, events, k);
      var junk := CutSpoils(kinds, events, k);
      var others := events[k := Close(events[k].session, junk)];
      assert SameButJunk(events, others);
      assert others[..k + 1][..k] == events[..k];
      OneMoreStep(Start(kinds), others[..k + 1]);
      assert !Whole(Run(Start(kinds), others[..k + 1]).control);
    }
  }

  lemma CloseAt(kinds: seq<bool>, events: seq<Event>, k: nat)
    requires k < |events| && Cuts(kinds, events, k)
    ensures events[k].Close?
  {
  }

  lemma {:induction false} FirstCut(kinds: seq<bool>, events: seq<Event>, n: nat) returns (k: nat)
    requires n <= |events| && (forall j | 0 <= j < n :: !Cuts(kinds, events, j))
    requires exists j :: 0 <= j < |events| && Cuts(kinds, events, j)
    ensures k < |events| && Cuts(kinds, events, k) && forall j | 0 <= j < k :: !Cuts(kinds, events, j)
    decreases |events| - n
  {
    hide Cuts;
    if n < |events| && Cuts(kinds, events, n) {
      k := n;
    } else {
      k := FirstCut(kinds, events, n + 1);
    }
  }

  lemma StillWhole(kinds: seq<bool>, events: seq<Event>, others: seq<Event>, k: nat)
    requires (forall j | 0 <= j < |events| :: Possible(events[j]) && !Cuts(kinds, events, j)) && SameButJunk(events, others)
    requires k <= |events|
    ensures Whole(Run(Start(kinds), others[..k]).control)
  {
    hide Run, Cuts, Whole;
    forall j | 0 <= j < k
      ensures !Cuts(kinds, events[..k], j)
    {
      CutsPrefix(kinds, events, k, j);
    }
    assert SameButJunk(events[..k], others[..k]);
    SameRun(kinds, events[..k], others[..k]);
    WireIsWhole(kinds, events[..k]);
  }

  const OneByte: Unit := Packet(0, 0, [0])

  const OneByteSession: Session := New(false).(buffer := [0, 0, 0, 1, 0], given := [Given(0, [0])])

  const OneByteStarted: Control := Fresh.(left := Wire(OneByte), owner := Some(0), units := [OneByte], phase := SendPacket)

  lemma OneByteGiven()
    ensures Step(Start([false]), Frame(0, 0, [[0]])) == System(Fresh, [OneByteSession])
  {
    assert Framed([[0]][1..]) == [] && Framed([[0]]) == [0, 0, 0, 1, 0];
    assert [] + Due(0, [[0]]) == [Given(0, [0])];
  }

  lemma OneByteGoes()
    ensures Step(System(Fresh, [OneByteSession]), Loop(0, Found(true, true, 0))).control == OneByteStarted
  {
    var s := OneByteSession;
    assert s.buffer[..4] == [0, 0, 0, 1] && s.buffer[4..5] == [0] && s.buffer[5..] == [];
    assert NextPass(s, Found(true, true, 0), true, true) == Send(0, [0]);
    var w := Wire(OneByte);
    assert |w| == 5 && w[..0] == [] && w[0..] == w && [] + [OneByte] == [OneByte];
    hide Wire;
    assert StartPacket(Fresh, 0, OneByte, 0) == OneByteStarted;
  }

  lemma JunkGoes(y: System, junk: Bytes)
    requires y.control == OneByteStarted && y.sessions != [] && |junk| == 5
    ensures Step(Step(y, Close(0, junk)), Room(5)).control.wire == junk
    ensures Step(Step(y, Close(0, junk)), Room(5)).control.units == [OneByte]
  {
    assert |Wire(OneByte)| == 5;
    hide Wire;
    assert Step(y, Close(0, junk)).control == OneByteStarted.(left := junk);
    assert junk[..5] == junk && [] + junk == junk;
  }

  lemma FourSteps(y: System, a: Event, b: Event, c: Event, d: Event)
    ensures Run(y, [a, b, c, d]) == Step(Step(Step(Step(y, a), b), c), d)
  {
    hide Step;
    var e := [a, b, c, d];
    assert e[..3][..2] == e[..2] && e[..2][..1] == e[..1] && e[..1][..0] == [];
    OneMoreStep(y, e);
    OneMoreStep(y, e[..3]);
    OneMoreStep(y, e[..2]);
    OneMoreStep(y, e[..1]);
  }

  /** A session with one packet of one byte ends while none of it has gone; what is sent then may be anything. */
  lemma ClosingSpoils() returns (junk: Bytes)
    ensures var events := [Frame(0, 0, [[0]]), Loop(0, Found(true, true, 0)), Close(0, junk), Room(5)];
            var c := Run(Start([false]), events).control;
            (forall k | 0 <= k < |events| :: Possible(events[k])) && !(c.wire <= WireAll(c.units))
  {
    hide Step, Run, OneByteSession;
    junk := [0, 0, 0, 0, 0];
    OneByteGiven();
    OneByteGoes();
    var y := Step(System(Fresh, [OneByteSession]), Loop(0, Found(true, true, 0)));
    SessionsStay(System(Fresh, [OneByteSession]), Loop(0, Found(true, true, 0)));
    JunkGoes(y, junk);
    FourSteps(Start([false]), Frame(0, 0, [[0]]), Loop(0, Found(true, true, 0)), Close(0, junk), Room(5));
    assert WireAll([OneByte][..0]) == [] && WireAll([OneByte]) == Wire(OneByte);
    assert Wire(OneByte)[0] == DOLLAR;
  }

  lemma SessionsStay(y: System, e: Event)
    ensures |Step(y, e).sessions| == |y.sessions|
  {
  }

  lemma OneMoreStep(y: System, events: seq<Event>)
    requires events != []
    ensures Run(y, events) == Step(Run(y, events[..|events| - 1]), events[|events| - 1])
  {
  }

  /** The requests answered are the client's bytes cut at blank lines, one reply each while the connection is open, whatever is
      sent in between. */
  lemma RequestsUndisturbed(kinds: seq<bool>, events: seq<Event>)
    requires forall k | 0 <= k < |events| :: Possible(events[k])
    ensures var c := Run(Start(kinds), events).control;
            c.requests == Cut(c.input).0 && (c.open ==> Replies(c.units) == |c.requests|)
  {
    hide Run, Cut, Replies;
    RunKeeps(kinds, events);
  }

  /** Each session's packets go out once each, in order, and on the channel of their stream: those sent, then those still in its
      buffer, are all, but for the buffers dropped for want of memory. */
  lemma PacketsDelivered(kinds: seq<bool>, events: seq<Event>, i: nat)
    requires (forall k | 0 <= k < |events| :: Possible(events[k])) && i < |Run(Start(kinds), events).sessions|
    ensures var y := Run(Start(kinds), events);
            var s := y.sessions[i];
            && LeftOf(Done(y.control.units, s, i), s.given)
            && (!s.dropped ==> Done(y.control.units, s, i) <= s.given
                               && (s.buffer == [] ==> Done(y.control.units, s, i) == s.given))
  {
    hide Run, Sent, NextPass, Delivering, LeftOf;
    RunKeeps(kinds, events);
    var y := Run(Start(kinds), events);
    var s := y.sessions[i];
    var rest := Rest(y.control.units, s, i);
    FramedHead(s, rest, Found(true, true, 0), true, true);
    AllLeft(s.given);
    LeftOfFront(Done(y.control.units, s, i), Due(s.stream, rest), s.given);
  }

  /** The sending loop's fail-safe is never needed, nor does it read outside a buffer. */
  lemma FailSafeUnused(kinds: seq<bool>, events: seq<Event>, i: nat, f: Found, open: bool, free: bool)
    requires (forall k | 0 <= k < |events| :: Possible(events[k])) && i < |Run(Start(kinds), events).sessions|
    requires Run(Start(kinds), events).sessions[i].buffer != []
    ensures var s := Run(Start(kinds), events).sessions[i];
            var p := NextPass(s, f, open, free);
            !p.Broken? && !p.Outside? && (p.Send? <==> f.due && (s.udp || (open && free && f.memory)))
  {
    hide Run, NextPass, Delivering, LeftOf;
    RunKeeps(kinds, events);
    var y := Run(Start(kinds), events);
    var rest := Rest(y.control.units, y.sessions[i], i);
    FramedHead(y.sessions[i], rest, f, open, free);
  }

  /** A control packet is never sent on the odd channel kept for it: the test for one looks at the length, not the data. */
  lemma ControlPacketsUnmarked(kinds: seq<bool>, events: seq<Event>, k: nat)
    requires forall k | 0 <= k < |events| :: Possible(events[k])
    requires k < |Run(Start(kinds), events).control.units| && Run(Start(kinds), events).control.units[k].Packet?
    ensures Run(Start(kinds), events).control.units[k].channel % 2 == 0
  {
    hide Run;
    RunKeeps(kinds, events);
  }

  // ----- what the client can tell

  /** Whole replies that the client can tell from packets, and from one another where they end. */
  ghost predicate Telling(isReply: Bytes -> bool) {
    && (forall a :: isReply(a) ==> a != [] && a[0] != DOLLAR)
    && (forall a, b :: isReply(a) && isReply(b) && a <= b ==> a == b)
  }

  ghost predicate Readable(units: seq<Unit>, isReply: Bytes -> bool) {
    forall k | 0 <= k < |units| ::
      match units[k]
      case Reply(bytes) => isReply(bytes)
      case Packet(_, channel, data) => 0 <= channel < 256 && |data| < 0x1_0000
  }

  /** A unit but for the session it is of. */
  function Content(u: Unit): Unit {
    if u.Packet? then u.(session := 0) else u
  }

  lemma {:induction false} WireAllFront(units: seq<Unit>)
    requires units != []
    ensures WireAll(units) == Wire(units[0]) + WireAll(units[1..])
  {
    hide Wire, WireAll;
    var n := |units| - 1;
    var u := units[n];
    UnitAdded(units[..n], u);
    assert units[..n] + [u] == units;
    if n == 0 {
      NoUnits();
    } else {
      WireAllFront(units[..n]);
      UnitAdded(units[1..n], u);
      assert units[..n][1..] == units[1..n] && units[1..n] + [u] == units[1..];
    }
  }

  lemma NoUnits()
    ensures WireAll([]) == []
  {
  }

  /** What a client hears (section 10.12 of RFC 2326): after a dollar, a channel in one byte, a length in two bytes in network byte
      order, and so many bytes; or else a reply. */
  datatype Heard = HeardReply(bytes: Bytes) | HeardPacket(channel: int, data: Bytes)

  /** The length of the first reply in a stream, from n bytes on. */
  function ReplyEnd(stream: Bytes, isReply: Bytes -> bool, n: nat): (r: Option<nat>)
    ensures r.Some? ==> n <= r.value <= |stream| && isReply(stream[..r.value])
    decreases |stream| - n
  {
    if n > |stream| then None else if isReply(stream[..n]) then Some(n) else ReplyEnd(stream, isReply, n + 1)
  }

  /** The first thing heard, and what follows it; None when more has to come first. */
  function Hear(stream: Bytes, isReply: Bytes -> bool): (r: Option<(Heard, Bytes)>)
    ensures r.Some? ==> |r.value.1| < |stream|
  {
    if stream == [] then None
    else if stream[0] == 0x24 then
      if |stream| < 4 then None
      else
        var length := stream[2] * 256 + stream[3];
        if length < 0 || |stream| - 4 < length then None
        else Some((HeardPacket(stream[1], stream[4..4 + length]), stream[4 + length..]))
    else
      var n := ReplyEnd(stream, isReply, 1);
      if n.None? then None else Some((HeardReply(stream[..n.value]), stream[n.value..]))
  }

  /** All that is heard of a stream, and what is there of the next. */
  function HearAll(stream: Bytes, isReply: Bytes -> bool): (seq<Heard>, Bytes)
    decreases |stream|
  {
    var first := Hear(stream, isReply);
    if first.None? then ([], stream)
    else var rest := HearAll(first.value.1, isReply); ([first.value.0] + rest.0, rest.1)
  }

  /** What a unit is to the client: a packet is of no session there. */
  function ToHear(u: Unit): Heard {
    match u
    case Reply(bytes) => HeardReply(bytes)
    case Packet(_, channel, data) => HeardPacket(channel, data)
  }

  function AllToHear(units: seq<Unit>): (h: seq<Heard>)
    ensures |h| == |units| && forall k | 0 <= k < |units| :: h[k] == ToHear(units[k])
  {
    seq(|units|, k requires 0 <= k < |units| => ToHear(units[k]))
  }

  lemma LengthBack(n: nat)
    requires n < 0x1_0000
    ensures n / 256 % 256 * 256 + n % 256 == n
  {
  }

  lemma {:induction false} ReplyEnds(reply: Bytes, rest: Bytes, isReply: Bytes -> bool, n: nat)
    requires Telling(isReply) && isReply(reply) && n <= |reply|
    ensures ReplyEnd(reply + rest, isReply, n) == Some(|reply|)
    decreases |reply| - n
  {
    var all := reply + rest;
    assert all[..|reply|] == reply;
    if n < |reply| {
      assert !isReply(all[..n]) by {
        assert all[..n] == reply[..n];
        assert reply[..n] <= reply;
      }
      ReplyEnds(reply, rest, isReply, n + 1);
    }
  }

  /** No reply ends inside a part of one. */
  lemma {:induction false} ReplyGoesOn(part: Bytes, reply: Bytes, isReply: Bytes -> bool, n: nat)
    requires Telling(isReply) && isReply(reply) && part < reply
    ensures ReplyEnd(part, isReply, n) == None
    decreases |part| + 1 - n
  {
    if n <= |part| {
      assert !isReply(part[..n]) by {
        assert part[..n] <= reply;
      }
      ReplyGoesOn(part, reply, isReply, n + 1);
    }
  }

  /** A unit is heard as what it is, whatever follows. */
  lemma UnitHeard(u: Unit, rest: Bytes, isReply: Bytes -> bool)
    requires Telling(isReply) && Readable([u], isReply)
    ensures Hear(Wire(u) + rest, isReply) == Some((ToHear(u), rest))
  {
    assert [u][0] == u;
    var stream := Wire(u) + rest;
    assert stream[0] == Wire(u)[0];
    if u.Packet? {
      LengthBack(|u.data|);
      assert stream[1] == Wire(u)[1] && stream[2] == Wire(u)[2] && stream[3] == Wire(u)[3];
      assert stream[4..4 + |u.data|] == u.data && stream[4 + |u.data|..] == rest;
    } else {
      ReplyEnds(u.bytes, rest, isReply, 1);
      assert stream[..|u.bytes|] == u.bytes && stream[|u.bytes|..] == rest;
    }
  }

  /** Part of a unit is not heard as anything yet. */
  lemma PartUnheard(u: Unit, part: Bytes, isReply: Bytes -> bool)
    requires Telling(isReply) && Readable([u], isReply) && part < Wire(u)
    ensures Hear(part, isReply) == None
  {
    assert [u][0] == u;
    if part != [] {
      assert part[0] == Wire(u)[0];
      if u.Packet? {
        LengthBack(|u.data|);
      } else {
        ReplyGoesOn(part, u.bytes, isReply, 1);
      }
    }
  }

  lemma ReadableParts(units: seq<Unit>, isReply: Bytes -> bool)
    requires Readable(units, isReply) && units != []
    ensures Readable([units[0]], isReply) && Readable(units[1..], isReply)
  {
    assert [units[0]][0] == units[0];
    assert forall k | 0 <= k < |units| - 1 :: units[1..][k] == units[k + 1];
  }

  /** What the client hears of any beginning of whole units: the units that are there whole, as they were sent, and no more. */
  lemma {:induction false} PrefixHeard(units: seq<Unit>, stream: Bytes, isReply: Bytes -> bool) returns (k: nat)
    requires Telling(isReply) && Readable(units, isReply) && stream <= WireAll(units)
    ensures k <= |units| && |WireAll(units[..k])| <= |stream|
    ensures HearAll(stream, isReply) == (AllToHear(units[..k]), stream[|WireAll(units[..k])|..])
    ensures (k < |units| ==> |stream| < |WireAll(units[..k + 1])|)
    ensures stream == WireAll(units) ==> k == |units|
    decreases |units|
  {
    hide Telling, Readable, Wire, WireAll, Hear;
    NoUnits();
    if units == [] {
      k := 0;
      assert units[..0] == [];
      NothingHeard(isReply);
    } else {
      WireAllFront(units);
      ReadableParts(units, isReply);
      var u, w := units[0], Wire(units[0]);
      SomethingSent(u, isReply);
      OneWire(u);
      assert units[..1] == [u] && units[..0] == [];
      if |stream| < |w| {
        k := 0;
        assert stream < w by {
          assert stream == WireAll(units)[..|stream|] == w[..|stream|];
        }
        PartUnheard(u, stream, isReply);
      } else {
        var rest := stream[|w|..];
        assert stream == w + rest by {
          assert stream[..|w|] == WireAll(units)[..|w|] == w;
        }
        assert rest <= WireAll(units[1..]) by {
          assert rest == WireAll(units)[|w|..][..|rest|];
          assert WireAll(units)[|w|..] == WireAll(units[1..]);
        }
        UnitHeard(u, rest, isReply);
        var n := PrefixHeard(units[1..], rest, isReply);
        k := n + 1;
        FrontOf(units, k);
        if k < |units| {
          FrontOf(units, k + 1);
        }
        assert AllToHear(units[..k]) == [ToHear(u)] + AllToHear(units[1..][..n]);
      }
    }
  }

  /** The wire of the first units begins with the first one. */
  lemma FrontOf(units: seq<Unit>, k: nat)
    requires 0 < k <= |units|
    ensures WireAll(units[..k]) == Wire(units[0]) + WireAll(units[1..][..k - 1])
    ensures units[..k] == [units[0]] + units[1..][..k - 1]
  {
    hide Wire, WireAll;
    WireAllFront(units[..k]);
    assert units[..k][1..] == units[1..][..k - 1];
  }

  lemma NothingHeard(isReply: Bytes -> bool)
    ensures HearAll([], isReply) == ([], [])
  {
  }

  lemma OneWire(u: Unit)
    ensures WireAll([u]) == Wire(u)
  {
    assert [u][..0] == [];
  }

  lemma SomethingSent(u: Unit, isReply: Bytes -> bool)
    requires Telling(isReply) && Readable([u], isReply)
    ensures Wire(u) != []
  {
    assert [u][0] == u;
  }

  /** The bytes on the connection can be read in one way only: as the units that were sent. */
  lemma WireReadOneWay(units: seq<Unit>, others: seq<Unit>, isReply: Bytes -> bool)
    requires Telling(isReply) && Readable(units, isReply) && Readable(others, isReply) && WireAll(units) == WireAll(others)
    ensures |units| == |others| && forall k | 0 <= k < |units| :: Content(units[k]) == Content(others[k])
  {
    hide Telling, Wire, WireAll, HearAll, Readable, AllToHear;
    var m := PrefixHeard(units, WireAll(units), isReply);
    var n := PrefixHeard(others, WireAll(others), isReply);
    assert units[..m] == units && others[..n] == others;
    assert AllToHear(units) == AllToHear(others);
    forall k | 0 <= k < |units|
      ensures Content(units[k]) == Content(others[k])
    {
      assert ToHear(units[k]) == AllToHear(units)[k] == AllToHear(others)[k] == ToHear(others[k]);
    }
  }

  /** In a run in which no session ends with its packet under way, the client hears the first of the replies and packets, in order and
      as they were, and all of them when nothing is left to send. */
  lemma ClientHears(kinds: seq<bool>, events: seq<Event>, isReply: Bytes -> bool) returns (k: nat)
    requires forall j | 0 <= j < |events| :: Possible(events[j]) && !Cuts(kinds, events, j)
    requires Telling(isReply) && Readable(Run(Start(kinds), events).control.units, isReply)
    ensures var c := Run(Start(kinds), events).control;
            && k <= |c.units| && HearAll(c.wire, isReply).0 == AllToHear(c.units[..k])
            && (c.left == [] ==> k == |c.units| && HearAll(c.wire, isReply).1 == [])
  {
    hide Telling, Wire, WireAll, HearAll, Readable, AllToHear, Run;
    WireIsWhole(kinds, events);
    var c := Run(Start(kinds), events).control;
    assert c.wire + c.left == WireAll(c.units);
    assert c.wire <= WireAll(c.units);
    k := PrefixHeard(c.units, c.wire, isReply);
    if c.left == [] {
      assert c.wire + [] == c.wire;
      assert c.units[..k] == c.units;
    }
  }

  // ----- the state as it is updated

  function ReadAll(c: Control, bytes: Bytes, reply: Option<Bytes>): Control {
    if bytes == [] then c else ReadByte(ReadAll(c, bytes[..|bytes| - 1], reply), bytes[|bytes| - 1], reply)
  }

  /** Passes of the loop of session i, each with what it finds, until it breaks off. */
  function Passes(c: Control, s: Session, i: nat, found: seq<Found>): (Control, Session)
    decreases |found|
  {
    if found == [] || s.buffer == [] || !s.alive then (c, s)
    else
      var (c', s') := OnePass(c, s, i, found[0]);
      if NextPass(s, found[0], c.open, c.phase == WaitRequest).Send? && (s.udp || c'.phase == WaitRequest)
        then Passes(c', s', i, found[1..]) else (c', s')
  }

  lemma {:induction false} PassesKeep(y: System, i: nat, found: seq<Found>)
    requires Inv(y) && i < |y.sessions|
    ensures var (c, s) := Passes(y.control, y.sessions[i], i, found);
            && Inv(System(c, y.sessions[i := s]))
            && (Whole(y.control) ==> Whole(c))
    decreases |found|
  {
    hide Inv, OnePass, NextPass, Whole;
    assert y.sessions[i := y.sessions[i]] == y.sessions;
    if found != [] {
      var r := Step(y, Loop(i, found[0]));
      StepKeeps(y, Loop(i, found[0]));
      PassesKeep(r, i, found[1..]);
      var (c, s) := Passes(r.control, r.sessions[i], i, found[1..]);
      assert r.sessions[i := s] == y.sessions[i := s];
    }
  }

  class RtspConnection {
    var phase: Phase
    var left: Bytes
    var owner: Option<nat>
    var request: Bytes
    var open: bool
    ghost var wire: Bytes
    ghost var units: seq<Unit>
    ghost var input: Bytes
    ghost var requests: seq<Bytes>

    ghost function View(): Control
      reads this
    {
      Control(phase, left, owner, request, open, wire, units, input, requests)
    }

    constructor ()
      ensures View() == Fresh
    {
      phase, left, owner, request, open := WaitRequest, [], None, [], true;
      wire, units, input, requests := [], [], [], [];
    }

    /** Reads what has come, a byte at a time, until a request is whole or is too long; lost says that the time for a request is
        up or the connection has failed, and ends that it ends, or fails, after these bytes. */
    method ReadRequest(bytes: Bytes, reply: Option<Bytes>, lost: bool, ends: bool) returns (used: nat)
      requires phase == WaitRequest && open
      modifies this
      ensures used <= |bytes|
      ensures var c := ReadAll(old(View()), bytes[..used], reply);
              View() == if lost || (ends && used == |bytes| && c.phase == WaitRequest) then c.(open := false) else c
      ensures used < |bytes| ==> lost || phase == SendReply || !open
    {
      hide ReadByte;
      used := 0;
      if lost {
        open := false;
        return;
      }
      while used < |bytes| && phase == WaitRequest && open
        invariant used <= |bytes| && phase != SendPacket && View() == ReadAll(old(View()), bytes[..used], reply)
      {
        assert bytes[..used + 1][..used] == bytes[..used];
        TakeByte(bytes[used], reply);
        used := used + 1;
      }
      if ends && used == |bytes| && phase == WaitRequest {
        open := false;
      }
    }

    method TakeByte(b: int, reply: Option<Bytes>)
      requires phase == WaitRequest
      modifies this
      ensures View() == ReadByte(old(View()), b, reply) && phase != SendPacket
    {
      request, input := request + [b], input + [b];
      if EndsRequest(request) {
        requests, request := requests + [request], [];
        if reply.None? {
          open := false;
        } else {
          phase, left, owner, units := SendReply, reply.value, None, units + [Reply(reply.value)];
        }
      } else if |request| >= REQUEST_ROOM {
        open := false;
      }
    }

    /** Sends what the socket has room for of the reply or packet under way, or fails. */
    method Write(n: nat, fails: bool)
      requires phase != WaitRequest
      modifies this
      ensures View() == if fails then old(View()).(open := false) else Accept(old(View()), n)
    {
      if fails {
        open := false;
        return;
      }
      var m := Taken(n, |left|);
      wire, left := wire + left[..m], left[m..];
      if left == [] {
        phase := WaitRequest;
      }
    }
  }

  class RtpSession {
    const index: nat
    const udp: bool
    var buffer: Bytes
    var stream: nat
    var dropped: bool
    var alive: bool
    ghost var given: seq<Given>
    ghost var out: seq<Given>

    ghost function View(): Session
      reads this
    {
      Session(buffer, stream, udp, given, out, dropped, alive)
    }

    constructor (index: nat, udp: bool)
      ensures View() == New(udp) && this.index == index
    {
      this.index, this.udp := index, udp;
      buffer, stream, dropped, alive, given, out := [], 0, false, true, [], [];
    }

    /** Sends the packets of the buffer that are due, while the connection is free and takes them whole. */
    method SendData(rtsp: RtspConnection, found: seq<Found>)
      modifies this, rtsp
      ensures (rtsp.View(), View()) == Passes(old(rtsp.View()), old(View()), index, found)
    {
      hide OnePass, NextPass;
      var k := 0;
      assert found[0..] == found;
      while k < |found| && buffer != [] && alive
        invariant k <= |found|
        invariant Passes(rtsp.View(), View(), index, found[k..]) == Passes(old(rtsp.View()), old(View()), index, found)
      {
        assert found[k..][1..] == found[k + 1..];
        var more := SendPacketNow(rtsp, found[k]);
        k := k + 1;
        if !more {
          return;
        }
      }
    }

    /** The packet at the head of the buffer; more says whether the loop may go on. */
    method SendPacketNow(rtsp: RtspConnection, f: Found) returns (more: bool)
      requires buffer != [] && alive
      modifies this, rtsp
      ensures (rtsp.View(), View()) == OnePass(old(rtsp.View()), old(View()), index, f)
      ensures more == (NextPass(old(View()), f, old(rtsp.open), old(rtsp.phase) == WaitRequest).Send?
                       && (udp || rtsp.phase == WaitRequest))
    {
      hide StartPacket;
      more := false;
      if |buffer| < 4 {
        buffer, dropped := [], true;
        return;
      }
      var len := FromLength4(buffer[..4]);
      if len > |buffer| {
        buffer, dropped := [], true;
        return;
      }
      if !f.due {
        return;
      }
      if !udp {
        if !rtsp.open {
          alive := false;
          return;
        }
        if rtsp.phase != WaitRequest {
          return;
        }
        if !f.memory {
          buffer, dropped := [], true;
          return;
        }
      }
      if len < 0 || len > |buffer| - 4 {
        alive := false;
        return;
      }
      var data := buffer[4..4 + len];
      var channel := stream * 2 + if buffer[1] == 200 then 1 else 0;
      buffer := buffer[4 + len..];
      if udp {
        out := out + [Given(stream, data)];
        return true;
      }
      SendInside(rtsp, channel, data, f.room);
      more := rtsp.phase == WaitRequest;
    }

    /** Frames a packet and sends what the socket of the RTSP connection has room for. */
    method SendInside(rtsp: RtspConnection, channel: int, data: Bytes, room: nat)
      requires rtsp.phase == WaitRequest
      modifies rtsp
      ensures rtsp.View() == StartPacket(old(rtsp.View()), index, Packet(index, channel, data), room)
    {
      var packet := [DOLLAR, channel % 256, |data| / 256 % 256, |data| % 256] + data;
      var m := Taken(room, |packet|);
      rtsp.units := rtsp.units + [Packet(index, channel, data)];
      rtsp.wire, rtsp.left, rtsp.owner := rtsp.wire + packet[..m], packet[m..], Some(index);
      if m < |packet| {
        rtsp.phase := SendPacket;
      }
    }
  }
}
