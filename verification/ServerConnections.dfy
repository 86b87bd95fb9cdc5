/** The server's connections: how many there are, what bandwidth they are counted for, and who feeds each feed. */
module ServerConnections {
  import opened Wrappers
  import opened Streams = ServerStreams

  datatype State =
    | HttpWaitRequest | SendHeader | SendDataHeader | SendData | SendDataTrailer | ReceiveData | WaitFeed | Ready
    | RtspWaitRequest | RtspSendReply | RtspSendPacket

  datatype Stream = Stream(kind: Kind, isFeed: bool, readonly: bool, feed: Option<nat>, bandwidth: nat, feedOpened: bool)

  /** A connection; stream is an index, rtsp the id of the connection its packets are sent inside. */
  datatype Conn = Conn(id: nat, state: State, post: bool, stream: Option<nat>, error: nat,
                       packetized: bool, session: Option<nat>, rtsp: Option<nat>)

  /** The server's state, newest connection first. */
  datatype Server = Server(conns: seq<Conn>, streams: seq<Stream>, nb: int, bandwidth: int,
                           maxConns: nat, maxBandwidth: nat, nextId: nat)

  // ----- sums over the connections

  datatype Measure = Bandwidth | Receiving(stream: nat)

  function Weight(c: Conn, m: Measure, streams: seq<Stream>): nat {
    match m
    case Bandwidth =>
      if c.stream.Some? && c.stream.value < |streams| && !c.post && streams[c.stream.value].kind == Live
        then streams[c.stream.value].bandwidth else 0
    case Receiving(s) => if c.state == ReceiveData && c.stream == Some(s) then 1 else 0
  }

  function Tally(conns: seq<Conn>, m: Measure, streams: seq<Stream>): nat {
    if conns == [] then 0 else Weight(conns[0], m, streams) + Tally(conns[1..], m, streams)
  }

  lemma {:induction false} TallyUpdate(conns: seq<Conn>, i: nat, c: Conn, m: Measure, streams: seq<Stream>)
    requires i < |conns|
    ensures Tally(conns[i := c], m, streams) == Tally(conns, m, streams) - Weight(conns[i], m, streams) + Weight(c, m, streams)
    ensures Tally(conns, m, streams) >= Weight(conns[i], m, streams)
  {
    hide Weight;
    if i > 0 {
      TallyUpdate(conns[1..], i - 1, c, m, streams);
      assert conns[i := c][1..] == conns[1..][i - 1 := c];
    }
  }

  lemma {:induction false} TallyRemove(conns: seq<Conn>, i: nat, m: Measure, streams: seq<Stream>)
    requires i < |conns|
    ensures Tally(conns[..i] + conns[i + 1..], m, streams) == Tally(conns, m, streams) - Weight(conns[i], m, streams)
  {
    hide Weight;
    if i == 0 {
      assert conns[..0] + conns[1..] == conns[1..];
    } else {
      TallyRemove(conns[1..], i - 1, m, streams);
      assert (conns[..i] + conns[i + 1..])[1..] == conns[1..][..i - 1] + conns[1..][i..];
    }
  }

  lemma {:induction false} TallySame(conns: seq<Conn>, others: seq<Conn>, m: Measure, streams: seq<Stream>, streams': seq<Stream>)
    requires |conns| == |others|
    requires forall i | 0 <= i < |conns| :: Weight(conns[i], m, streams) == Weight(others[i], m, streams')
    ensures Tally(conns, m, streams) == Tally(others, m, streams')
  {
    hide Weight;
    if conns != [] {
      TallySame(conns[1..], others[1..], m, streams, streams');
    }
  }

  // ----- what is always so

  ghost predicate ConnSound(c: Conn, streams: seq<Stream>) {
    && (c.stream.Some? ==> c.stream.value < |streams|)
    && (c.state in {HttpWaitRequest, RtspWaitRequest, RtspSendReply, RtspSendPacket} ==> c.stream == None && !c.packetized)
    && (c.state == ReceiveData ==> c.stream.Some? && c.post && !c.packetized)
    && (c.session.Some? ==> c.packetized)
    && (c.packetized ==> c.stream.Some? && !c.post && c.state in {Ready, SendData, WaitFeed, SendDataTrailer})
  }

  ghost predicate HasId(conns: seq<Conn>, id: nat) {
    exists i :: 0 <= i < |conns| && conns[i].id == id
  }

  /** Ids grow towards the front of the list, and no connection refers to one that has gone. */
  ghost predicate Linked(conns: seq<Conn>, nextId: nat) {
    && (forall i | 0 <= i < |conns| :: conns[i].id < nextId)
    && (forall i, j | 0 <= i < j < |conns| :: conns[i].id > conns[j].id)
    && (forall i | 0 <= i < |conns| :: conns[i].rtsp.Some? ==> HasId(conns, conns[i].rtsp.value))
  }

  ghost predicate FeedsRight(conns: seq<Conn>, streams: seq<Stream>) {
    forall s | 0 <= s < |streams| :: Tally(conns, Receiving(s), streams) == if streams[s].feedOpened then 1 else 0
  }

  /** A stream that is not live weighs nothing, as every configuration has it. */
  ghost predicate Weighed(streams: seq<Stream>) {
    forall s | 0 <= s < |streams| && streams[s].kind != Live :: streams[s].bandwidth == 0
  }

  ghost predicate Sound(v: Server) {
    && v.nb == |v.conns| <= v.maxConns
    && v.bandwidth == Tally(v.conns, Bandwidth, v.streams) && Weighed(v.streams)
    && FeedsRight(v.conns, v.streams)
    && (forall i | 0 <= i < |v.conns| :: ConnSound(v.conns[i], v.streams))
    && Linked(v.conns, v.nextId)
  }

  // ----- the steps

  /** A connection like c but in another state. */
  function Moved(v: Server, i: nat, c: Conn): Server
    requires i < |v.conns|
  {
    v.(conns := v.conns[i := c])
  }

  function Added(v: Server, c: Conn): Server {
    v.(conns := [c.(id := v.nextId)] + v.conns, nb := v.nb + 1, nextId := v.nextId + 1)
  }

  function Arrived(v: Server, isRtsp: bool, memory: bool): Server {
    if v.nb >= v.maxConns || !memory then v
    else Added(v, Conn(0, if isRtsp then RtspWaitRequest else HttpWaitRequest, false, None, 0, false, None, None))
  }

  /** The connections but one, and no references left to it. */
  function Without(conns: seq<Conn>, i: nat): (r: seq<Conn>)
    requires i < |conns|
    ensures |r| == |conns| - 1
  {
    var rest := conns[..i] + conns[i + 1..];
    seq(|rest|, j requires 0 <= j < |rest| => if rest[j].rtsp == Some(conns[i].id) then rest[j].(rtsp := None) else rest[j])
  }

  function SetFeed(streams: seq<Stream>, s: nat, open: bool): (r: seq<Stream>)
    ensures |r| == |streams|
  {
    if s < |streams| then streams[s := streams[s].(feedOpened := open)] else streams
  }

  function Closed(v: Server, i: nat): Server
    requires i < |v.conns|
  {
    var c := v.conns[i];
    v.(conns := Without(v.conns, i), nb := v.nb - 1,
       bandwidth := v.bandwidth - Weight(c, Bandwidth, v.streams),
       streams := if c.state == ReceiveData && c.stream.Some? then SetFeed(v.streams, c.stream.value, false) else v.streams)
  }

  /** What a request came to: target is the stream asked for, redirection an answer naming it, opens whether files open. */
  datatype Request = Malformed | Request(post: bool, target: Option<nat>, redirection: bool, hostGiven: bool, opens: bool)

  /** An HTTP request; with false the connection is closed at once. */
  function Requested(v: Server, i: nat, q: Request): (Server, bool)
    requires i < |v.conns|
  {
    var c := v.conns[i];
    if q.Malformed? then (v, false)
    else if q.target.None? || q.target.value >= |v.streams| then
      (Moved(v, i, c.(post := q.post, error := 404, state := SendHeader)), true)
    else
      var s := v.streams[q.target.value];
      var d := c.(post := q.post, stream := q.target, state := SendHeader);
      if s.kind == Redirect then (Moved(v, i, d.(error := 301)), true)
      else
        var w := v.(bandwidth := v.bandwidth + if !q.post && s.kind == Live then s.bandwidth else 0);
        if s.feedOpened then (Moved(w, i, d.(error := 404)), true)
        else if !q.post && w.maxBandwidth < w.bandwidth then (Moved(w, i, d.(error := 503)), true)
        else if q.redirection then (Moved(w, i, d.(error := if q.hostGiven then 200 else 404)), true)
        else if q.post then
          if !s.isFeed then (Moved(w, i, d.(stream := None, error := 404)), true)
          else if s.readonly || !q.opens then (Moved(w, i, d.(error := 404)), true)
          else (Moved(w, i, d.(error := 0, state := ReceiveData)).(streams := SetFeed(w.streams, q.target.value, true)), true)
        else if s.kind == Status then (Moved(w, i, d.(error := 200)), true)
        else (Moved(w, i, d.(error := if q.opens then 0 else 404)), true)
  }

  /** Connections waiting for a feed go on, with more data or with the end of it. */
  function Woken(v: Server, feed: Option<nat>, to: State): (r: seq<Conn>)
    ensures |r| == |v.conns|
  {
    seq(|v.conns|, j requires 0 <= j < |v.conns| =>
      var c := v.conns[j];
      if c.state == WaitFeed && c.stream.Some? && c.stream.value < |v.streams| && v.streams[c.stream.value].feed == feed
        then c.(state := to) else c)
  }

  datatype Received = Failed | Nothing | StoredPage

  /** Data from a feeder: after a failure the feed is closed, those waiting for it finish, and the connection closes. */
  function FeedData(v: Server, i: nat, r: Received): Server
    requires i < |v.conns|
  {
    var c := v.conns[i];
    if c.state != ReceiveData || c.stream.None? || c.stream.value >= |v.streams| || r == Nothing then v
    else
      var s := c.stream.value;
      var feed := v.streams[s].feed;
      if r == StoredPage then v.(conns := Woken(v, feed, SendData))
      else Closed(v.(conns := Woken(v, feed, SendDataTrailer), streams := SetFeed(v.streams, s, false)), i)
  }

  function FindSession(conns: seq<Conn>, session: nat): (r: Option<nat>)
    ensures r.Some? ==> r.value < |conns| && conns[r.value].session == Some(session)
    ensures r.None? ==> forall i | 0 <= i < |conns| :: conns[i].session != Some(session)
  {
    if conns == [] then None
    else if conns[0].session == Some(session) then Some(0)
    else
      var r := FindSession(conns[1..], session);
      if r.Some? then Some(r.value + 1) else None
  }

  /** A new RTP connection, unless there are too many; None when refused. */
  function RtpNew(v: Server, s: nat, session: nat, memory: bool): (r: Option<Server>)
    requires s < |v.streams|
    ensures r.Some? ==> |r.value.conns| == |v.conns| + 1 && r.value.streams == v.streams
  {
    if v.nb >= v.maxConns || !memory then None
    else
      Some(Added(v, Conn(0, Ready, false, Some(s), 0, true, Some(session), None))
           .(bandwidth := v.bandwidth + v.streams[s].bandwidth))
  }

  /** A Setup is reached when its checks pass and the new stream comes as far as its transport: the link to the connection it
      came on is made there, and stays even if the stream then fails, which only the reply tells. */
  datatype RtspRequest =
    | Other
    | Setup(target: Option<nat>, session: nat, transport: bool, memory: bool, opens: bool, reached: bool, tcp: bool)
    | Play(session: nat, matches: bool)
    | Pause(session: nat, matches: bool)
    | Teardown(session: nat, matches: bool)

  /** The RTP connection a command is for. */
  function Meant(v: Server, session: nat, matches: bool): (r: Option<nat>)
    ensures r.Some? ==> r.value < |v.conns|
  {
    if matches then FindSession(v.conns, session) else None
  }

  /** What an RTSP request from connection id does, but for the reply. */
  function Commanded(v: Server, id: nat, q: RtspRequest): Server {
    match q
    case Other => v
    case Setup(target, session, transport, memory, opens, reached, tcp) =>
      if target.None? || target.value >= |v.streams| then v
      else
        var found := FindSession(v.conns, session);
        var w := if found.Some? || !transport then Some(v) else RtpNew(v, target.value, session, memory);
        if w.None? then v
        else
          var at := FindSession(w.value.conns, session);
          if at.None? || (found.None? && !opens) || !reached || w.value.conns[at.value].stream != target || !tcp then w.value
          else Moved(w.value, at.value, w.value.conns[at.value].(rtsp := Some(id)))
    case Play(session, matches) =>
      var at := Meant(v, session, matches);
      if at.Some? && v.conns[at.value].state in {SendData, WaitFeed, Ready}
        then Moved(v, at.value, v.conns[at.value].(state := SendData)) else v
    case Pause(session, matches) =>
      var at := Meant(v, session, matches);
      if at.Some? && v.conns[at.value].state in {SendData, WaitFeed}
        then Moved(v, at.value, v.conns[at.value].(state := Ready)) else v
    case Teardown(session, matches) =>
      var at := Meant(v, session, matches);
      if at.Some? then Closed(v, at.value) else v
  }

  /** The place of a connection in the list. */
  function Find(conns: seq<Conn>, id: nat): (r: Option<nat>)
    ensures r.Some? ==> r.value < |conns| && conns[r.value].id == id
    ensures r.None? ==> forall i | 0 <= i < |conns| :: conns[i].id != id
  {
    if conns == [] then None
    else if conns[0].id == id then Some(0)
    else
      var r := Find(conns[1..], id);
      if r.Some? then Some(r.value + 1) else None
  }

  /** How a request is answered: there is no memory for a reply, or none left once the command is done, or it goes out. */
  datatype Answer = NoBuffer | Lost | Answered

  function RtspRequested(v: Server, i: nat, q: RtspRequest, a: Answer): Server
    requires i < |v.conns|
  {
    if a == NoBuffer then Closed(v, i)
    else
      var w := Commanded(v, v.conns[i].id, q);
      var at := Find(w.conns, v.conns[i].id);
      if at.None? then w
      else if a == Lost then Closed(w, at.value)
      else Moved(w, at.value, w.conns[at.value].(state := RtspSendReply))
  }

  /** An RTSP connection on which a packet has been sent in part. */
  function Locked(v: Server, id: nat): (w: Server)
    ensures |w.conns| == |v.conns|
  {
    var at := Find(v.conns, id);
    if at.Some? && v.conns[at.value].state == RtspWaitRequest
      then Moved(v, at.value, v.conns[at.value].(state := RtspSendPacket)) else v
  }

  /** Sending data may lead to another state, with None to the end; partly says that an RTP packet was sent in part. */
  function Sent(v: Server, i: nat, to: Option<State>, partly: bool): Server
    requires i < |v.conns|
  {
    var c := v.conns[i];
    var w := if partly && c.packetized && c.rtsp.Some? then Locked(v, c.rtsp.value) else v;
    if to.None? || to.value !in {SendData, WaitFeed} then Closed(w, i)
    else Moved(w, i, w.conns[i].(state := to.value))
  }

  /** What one turn of the main loop finds for a connection. */
  datatype Turn =
    | Quiet
    | Drop
    | HttpRequest(q: Request)
    | HeaderSent
    | DataSent(to: Option<State>, partly: bool)
    | FeederData(r: Received)
    | RtspCommand(command: RtspRequest, answer: Answer)
    | ReplySent

  /** Connection i has its turn; it is closed when its handling fails. */
  function Turned(v: Server, i: nat, t: Turn): Server
    requires i < |v.conns|
  {
    match (v.conns[i].state, t)
    case (Ready, _) => v
    case (_, Quiet) => v
    case (_, Drop) => Closed(v, i)
    case (HttpWaitRequest, HttpRequest(q)) => var (w, ok) := Requested(v, i, q); if ok then w else Closed(v, i)
    case (SendHeader, HeaderSent) =>
      if v.conns[i].error != 0 then Closed(v, i) else Moved(v, i, v.conns[i].(state := SendDataHeader))
    case (SendDataHeader, DataSent(to, partly)) => Sent(v, i, to, partly)
    case (SendData, DataSent(to, partly)) => Sent(v, i, to, partly)
    case (SendDataTrailer, DataSent(to, partly)) => Sent(v, i, None, partly)
    case (ReceiveData, FeederData(r)) => FeedData(v, i, r)
    case (RtspWaitRequest, RtspCommand(q, a)) => RtspRequested(v, i, q, a)
    case (RtspSendReply, ReplySent) => Moved(v, i, v.conns[i].(state := RtspWaitRequest))
    case (RtspSendPacket, ReplySent) => Moved(v, i, v.conns[i].(state := RtspWaitRequest))
    case _ => v
  }

  /** A session that a PAUSE stops is left alone whatever its turns bring, until a command moves it; and a PAUSE stops it exactly when
      it is sending or waiting for its feed. */
  lemma PauseStops(v: Server, id: nat, session: nat, matches: bool, t: Turn)
    ensures var w, at := Commanded(v, id, Pause(session, matches)), Meant(v, session, matches);
            && |w.conns| == |v.conns|
            && (at.Some? && v.conns[at.value].state in {SendData, WaitFeed} ==> Turned(w, at.value, t) == w)
            && (at.None? || v.conns[at.value].state !in {SendData, WaitFeed} ==> w == v)
  {
    hide FindSession;
  }

  /** A session that a PLAY starts sends at its turns; and a PLAY starts it exactly when it is ready, or going already. */
  lemma PlayStarts(v: Server, id: nat, session: nat, matches: bool, to: Option<State>, partly: bool)
    ensures var w, at := Commanded(v, id, Play(session, matches)), Meant(v, session, matches);
            && |w.conns| == |v.conns|
            && (at.Some? && v.conns[at.value].state in {Ready, SendData, WaitFeed} ==>
                  Turned(w, at.value, DataSent(to, partly)) == Sent(w, at.value, to, partly))
            && (at.None? || v.conns[at.value].state !in {Ready, SendData, WaitFeed} ==> w == v)
  {
    hide FindSession, Sent;
  }

  /** A connection for a stream that is sent to a group; the loop starts with these. */
  datatype Cast = Cast(stream: nat, session: nat, memory: bool, opens: bool)

  function Multicast(v: Server, m: Cast): Server {
    if m.stream >= |v.streams| then v
    else
      var w := RtpNew(v, m.stream, m.session, m.memory);
      if w.None? then v else if !m.opens then w.value
      else Moved(w.value, 0, w.value.conns[0].(state := SendData))
  }

  // ----- each step keeps the accounts

  /** A connection that does not start or stop feeding, its bandwidth counted anew. */
  lemma MovedKeeps(v: Server, i: nat, c: Conn)
    requires Sound(v) && i < |v.conns|
    requires c.id == v.conns[i].id && ConnSound(c, v.streams) && (c.rtsp.Some? ==> HasId(v.conns, c.rtsp.value))
    requires forall s | 0 <= s < |v.streams| :: Weight(c, Receiving(s), v.streams) == Weight(v.conns[i], Receiving(s), v.streams)
    ensures Sound(Moved(v, i, c).(bandwidth := v.bandwidth + Weight(c, Bandwidth, v.streams)
                                              - Weight(v.conns[i], Bandwidth, v.streams)))
  {
    hide Tally, ConnSound, Weight;
    TallyUpdate(v.conns, i, c, Bandwidth, v.streams);
    forall s | 0 <= s < |v.streams|
      ensures Tally(v.conns[i := c], Receiving(s), v.streams) == if v.streams[s].feedOpened then 1 else 0
    {
      TallyUpdate(v.conns, i, c, Receiving(s), v.streams);
    }
    LinkedUpdate(v.conns, i, c, v.nextId);
  }

  lemma LinkedUpdate(conns: seq<Conn>, i: nat, c: Conn, nextId: nat)
    requires Linked(conns, nextId) && i < |conns| && c.id == conns[i].id
    requires c.rtsp.Some? ==> HasId(conns, c.rtsp.value)
    ensures Linked(conns[i := c], nextId)
  {
    var r := conns[i := c];
    forall id | HasId(conns, id)
      ensures HasId(r, id)
    {
      var j :| 0 <= j < |conns| && conns[j].id == id;
      assert r[j].id == id;
    }
  }

  lemma AddedKeeps(v: Server, c: Conn)
    requires Sound(v) && v.nb < v.maxConns && ConnSound(c, v.streams) && c.rtsp.None? && c.state != ReceiveData
    ensures var r := Added(v, c);
            && Sound(r.(bandwidth := v.bandwidth + Weight(c, Bandwidth, v.streams)))
            && |r.conns| == |v.conns| + 1 && r.conns[0] == c.(id := v.nextId)
  {
    hide Tally, ConnSound;
    var d := c.(id := v.nextId);
    var conns := [d] + v.conns;
    TallyFirst(d, v.conns, Bandwidth, v.streams);
    forall id | HasId(v.conns, id)
      ensures HasId(conns, id)
    {
      var j :| 0 <= j < |v.conns| && v.conns[j].id == id;
      assert conns[j + 1].id == id;
    }
    forall s | 0 <= s < |v.streams|
      ensures Tally(conns, Receiving(s), v.streams) == Tally(v.conns, Receiving(s), v.streams)
    {
      TallyFirst(d, v.conns, Receiving(s), v.streams);
    }
    assert ConnSound(d, v.streams) by {
      SameButId(c, v.nextId, v.streams);
    }
  }

  lemma TallyFirst(c: Conn, conns: seq<Conn>, m: Measure, streams: seq<Stream>)
    ensures Tally([c] + conns, m, streams) == Weight(c, m, streams) + Tally(conns, m, streams)
  {
    assert ([c] + conns)[1..] == conns;
  }

  lemma SameButId(c: Conn, id: nat, streams: seq<Stream>)
    requires ConnSound(c, streams)
    ensures ConnSound(c.(id := id), streams)
  {
  }

  lemma WithoutIds(conns: seq<Conn>, i: nat, id: nat)
    requires i < |conns|
    ensures HasId(conns, id) && id != conns[i].id ==> HasId(Without(conns, i), id)
    ensures HasId(Without(conns, i), id) ==> HasId(conns, id)
  {
    var r := Without(conns, i);
    if HasId(conns, id) && id != conns[i].id {
      var j :| 0 <= j < |conns| && conns[j].id == id;
      assert r[if j < i then j else j - 1].id == id;
    }
    if HasId(r, id) {
      var j :| 0 <= j < |r| && r[j].id == id;
      assert conns[if j < i then j else j + 1].id == id;
    }
  }

  lemma WithoutIs(conns: seq<Conn>, i: nat, j: nat)
    requires i < |conns| && j < |conns| - 1
    ensures var c := conns[if j < i then j else j + 1];
            Without(conns, i)[j] == if c.rtsp == Some(conns[i].id) then c.(rtsp := None) else c
  {
  }

  lemma WithoutLinked(conns: seq<Conn>, i: nat, nextId: nat)
    requires Linked(conns, nextId) && i < |conns|
    ensures Linked(Without(conns, i), nextId)
    ensures forall j | 0 <= j < |conns| - 1 :: Without(conns, i)[j].rtsp != Some(conns[i].id)
  {
    hide HasId, Without;
    var r := Without(conns, i);
    forall j | 0 <= j < |r|
      ensures r[j].id == conns[if j < i then j else j + 1].id < nextId && r[j].rtsp != Some(conns[i].id)
      ensures r[j].rtsp.Some? ==> HasId(r, r[j].rtsp.value)
    {
      WithoutIs(conns, i, j);
      if r[j].rtsp.Some? {
        WithoutIds(conns, i, r[j].rtsp.value);
      }
    }
  }

  /** Opening or closing a feed changes no weight, and the rest of the state only in how it is seen. */
  lemma FeedWeights(c: Conn, m: Measure, streams: seq<Stream>, s: nat, open: bool)
    ensures Weight(c, m, SetFeed(streams, s, open)) == Weight(c, m, streams)
    ensures ConnSound(c, streams) ==> ConnSound(c, SetFeed(streams, s, open))
  {
  }

  lemma FeedTallies(conns: seq<Conn>, m: Measure, streams: seq<Stream>, s: nat, open: bool)
    ensures Tally(conns, m, SetFeed(streams, s, open)) == Tally(conns, m, streams)
  {
    hide Weight, SetFeed, Tally;
    forall i | 0 <= i < |conns|
      ensures Weight(conns[i], m, streams) == Weight(conns[i], m, SetFeed(streams, s, open))
    {
      FeedWeights(conns[i], m, streams, s, open);
    }
    TallySame(conns, conns, m, streams, SetFeed(streams, s, open));
  }

  /** References to other connections do not count. */
  lemma WithoutTally(conns: seq<Conn>, i: nat, m: Measure, streams: seq<Stream>)
    requires i < |conns|
    ensures Tally(Without(conns, i), m, streams) == Tally(conns, m, streams) - Weight(conns[i], m, streams)
    ensures Tally(conns, m, streams) >= Weight(conns[i], m, streams)
  {
    hide Tally;
    TallyRemove(conns, i, m, streams);
    TallyUpdate(conns, i, conns[i], m, streams);
    TallySame(conns[..i] + conns[i + 1..], Without(conns, i), m, streams, streams);
  }

  /** Closing a connection gives back its bandwidth, and the feed if it was feeding one. */
  lemma ClosedKeeps(v: Server, i: nat)
    requires Sound(v) && i < |v.conns|
    ensures Sound(Closed(v, i))
  {
    hide Tally, Weight, Without, SetFeed, ConnSound;
    var c, r := v.conns[i], Closed(v, i);
    WithoutLinked(v.conns, i, v.nextId);
    WithoutTally(v.conns, i, Bandwidth, v.streams);
    ClosedStreams(v, i, Bandwidth);
    forall s | 0 <= s < |r.streams|
      ensures Tally(r.conns, Receiving(s), r.streams) == if r.streams[s].feedOpened then 1 else 0
      ensures r.streams[s].kind == v.streams[s].kind && r.streams[s].bandwidth == v.streams[s].bandwidth
    {
      WithoutTally(v.conns, i, Receiving(s), v.streams);
      ClosedStreams(v, i, Receiving(s));
      ClosedFeeds(v, i, s);
    }
    forall j | 0 <= j < |r.conns|
      ensures ConnSound(r.conns[j], r.streams)
    {
      WithoutSound(v, i, j);
    }
  }

  lemma ClosedStreams(v: Server, i: nat, m: Measure)
    requires i < |v.conns|
    ensures Tally(Closed(v, i).conns, m, Closed(v, i).streams) == Tally(Closed(v, i).conns, m, v.streams)
  {
    hide Tally, Weight, SetFeed;
    var c := v.conns[i];
    if c.state == ReceiveData && c.stream.Some? {
      FeedTallies(Closed(v, i).conns, m, v.streams, c.stream.value, false);
    }
  }

  lemma ClosedFeeds(v: Server, i: nat, s: nat)
    requires i < |v.conns| && s < |v.streams|
    ensures |Closed(v, i).streams| == |v.streams|
    ensures Closed(v, i).streams[s].kind == v.streams[s].kind && Closed(v, i).streams[s].bandwidth == v.streams[s].bandwidth
    ensures Closed(v, i).streams[s].feedOpened ==
            (v.streams[s].feedOpened && !(v.conns[i].state == ReceiveData && v.conns[i].stream == Some(s)))
    ensures Weight(v.conns[i], Receiving(s), v.streams) ==
            if v.conns[i].state == ReceiveData && v.conns[i].stream == Some(s) then 1 else 0
  {
  }

  lemma WithoutSound(v: Server, i: nat, j: nat)
    requires i < |v.conns| && j < |v.conns| - 1 && forall k | 0 <= k < |v.conns| :: ConnSound(v.conns[k], v.streams)
    ensures ConnSound(Closed(v, i).conns[j], Closed(v, i).streams)
  {
    var k := if j < i then j else j + 1;
    assert ConnSound(v.conns[k], v.streams);
  }

  /** A feeder: the feed is marked open as its one connection starts to receive. */
  lemma FeederKeeps(v: Server, i: nat, c: Conn, s: nat)
    requires Sound(v) && i < |v.conns| && s < |v.streams| && !v.streams[s].feedOpened
    requires v.conns[i].state == HttpWaitRequest && c.id == v.conns[i].id && c.rtsp == v.conns[i].rtsp
    requires c.state == ReceiveData && c.post && c.stream == Some(s) && !c.packetized && c.session.None?
    ensures Sound(Moved(v, i, c).(streams := SetFeed(v.streams, s, true)))
  {
    hide Tally;
    var r := Moved(v, i, c).(streams := SetFeed(v.streams, s, true));
    LinkedUpdate(v.conns, i, c, v.nextId);
    TallyUpdate(v.conns, i, c, Bandwidth, v.streams);
    FeedTallies(r.conns, Bandwidth, v.streams, s, true);
    forall t | 0 <= t < |v.streams|
      ensures Tally(r.conns, Receiving(t), r.streams) == if r.streams[t].feedOpened then 1 else 0
    {
      TallyUpdate(v.conns, i, c, Receiving(t), v.streams);
      FeedTallies(r.conns, Receiving(t), v.streams, s, true);
    }
    forall j | 0 <= j < |r.conns|
      ensures ConnSound(r.conns[j], r.streams)
    {
      if j != i {
        assert ConnSound(v.conns[j], v.streams);
      }
    }
  }

  /** A connection in another state, of the same stream and direction, and neither feeding before nor after. */
  lemma StateKeeps(v: Server, i: nat, c: Conn)
    requires Sound(v) && i < |v.conns| && v.conns[i].state != ReceiveData && c.state != ReceiveData
    requires c.id == v.conns[i].id && c.stream == v.conns[i].stream && c.post == v.conns[i].post
    requires c.rtsp.Some? ==> HasId(v.conns, c.rtsp.value)
    requires ConnSound(c, v.streams)
    ensures Sound(Moved(v, i, c))
  {
    hide Sound, Moved, ConnSound;
    MovedKeeps(v, i, c);
    assert Moved(v, i, c).(bandwidth := v.bandwidth) == Moved(v, i, c) by { SameBandwidth(v, i, c); }
  }

  lemma SameBandwidth(v: Server, i: nat, c: Conn)
    requires i < |v.conns|
    ensures Moved(v, i, c).(bandwidth := v.bandwidth) == Moved(v, i, c)
  {
  }

  lemma ArrivesKeeps(v: Server, isRtsp: bool, memory: bool)
    requires Sound(v)
    ensures Sound(Arrived(v, isRtsp, memory))
  {
    hide Tally;
    if v.nb < v.maxConns && memory {
      AddedKeeps(v, Conn(0, if isRtsp then RtspWaitRequest else HttpWaitRequest, false, None, 0, false, None, None));
    }
  }

  lemma RequestedShape(v: Server, i: nat, q: Request)
    requires i < |v.conns| && v.conns[i].state == HttpWaitRequest && ConnSound(v.conns[i], v.streams)
    ensures var (w, ok) := Requested(v, i, q);
            && (!ok ==> w == v)
            && (ok ==>
                  && |w.conns| == |v.conns|
                  && var c, d := v.conns[i], w.conns[i];
                  && d.id == c.id && d.rtsp == c.rtsp && d.session == c.session && !d.packetized
                  && (if d.state == ReceiveData then
                        && d.post && d.stream.Some? && d.stream.value < |v.streams| && !v.streams[d.stream.value].feedOpened
                        && w == Moved(v, i, d).(streams := SetFeed(v.streams, d.stream.value, true))
                      else
                        && ConnSound(d, v.streams)
                        && w == Moved(v, i, d).(bandwidth := v.bandwidth + Weight(d, Bandwidth, v.streams))))
  {
  }

  lemma RequestedKeeps(v: Server, i: nat, q: Request)
    requires Sound(v) && i < |v.conns| && v.conns[i].state == HttpWaitRequest
    ensures var (w, ok) := Requested(v, i, q); Sound(w) && |w.conns| == |v.conns|
  {
    hide Tally, Linked, Requested, HasId;
    LinkedHere(v, i);
    RequestedShape(v, i, q);
    var (w, ok) := Requested(v, i, q);
    if ok {
      if w.conns[i].state == ReceiveData {
        FeederKeeps(v, i, w.conns[i], w.conns[i].stream.value);
      } else {
        MovedKeeps(v, i, w.conns[i]);
      }
    }
  }

  lemma LinkedHere(v: Server, i: nat)
    requires Sound(v) && i < |v.conns|
    ensures v.conns[i].rtsp.Some? ==> HasId(v.conns, v.conns[i].rtsp.value)
    ensures HasId(v.conns, v.conns[i].id) && ConnSound(v.conns[i], v.streams)
  {
  }

  lemma WokenTally(v: Server, feed: Option<nat>, to: State, m: Measure)
    requires to in {SendData, SendDataTrailer}
    ensures Tally(Woken(v, feed, to), m, v.streams) == Tally(v.conns, m, v.streams)
  {
    hide Tally;
    TallySame(v.conns, Woken(v, feed, to), m, v.streams, v.streams);
  }

  lemma WokenLinked(v: Server, feed: Option<nat>, to: State)
    requires Linked(v.conns, v.nextId)
    ensures Linked(Woken(v, feed, to), v.nextId)
  {
    var r := Woken(v, feed, to);
    forall id | HasId(v.conns, id)
      ensures HasId(r, id)
    {
      var j :| 0 <= j < |v.conns| && v.conns[j].id == id;
      assert r[j].id == id;
    }
  }

  lemma WokenKeeps(v: Server, feed: Option<nat>, to: State)
    requires Sound(v) && to in {SendData, SendDataTrailer}
    ensures Sound(v.(conns := Woken(v, feed, to)))
    ensures forall i | 0 <= i < |v.conns| && v.conns[i].state != WaitFeed :: Woken(v, feed, to)[i] == v.conns[i]
  {
    hide Tally, Linked;
    var r := Woken(v, feed, to);
    WokenLinked(v, feed, to);
    WokenTally(v, feed, to, Bandwidth);
    forall s | 0 <= s < |v.streams|
      ensures Tally(r, Receiving(s), v.streams) == Tally(v.conns, Receiving(s), v.streams)
    {
      WokenTally(v, feed, to, Receiving(s));
    }
    forall i | 0 <= i < |r|
      ensures ConnSound(r[i], v.streams)
    {
      assert ConnSound(v.conns[i], v.streams);
    }
  }

  lemma FeedDataKeeps(v: Server, i: nat, r: Received)
    requires Sound(v) && i < |v.conns|
    ensures Sound(FeedData(v, i, r))
  {
    hide Sound, Woken, Without, SetFeed, Weight;
    var c := v.conns[i];
    if c.state == ReceiveData && c.stream.Some? && c.stream.value < |v.streams| && r != Nothing {
      var s := c.stream.value;
      var feed := v.streams[s].feed;
      WokenKeeps(v, feed, if r == StoredPage then SendData else SendDataTrailer);
      if r == Failed {
        var w := v.(conns := Woken(v, feed, SendDataTrailer));
        assert w.conns[i] == c;
        ClosedKeeps(w, i);
        FeedWeights(c, Bandwidth, v.streams, s, false);
        assert SetFeed(SetFeed(v.streams, s, false), s, false) == SetFeed(v.streams, s, false) by {
          ClosedTwice(v.streams, s);
        }
        assert FeedData(v, i, r) == Closed(w, i);
      }
    }
  }

  lemma ClosedTwice(streams: seq<Stream>, s: nat)
    ensures SetFeed(SetFeed(streams, s, false), s, false) == SetFeed(streams, s, false)
  {
  }

  lemma RtpNewKeeps(v: Server, s: nat, session: nat, memory: bool)
    requires Sound(v) && s < |v.streams|
    ensures RtpNew(v, s, session, memory).None? <==> v.nb >= v.maxConns || !memory
    ensures var r := RtpNew(v, s, session, memory);
            r.Some? ==>
              && Sound(r.value) && r.value.conns[1..] == v.conns && r.value.conns[0].state == Ready
              && r.value.conns[0].packetized && r.value.conns[0].rtsp == None && r.value.conns[0].id == v.nextId
  {
    hide Tally;
    AddedIfRoom(v, Conn(0, Ready, false, Some(s), 0, true, Some(session), None));
  }

  lemma AddedIfRoom(v: Server, c: Conn)
    requires Sound(v) && ConnSound(c, v.streams) && c.rtsp.None? && c.state != ReceiveData
    ensures v.nb < v.maxConns ==>
              var r := Added(v, c);
              && Sound(r.(bandwidth := v.bandwidth + Weight(c, Bandwidth, v.streams)))
              && r.conns[1..] == v.conns
  {
    if v.nb < v.maxConns {
      AddedKeeps(v, c);
    }
  }

  lemma IdStays(v: Server, w: Server, id: nat)
    requires HasId(v.conns, id) && w.conns != [] && w.conns[1..] == v.conns
    ensures HasId(w.conns, id)
  {
    var j :| 0 <= j < |v.conns| && v.conns[j].id == id;
    assert w.conns[j + 1].id == id;
  }

  lemma CommandedKeeps(v: Server, id: nat, q: RtspRequest)
    requires Sound(v) && HasId(v.conns, id)
    ensures Sound(Commanded(v, id, q))
  {
    hide Sound, HasId, ConnSound, Closed;
    match q
    case Other =>
    case Setup(target, session, transport, memory, opens, reached, tcp) =>
      SetupKeeps(v, id, q);
    case Play(session, matches) =>
      var at := Meant(v, session, matches);
      if at.Some? && v.conns[at.value].state in {SendData, WaitFeed, Ready} {
        PlayState(v, at.value, SendData);
        StateKeeps(v, at.value, v.conns[at.value].(state := SendData));
      }
    case Pause(session, matches) =>
      var at := Meant(v, session, matches);
      if at.Some? && v.conns[at.value].state in {SendData, WaitFeed} {
        PlayState(v, at.value, Ready);
        StateKeeps(v, at.value, v.conns[at.value].(state := Ready));
      }
    case Teardown(session, matches) =>
      var at := Meant(v, session, matches);
      if at.Some? {
        ClosedKeeps(v, at.value);
      }
  }

  lemma PlayState(v: Server, i: nat, to: State)
    requires Sound(v) && i < |v.conns| && v.conns[i].state in {SendData, WaitFeed, Ready} && to in {SendData, WaitFeed, Ready}
    ensures ConnSound(v.conns[i].(state := to), v.streams)
    ensures v.conns[i].rtsp.Some? ==> HasId(v.conns, v.conns[i].rtsp.value)
  {
    LinkedHere(v, i);
  }

  lemma SetupKeeps(v: Server, id: nat, q: RtspRequest)
    requires Sound(v) && HasId(v.conns, id) && q.Setup?
    ensures Sound(Commanded(v, id, q))
  {
    hide Sound, HasId, ConnSound, RtpNew;
    if q.target.Some? && q.target.value < |v.streams| {
      var found := FindSession(v.conns, q.session);
      if found.Some? || !q.transport {
        if found.Some? {
          SetupLinks(v, found.value, id);
        }
      } else {
        RtpNewKeeps(v, q.target.value, q.session, q.memory);
        var w := RtpNew(v, q.target.value, q.session, q.memory);
        if w.Some? {
          IdStays(v, w.value, id);
          var at := FindSession(w.value.conns, q.session);
          if at.Some? {
            SetupLinks(w.value, at.value, id);
          }
        }
      }
    }
  }

  lemma SetupLinks(v: Server, i: nat, id: nat)
    requires Sound(v) && i < |v.conns| && HasId(v.conns, id)
    ensures Sound(Moved(v, i, v.conns[i].(rtsp := Some(id))))
  {
    hide Tally;
    LinkedHere(v, i);
    MovedKeeps(v, i, v.conns[i].(rtsp := Some(id)));
  }

  /** The connection a command came on is there, and waiting for its reply. */
  ghost predicate Waiting(conns: seq<Conn>, id: nat) {
    HasId(conns, id) && forall j | 0 <= j < |conns| :: conns[j].id == id ==> conns[j].state == RtspWaitRequest
  }

  lemma WaitingMoved(conns: seq<Conn>, id: nat, k: nat, c: Conn)
    requires Waiting(conns, id) && k < |conns| && conns[k].state != RtspWaitRequest && c.id == conns[k].id
    ensures Waiting(conns[k := c], id)
  {
    var j :| 0 <= j < |conns| && conns[j].id == id;
    assert conns[k := c][j].id == id;
  }

  lemma WaitingWithout(conns: seq<Conn>, id: nat, k: nat)
    requires Waiting(conns, id) && k < |conns| && conns[k].state != RtspWaitRequest
    ensures Waiting(Without(conns, k), id)
  {
    var r := Without(conns, k);
    var j :| 0 <= j < |conns| && conns[j].id == id;
    assert r[if j < k then j else j - 1].id == id;
    forall m | 0 <= m < |r| && r[m].id == id
      ensures r[m].state == RtspWaitRequest
    {
      assert r[m].id == conns[if m < k then m else m + 1].id;
    }
  }

  lemma WaitingAdded(v: Server, id: nat, w: Server)
    requires Waiting(v.conns, id) && Sound(v) && w.conns != [] && w.conns[1..] == v.conns && w.conns[0].id == v.nextId
    ensures Waiting(w.conns, id)
  {
    IdStays(v, w, id);
    var j :| 0 <= j < |v.conns| && v.conns[j].id == id;
    forall m | 0 <= m < |w.conns| && w.conns[m].id == id
      ensures w.conns[m].state == RtspWaitRequest
    {
      assert m > 0 && w.conns[m] == v.conns[m - 1];
    }
  }

  lemma SessionNotWaiting(v: Server, k: nat)
    requires Sound(v) && k < |v.conns| && v.conns[k].session.Some?
    ensures v.conns[k].state != RtspWaitRequest
  {
    assert ConnSound(v.conns[k], v.streams);
  }

  /** No command disturbs the connection it came on. */
  lemma RequesterStays(v: Server, id: nat, q: RtspRequest)
    requires Sound(v) && Waiting(v.conns, id)
    ensures Waiting(Commanded(v, id, q).conns, id)
  {
    hide Sound, Waiting, Without, FindSession;
    match q
    case Other =>
    case Setup(target, session, transport, memory, opens, reached, tcp) =>
      if target.Some? && target.value < |v.streams| {
        var found := FindSession(v.conns, session);
        var w := if found.Some? || !transport then Some(v) else RtpNew(v, target.value, session, memory);
        if w.Some? {
          RtpNewKeeps(v, target.value, session, memory);
          if found.None? && transport {
            WaitingAdded(v, id, w.value);
          }
          var at := FindSession(w.value.conns, session);
          if at.Some? {
            SessionNotWaiting(w.value, at.value);
            WaitingMoved(w.value.conns, id, at.value, w.value.conns[at.value].(rtsp := Some(id)));
          }
        }
      }
    case Play(session, matches) => SessionStays(v, id, session, matches, SendData);
    case Pause(session, matches) => SessionStays(v, id, session, matches, Ready);
    case Teardown(session, matches) => SessionStays(v, id, session, matches, Ready);
  }

  lemma SessionStays(v: Server, id: nat, session: nat, matches: bool, to: State)
    requires Sound(v) && Waiting(v.conns, id)
    ensures var at := Meant(v, session, matches);
            at.Some? ==> Waiting(Moved(v, at.value, v.conns[at.value].(state := to)).conns, id)
                         && Waiting(Closed(v, at.value).conns, id)
  {
    hide Sound, Waiting, Without;
    var at := Meant(v, session, matches);
    if at.Some? {
      SessionNotWaiting(v, at.value);
      WaitingMoved(v.conns, id, at.value, v.conns[at.value].(state := to));
      WaitingWithout(v.conns, id, at.value);
    }
  }

  lemma OnlyOne(v: Server, i: nat)
    requires Sound(v) && i < |v.conns| && v.conns[i].state == RtspWaitRequest
    ensures Waiting(v.conns, v.conns[i].id)
  {
  }

  lemma WaitingFound(conns: seq<Conn>, id: nat)
    requires Waiting(conns, id)
    ensures var at := Find(conns, id); at.Some? && conns[at.value].state == RtspWaitRequest
  {
  }

  /** Every RTSP request is answered on the connection it came on, or that connection closes; and the accounts are kept. */
  lemma RtspRequestedKeeps(v: Server, i: nat, q: RtspRequest, a: Answer)
    requires Sound(v) && i < |v.conns| && v.conns[i].state == RtspWaitRequest
    ensures Sound(RtspRequested(v, i, q, a))
    ensures var w := Commanded(v, v.conns[i].id, q);
            var at := Find(w.conns, v.conns[i].id);
            && at.Some?
            && (a == Answered ==> RtspRequested(v, i, q, a) == Moved(w, at.value, w.conns[at.value].(state := RtspSendReply)))
            && (a == Lost ==> RtspRequested(v, i, q, a) == Closed(w, at.value))
  {
    hide Sound, HasId, ConnSound, Commanded, Waiting, Closed;
    var id := v.conns[i].id;
    ClosedKeeps(v, i);
    LinkedHere(v, i);
    CommandedKeeps(v, id, q);
    OnlyOne(v, i);
    RequesterStays(v, id, q);
    var w := Commanded(v, id, q);
    WaitingFound(w.conns, id);
    var at := Find(w.conns, id);
    LinkedHere(w, at.value);
    ReplyState(w, at.value);
    ClosedKeeps(w, at.value);
    StateKeeps(w, at.value, w.conns[at.value].(state := RtspSendReply));
  }

  lemma ReplyState(v: Server, i: nat)
    requires Sound(v) && i < |v.conns| && v.conns[i].state in {RtspWaitRequest, RtspSendReply, RtspSendPacket}
    ensures ConnSound(v.conns[i].(state := RtspSendReply), v.streams)
    ensures ConnSound(v.conns[i].(state := RtspSendPacket), v.streams)
    ensures ConnSound(v.conns[i].(state := RtspWaitRequest), v.streams)
  {
    LinkedHere(v, i);
  }

  lemma LockedKeeps(v: Server, id: nat)
    requires Sound(v)
    ensures Sound(Locked(v, id)) && Locked(v, id).streams == v.streams
    ensures forall j | 0 <= j < |v.conns| && v.conns[j].state != RtspWaitRequest :: Locked(v, id).conns[j] == v.conns[j]
  {
    hide Sound, ConnSound, HasId;
    var at := Find(v.conns, id);
    if at.Some? && v.conns[at.value].state == RtspWaitRequest {
      LinkedHere(v, at.value);
      ReplyState(v, at.value);
      StateKeeps(v, at.value, v.conns[at.value].(state := RtspSendPacket));
    }
  }

  lemma SentKeeps(v: Server, i: nat, to: Option<State>, partly: bool)
    requires Sound(v) && i < |v.conns| && v.conns[i].state in {SendDataHeader, SendData, SendDataTrailer}
    ensures Sound(Sent(v, i, to, partly))
  {
    hide Tally, Linked, Closed, Locked, Moved;
    var c := v.conns[i];
    var w := if partly && c.packetized && c.rtsp.Some? then Locked(v, c.rtsp.value) else v;
    if c.rtsp.Some? {
      LockedKeeps(v, c.rtsp.value);
    }
    LinkedHere(w, i);
    ClosedKeeps(w, i);
    if to.Some? && to.value in {SendData, WaitFeed} {
      StateKeeps(w, i, w.conns[i].(state := to.value));
    }
  }

  lemma HeaderSentKeeps(v: Server, i: nat)
    requires Sound(v) && i < |v.conns| && v.conns[i].state == SendHeader
    ensures Sound(Moved(v, i, v.conns[i].(state := SendDataHeader)))
  {
    hide Tally, Linked;
    LinkedHere(v, i);
    StateKeeps(v, i, v.conns[i].(state := SendDataHeader));
  }

  lemma ReplySentKeeps(v: Server, i: nat)
    requires Sound(v) && i < |v.conns| && v.conns[i].state in {RtspSendReply, RtspSendPacket}
    ensures Sound(Moved(v, i, v.conns[i].(state := RtspWaitRequest)))
  {
    hide Sound, ConnSound, HasId;
    LinkedHere(v, i);
    ReplyState(v, i);
    StateKeeps(v, i, v.conns[i].(state := RtspWaitRequest));
  }

  lemma MulticastKeeps(v: Server, m: Cast)
    requires Sound(v)
    ensures Sound(Multicast(v, m))
  {
    hide Sound, ConnSound, HasId, RtpNew;
    if m.stream < |v.streams| {
      RtpNewKeeps(v, m.stream, m.session, m.memory);
      var w := RtpNew(v, m.stream, m.session, m.memory);
      if w.Some? {
        PlayState(w.value, 0, SendData);
        StateKeeps(w.value, 0, w.value.conns[0].(state := SendData));
      }
    }
  }

  /** Whatever a connection's turn brings, the accounts are kept. */
  lemma TurnKeeps(v: Server, i: nat, t: Turn)
    requires Sound(v) && i < |v.conns|
    ensures Sound(Turned(v, i, t))
  {
    hide Sound, Closed, Requested, FeedData, RtspRequested, Sent, Moved;
    ClosedKeeps(v, i);
    match (v.conns[i].state, t)
    case (Ready, _) =>
    case (_, Quiet) =>
    case (_, Drop) =>
    case (HttpWaitRequest, HttpRequest(q)) => RequestedKeeps(v, i, q);
    case (SendHeader, HeaderSent) => HeaderSentKeeps(v, i);
    case (SendDataHeader, DataSent(to, partly)) => SentKeeps(v, i, to, partly);
    case (SendData, DataSent(to, partly)) => SentKeeps(v, i, to, partly);
    case (SendDataTrailer, DataSent(to, partly)) => SentKeeps(v, i, None, partly);
    case (ReceiveData, FeederData(r)) => FeedDataKeeps(v, i, r);
    case (RtspWaitRequest, RtspCommand(q, a)) => RtspRequestedKeeps(v, i, q, a);
    case (RtspSendReply, ReplySent) => ReplySentKeeps(v, i);
    case (RtspSendPacket, ReplySent) => ReplySentKeeps(v, i);
    case _ =>
  }

  // ----- the main loop

  function First(conns: seq<Conn>): Option<nat> {
    if conns == [] then None else Some(conns[0].id)
  }

  /** The connection after connection i, taken before that one has its turn. */
  function Following(conns: seq<Conn>, i: nat): Option<nat>
    requires i < |conns|
  {
    if i + 1 < |conns| then Some(conns[i + 1].id) else None
  }

  lemma FollowingIsOlder(v: Server, i: nat)
    requires Sound(v) && i < |v.conns|
    ensures Following(v.conns, i).Some? ==> Following(v.conns, i).value < v.conns[i].id
  {
  }

  /** The walk from connection at on, each connection having its turn, with the one after it kept in hand; None when the
      connection kept in hand has been closed and freed, and is handled all the same. */
  ghost function Walk(v: Server, at: Option<nat>, turns: nat -> Turn): (w: Option<Server>)
    requires Sound(v)
    ensures w.Some? ==> Sound(w.value)
    decreases if at.None? then 0 else at.value + 1
  {
    if at.None? then Some(v)
    else
      var i := Find(v.conns, at.value);
      if i.None? then None
      else
        TurnKeeps(v, i.value, turns(at.value));
        FollowingIsOlder(v, i.value);
        Walk(Turned(v, i.value, turns(at.value)), Following(v.conns, i.value), turns)
  }

  /** The states in which connections have their turns, and whose turn it is. */
  ghost function Visits(v: Server, at: Option<nat>, turns: nat -> Turn): (r: seq<(Server, nat)>)
    requires Sound(v)
    ensures forall k | 0 <= k < |r| :: Sound(r[k].0) && r[k].1 < |r[k].0.conns|
    decreases if at.None? then 0 else at.value + 1
  {
    if at.None? || Find(v.conns, at.value).None? then []
    else
      var i := Find(v.conns, at.value).value;
      TurnKeeps(v, i, turns(at.value));
      FollowingIsOlder(v, i);
      [(v, i)] + Visits(Turned(v, i, turns(at.value)), Following(v.conns, i), turns)
  }

  /** The connection a turn closes besides the one whose turn it is: the session that an RTSP connection tears down. */
  function TornDown(v: Server, i: nat, t: Turn): (r: Option<nat>)
    requires i < |v.conns|
    ensures r.Some? ==> r.value < |v.conns|
  {
    if v.conns[i].state == RtspWaitRequest && t.RtspCommand? && t.answer != NoBuffer && t.command.Teardown?
      then Meant(v, t.command.session, t.command.matches) else None
  }

  // ----- which connections stay

  lemma MovedIds(conns: seq<Conn>, i: nat, c: Conn, id: nat)
    requires i < |conns| && c.id == conns[i].id
    ensures HasId(conns[i := c], id) <==> HasId(conns, id)
  {
    if HasId(conns, id) {
      var j :| 0 <= j < |conns| && conns[j].id == id;
      assert conns[i := c][j].id == id;
    }
    if HasId(conns[i := c], id) {
      var j :| 0 <= j < |conns| && conns[i := c][j].id == id;
      assert conns[j].id == id;
    }
  }

  lemma ClosedIds(v: Server, i: nat, id: nat)
    requires Sound(v) && i < |v.conns|
    ensures HasId(Closed(v, i).conns, id) <==> HasId(v.conns, id) && id != v.conns[i].id
  {
    hide Tally, Weight, SetFeed, HasId, Without;
    WithoutIds(v.conns, i, id);
    OnlyHere(v, i);
  }

  lemma OnlyHere(v: Server, i: nat)
    requires Sound(v) && i < |v.conns|
    ensures !HasId(Without(v.conns, i), v.conns[i].id)
  {
    hide Tally;
    var r := Without(v.conns, i);
    forall j | 0 <= j < |r|
      ensures r[j].id != v.conns[i].id
    {
      WithoutIs(v.conns, i, j);
    }
  }

  lemma WokenIds(v: Server, feed: Option<nat>, to: State, id: nat)
    ensures HasId(v.conns, id) ==> HasId(Woken(v, feed, to), id)
  {
    if HasId(v.conns, id) {
      var j :| 0 <= j < |v.conns| && v.conns[j].id == id;
      assert Woken(v, feed, to)[j].id == id;
    }
  }

  lemma FeedDataIds(v: Server, i: nat, r: Received, id: nat)
    requires Sound(v) && i < |v.conns| && HasId(v.conns, id) && id != v.conns[i].id && v.conns[i].state == ReceiveData
    ensures HasId(FeedData(v, i, r).conns, id)
  {
    hide Sound, Woken, Without, SetFeed, Weight, HasId;
    var c := v.conns[i];
    if c.stream.Some? && c.stream.value < |v.streams| && r != Nothing {
      var feed := v.streams[c.stream.value].feed;
      WokenIds(v, feed, if r == StoredPage then SendData else SendDataTrailer, id);
      WokenKeeps(v, feed, if r == StoredPage then SendData else SendDataTrailer);
      if r == Failed {
        var w := v.(conns := Woken(v, feed, SendDataTrailer));
        assert w.conns[i] == c;
        ClosedIds(w, i, id);
        assert FeedData(v, i, r).conns == Closed(w, i).conns;
      }
    }
  }

  lemma LockedIds(v: Server, x: nat, id: nat)
    ensures HasId(Locked(v, x).conns, id) <==> HasId(v.conns, id)
    ensures forall j | 0 <= j < |v.conns| :: Locked(v, x).conns[j].id == v.conns[j].id
  {
    hide HasId;
    var at := Find(v.conns, x);
    if at.Some? && v.conns[at.value].state == RtspWaitRequest {
      MovedIds(v.conns, at.value, v.conns[at.value].(state := RtspSendPacket), id);
    }
  }

  lemma SentIds(v: Server, i: nat, to: Option<State>, partly: bool, id: nat)
    requires Sound(v) && i < |v.conns| && HasId(v.conns, id) && id != v.conns[i].id
    ensures HasId(Sent(v, i, to, partly).conns, id)
  {
    hide HasId, Closed, Locked, Sound;
    var c := v.conns[i];
    var w := if partly && c.packetized && c.rtsp.Some? then Locked(v, c.rtsp.value) else v;
    if c.rtsp.Some? {
      LockedIds(v, c.rtsp.value, id);
      LockedKeeps(v, c.rtsp.value);
    }
    ClosedIds(w, i, id);
    if to.Some? {
      MovedIds(w.conns, i, w.conns[i].(state := to.value), id);
    }
  }

  lemma CommandedIds(v: Server, x: nat, q: RtspRequest, id: nat)
    requires Sound(v) && HasId(v.conns, id)
    ensures var at := if q.Teardown? then Meant(v, q.session, q.matches) else None;
            HasId(Commanded(v, x, q).conns, id) <==> at.None? || v.conns[at.value].id != id
  {
    hide HasId, Closed, Sound, FindSession, RtpNew;
    match q
    case Other =>
    case Setup(target, session, transport, memory, opens, reached, tcp) =>
      if target.Some? && target.value < |v.streams| {
        var found := FindSession(v.conns, session);
        var w := if found.Some? || !transport then Some(v) else RtpNew(v, target.value, session, memory);
        if w.Some? {
          RtpNewKeeps(v, target.value, session, memory);
          if found.None? && transport {
            IdStays(v, w.value, id);
          }
          var at := FindSession(w.value.conns, session);
          if at.Some? {
            MovedIds(w.value.conns, at.value, w.value.conns[at.value].(rtsp := Some(x)), id);
          }
        }
      }
    case Play(session, matches) => SessionIds(v, session, matches, SendData, id);
    case Pause(session, matches) => SessionIds(v, session, matches, Ready, id);
    case Teardown(session, matches) =>
      var at := Meant(v, session, matches);
      if at.Some? {
        ClosedIds(v, at.value, id);
      }
  }

  lemma SessionIds(v: Server, session: nat, matches: bool, to: State, id: nat)
    requires HasId(v.conns, id)
    ensures var at := Meant(v, session, matches);
            at.Some? ==> HasId(Moved(v, at.value, v.conns[at.value].(state := to)).conns, id)
  {
    hide HasId;
    var at := Meant(v, session, matches);
    if at.Some? {
      MovedIds(v.conns, at.value, v.conns[at.value].(state := to), id);
    }
  }

  lemma RtspRequestedIds(v: Server, i: nat, q: RtspRequest, a: Answer, id: nat)
    requires Sound(v) && i < |v.conns| && v.conns[i].state == RtspWaitRequest && HasId(v.conns, id) && id != v.conns[i].id
    ensures var at := TornDown(v, i, RtspCommand(q, a));
            HasId(RtspRequested(v, i, q, a).conns, id) <==> at.None? || v.conns[at.value].id != id
  {
    hide HasId, Closed, Sound, Commanded, Find;
    ClosedIds(v, i, id);
    if a != NoBuffer {
      var w := Commanded(v, v.conns[i].id, q);
      CommandedIds(v, v.conns[i].id, q, id);
      RtspRequestedKeeps(v, i, q, a);
      LinkedHere(v, i);
      CommandedKeeps(v, v.conns[i].id, q);
      var at := Find(w.conns, v.conns[i].id).value;
      ClosedIds(w, at, id);
      MovedIds(w.conns, at, w.conns[at].(state := RtspSendReply), id);
    }
  }

  lemma IdsApart(v: Server, i: nat, k: nat)
    requires Sound(v) && i < |v.conns| && k < |v.conns|
    ensures HasId(v.conns, v.conns[k].id) && (v.conns[i].id == v.conns[k].id <==> i == k)
  {
  }

  /** A turn closes no connection but the one whose turn it is and the session it tears down. */
  lemma OthersStay(v: Server, i: nat, t: Turn, k: nat)
    requires Sound(v) && i < |v.conns| && k < |v.conns| && k != i
    ensures HasId(Turned(v, i, t).conns, v.conns[k].id) <==> TornDown(v, i, t) != Some(k)
  {
    hide HasId, Closed, Sound, FeedData, RtspRequested, Sent, Requested, Meant;
    var id := v.conns[k].id;
    IdsApart(v, i, k);
    ClosedIds(v, i, id);
    match (v.conns[i].state, t)
    case (Ready, _) =>
    case (_, Quiet) =>
    case (_, Drop) =>
    case (HttpWaitRequest, HttpRequest(q)) => RequestedIds(v, i, q, id);
    case (SendHeader, HeaderSent) => MovedIds(v.conns, i, v.conns[i].(state := SendDataHeader), id);
    case (SendDataHeader, DataSent(to, partly)) => SentIds(v, i, to, partly, id);
    case (SendData, DataSent(to, partly)) => SentIds(v, i, to, partly, id);
    case (SendDataTrailer, DataSent(to, partly)) => SentIds(v, i, None, partly, id);
    case (ReceiveData, FeederData(r)) => FeedDataIds(v, i, r, id);
    case (RtspWaitRequest, RtspCommand(q, a)) =>
      RtspRequestedIds(v, i, q, a, id);
      var at := TornDown(v, i, t);
      if at.Some? {
        IdsApart(v, at.value, k);
      }
    case (RtspSendReply, ReplySent) => MovedIds(v.conns, i, v.conns[i].(state := RtspWaitRequest), id);
    case (RtspSendPacket, ReplySent) => MovedIds(v.conns, i, v.conns[i].(state := RtspWaitRequest), id);
    case _ =>
  }

  lemma RequestedIds(v: Server, i: nat, q: Request, id: nat)
    requires Sound(v) && i < |v.conns| && v.conns[i].state == HttpWaitRequest && HasId(v.conns, id)
    ensures var (w, ok) := Requested(v, i, q); ok ==> HasId(w.conns, id)
  {
    hide HasId, Requested;
    LinkedHere(v, i);
    RequestedShape(v, i, q);
    var (w, ok) := Requested(v, i, q);
    if ok {
      MovedIds(v.conns, i, w.conns[i], id);
    }
  }

  /** The connection right after the one whose turn it is is not torn down. */
  ghost predicate Harmless(visit: (Server, nat), turns: nat -> Turn) {
    visit.1 < |visit.0.conns| && TornDown(visit.0, visit.1, turns(visit.0.conns[visit.1].id)) != Some(visit.1 + 1)
  }

  ghost predicate AllHarmless(visits: seq<(Server, nat)>, turns: nat -> Turn) {
    forall k | 0 <= k < |visits| :: Harmless(visits[k], turns)
  }

  lemma FirstHarmless(visit: (Server, nat), visits: seq<(Server, nat)>, turns: nat -> Turn)
    ensures AllHarmless([visit] + visits, turns) <==> Harmless(visit, turns) && AllHarmless(visits, turns)
  {
    hide Harmless;
    var all := [visit] + visits;
    assert all[0] == visit;
    assert forall k | 0 <= k < |visits| :: all[k + 1] == visits[k];
  }

  /** A walk goes through exactly when no connection tears down the session right after it in the list. */
  lemma {:induction false} WalkIff(v: Server, at: Option<nat>, turns: nat -> Turn)
    requires Sound(v) && (at.Some? ==> HasId(v.conns, at.value))
    ensures Walk(v, at, turns).Some? <==> AllHarmless(Visits(v, at, turns), turns)
    decreases if at.None? then 0 else at.value + 1
  {
    hide Sound, Turned, TornDown, HasId, Following, AllHarmless;
    if at.None? {
      NoVisits(turns);
    } else {
      FoundHere(v.conns, at.value);
      var i := Find(v.conns, at.value).value;
      var t := turns(at.value);
      TurnKeeps(v, i, t);
      FollowingIsOlder(v, i);
      var w, next := Turned(v, i, t), Following(v.conns, i);
      WalkStep(v, i, t);
      FirstHarmless((v, i), Visits(w, next, turns), turns);
      if next.None? || HasId(w.conns, next.value) {
        WalkIff(w, next, turns);
      } else {
        NotFound(w.conns, next.value);
      }
    }
  }

  lemma NoVisits(turns: nat -> Turn)
    ensures AllHarmless([], turns)
  {
  }

  lemma FoundHere(conns: seq<Conn>, id: nat)
    requires HasId(conns, id)
    ensures Find(conns, id).Some?
  {
  }

  lemma NotFound(conns: seq<Conn>, id: nat)
    requires !HasId(conns, id)
    ensures Find(conns, id).None?
  {
  }

  lemma WalkStep(v: Server, i: nat, t: Turn)
    requires Sound(v) && i < |v.conns|
    ensures Following(v.conns, i).Some? ==>
              (HasId(Turned(v, i, t).conns, Following(v.conns, i).value) <==> TornDown(v, i, t) != Some(i + 1))
    ensures Following(v.conns, i).None? ==> TornDown(v, i, t) != Some(i + 1)
  {
    hide Sound, Turned, TornDown, HasId;
    if i + 1 < |v.conns| {
      OthersStay(v, i, t, i + 1);
    }
  }

  /** The list runs from new to old: a connection that tears down only sessions newer than itself does no harm. */
  lemma OlderIsSafe(v: Server, i: nat, t: Turn)
    requires Sound(v) && i < |v.conns|
    requires TornDown(v, i, t).Some? ==> v.conns[TornDown(v, i, t).value].id > v.conns[i].id
    ensures TornDown(v, i, t) != Some(i + 1)
  {
  }

  /** One pass: what each connection finds, and who arrives at the two ports. */
  datatype Round = Round(turns: nat -> Turn, http: Option<bool>, rtsp: Option<bool>)

  function ArrivedIf(v: Server, isRtsp: bool, arrival: Option<bool>): Server {
    if arrival.None? then v else Arrived(v, isRtsp, arrival.value)
  }

  lemma ArrivedIfKeeps(v: Server, isRtsp: bool, arrival: Option<bool>)
    requires Sound(v)
    ensures Sound(ArrivedIf(v, isRtsp, arrival))
  {
    if arrival.Some? {
      ArrivesKeeps(v, isRtsp, arrival.value);
    }
  }

  ghost function Pass(v: Server, r: Round): (w: Option<Server>)
    requires Sound(v)
    ensures w.Some? ==> Sound(w.value)
  {
    var w := Walk(v, First(v.conns), r.turns);
    if w.None? then None
    else
      ArrivedIfKeeps(w.value, false, r.http);
      ArrivedIfKeeps(ArrivedIf(w.value, false, r.http), true, r.rtsp);
      Some(ArrivedIf(ArrivedIf(w.value, false, r.http), true, r.rtsp))
  }

  // ----- over any run

  /** The server before any connection: every feed closed. */
  ghost predicate Starts(v: Server) {
    && v.conns == [] && v.nb == v.bandwidth == 0 && Weighed(v.streams)
    && forall s | 0 <= s < |v.streams| :: !v.streams[s].feedOpened
  }

  lemma {:induction false} StartIsSound(v: Server)
    requires Starts(v)
    ensures Sound(v)
  {
  }

  ghost function MulticastAll(v: Server, casts: seq<Cast>): (w: Server)
    requires Sound(v)
    ensures Sound(w)
  {
    if casts == [] then v
    else
      var w := MulticastAll(v, casts[..|casts| - 1]);
      MulticastKeeps(w, casts[|casts| - 1]);
      Multicast(w, casts[|casts| - 1])
  }

  ghost function Passes(v: Server, rounds: seq<Round>): (w: Option<Server>)
    requires Sound(v)
    ensures w.Some? ==> Sound(w.value)
  {
    if rounds == [] then Some(v)
    else
      var w := Passes(v, rounds[..|rounds| - 1]);
      if w.None? then None else Pass(w.value, rounds[|rounds| - 1])
  }

  /** The server after it has started its multicasts and its loop has gone round so often; None when a pass went wrong. */
  ghost function Served(v: Server, casts: seq<Cast>, rounds: seq<Round>): (w: Option<Server>)
    requires Starts(v)
    ensures w.Some? ==> Sound(w.value)
  {
    StartIsSound(v);
    Passes(MulticastAll(v, casts), rounds)
  }

  lemma {:induction false} NoFeeder(conns: seq<Conn>, s: nat, streams: seq<Stream>)
    requires forall i | 0 <= i < |conns| :: !FeedsInto(conns[i], s)
    ensures Tally(conns, Receiving(s), streams) == 0
  {
    if conns != [] {
      NoFeeder(conns[1..], s, streams);
    }
  }

  lemma {:induction false} TwoFeeders(conns: seq<Conn>, i: nat, j: nat, s: nat, streams: seq<Stream>)
    requires i <= j < |conns| && FeedsInto(conns[i], s) && FeedsInto(conns[j], s)
    ensures Tally(conns, Receiving(s), streams) >= if i < j then 2 else 1
  {
    if i > 0 {
      TwoFeeders(conns[1..], i - 1, j - 1, s, streams);
    } else if j > 0 {
      TwoFeeders(conns[1..], j - 1, j - 1, s, streams);
    }
  }

  ghost predicate FeedsInto(c: Conn, s: nat) {
    c.state == ReceiveData && c.stream == Some(s)
  }

  /** Whenever the loop comes round, and so in every run in which no connection tears down the session right after it: the
      count is the length of the list and within the limit, and the bandwidth counted is that of what the connections are
      served; with no connection left both are zero. */
  lemma AccountsKept(v: Server, casts: seq<Cast>, rounds: seq<Round>)
    requires Starts(v) && Served(v, casts, rounds).Some?
    ensures var r := Served(v, casts, rounds).value;
            && r.nb == |r.conns| <= r.maxConns
            && r.bandwidth == Tally(r.conns, Bandwidth, r.streams)
            && (r.conns == [] ==> r.nb == 0 && r.bandwidth == 0)
  {
    hide Served;
  }

  /** A feed is marked open exactly when one connection, and no more than one, is receiving into it. */
  lemma FeedOpenIff(v: Server, casts: seq<Cast>, rounds: seq<Round>, s: nat)
    requires Starts(v) && Served(v, casts, rounds).Some? && s < |Served(v, casts, rounds).value.streams|
    ensures var r := Served(v, casts, rounds).value;
            && (r.streams[s].feedOpened <==> exists i :: 0 <= i < |r.conns| && FeedsInto(r.conns[i], s))
            && (forall i, j | 0 <= i < |r.conns| && 0 <= j < |r.conns| && FeedsInto(r.conns[i], s) && FeedsInto(r.conns[j], s)
                  :: i == j)
  {
    hide Served, Tally, FeedsInto;
    var r := Served(v, casts, rounds).value;
    if forall i | 0 <= i < |r.conns| :: !FeedsInto(r.conns[i], s) {
      NoFeeder(r.conns, s, r.streams);
    }
    forall i, j | 0 <= i <= j < |r.conns| && FeedsInto(r.conns[i], s) && FeedsInto(r.conns[j], s)
      ensures i == j && r.streams[s].feedOpened
    {
      TwoFeeders(r.conns, i, j, s, r.streams);
    }
  }

  /** No connection sends its packets inside one that has gone. */
  lemma NoneDangling(v: Server, casts: seq<Cast>, rounds: seq<Round>, i: nat)
    requires Starts(v) && Served(v, casts, rounds).Some?
    requires i < |Served(v, casts, rounds).value.conns| && Served(v, casts, rounds).value.conns[i].rtsp.Some?
    ensures HasId(Served(v, casts, rounds).value.conns, Served(v, casts, rounds).value.conns[i].rtsp.value)
  {
    hide Served, Tally, HasId;
  }

  /** In some turn of this pass the connection right after the one whose turn it is is torn down, or an earlier pass went wrong. */
  ghost predicate Harmed(v: Option<Server>, r: Round)
    requires v.Some? ==> Sound(v.value)
  {
    v.None? || !AllHarmless(Visits(v.value, First(v.value.conns), r.turns), r.turns)
  }

  /** A run goes through exactly when in no pass a connection tears down the session right after it in the list. */
  lemma ServedThrough(v: Server, casts: seq<Cast>, rounds: seq<Round>)
    requires Starts(v)
    ensures Served(v, casts, rounds).Some? <==> forall k | 0 <= k < |rounds| :: !Harmed(Served(v, casts, rounds[..k]), rounds[k])
  {
    StartIsSound(v);
    ThroughFrom(MulticastAll(v, casts), rounds);
  }

  lemma {:induction false} ThroughFrom(v: Server, rounds: seq<Round>)
    requires Sound(v)
    ensures Passes(v, rounds).Some? <==> forall k | 0 <= k < |rounds| :: !Harmed(Passes(v, rounds[..k]), rounds[k])
  {
    hide Sound, Harmed, Passes;
    PassesStep(v, rounds);
    if rounds != [] {
      var n := |rounds| - 1;
      ThroughFrom(v, rounds[..n]);
      PassIff(Passes(v, rounds[..n]), rounds[n]);
      forall k | 0 <= k < n
        ensures Harmed(Passes(v, rounds[..n][..k]), rounds[..n][k]) <==> Harmed(Passes(v, rounds[..k]), rounds[k])
      {
        assert rounds[..n][..k] == rounds[..k];
      }
    }
  }

  lemma PassesStep(v: Server, rounds: seq<Round>)
    requires Sound(v)
    ensures rounds == [] ==> Passes(v, rounds) == Some(v)
    ensures rounds != [] ==>
              var w := Passes(v, rounds[..|rounds| - 1]);
              Passes(v, rounds).Some? <==> w.Some? && Pass(w.value, rounds[|rounds| - 1]).Some?
  {
    hide Sound, Pass;
  }

  lemma PassIff(v: Option<Server>, r: Round)
    requires v.Some? ==> Sound(v.value)
    ensures (v.Some? && Pass(v.value, r).Some?) <==> !Harmed(v, r)
  {
    hide Sound, Visits, Walk;
    if v.Some? {
      FirstIsThere(v.value);
      WalkIff(v.value, First(v.value.conns), r.turns);
    }
  }

  lemma FirstIsThere(v: Server)
    ensures First(v.conns).Some? ==> HasId(v.conns, First(v.conns).value)
  {
  }

  // ----- from the configuration to the server

  /** Every stream with its bandwidth, no feed open. */
  function StreamsOf(entries: seq<Entry>): (r: seq<Stream>)
    ensures |r| == |entries|
  {
    seq(|entries|, k requires 0 <= k < |entries| =>
      var e := entries[k]; Stream(e.kind, e.isFeed, e.readonly, e.feed, Streams.Bandwidth(e.tracks), false))
  }

  /** Every configuration makes streams that the server can start with: those that are not live weigh nothing. */
  lemma ConfiguredStarts(lines: seq<Line>, files: nat -> Option<seq<Track>>)
    ensures var streams := StreamsOf(Configured(lines, files));
            Weighed(streams) && forall s | 0 <= s < |streams| :: !streams[s].feedOpened
  {
    hide Configured, Streams.Bandwidth;
    var streams := StreamsOf(Configured(lines, files));
    forall s | 0 <= s < |streams| && streams[s].kind != Live
      ensures streams[s].bandwidth == 0
    {
      NotLiveWeighsNothing(lines, files, s);
    }
  }

  // ----- a run that goes wrong

  /** Every connection finds the same. */
  function Always(t: Turn): nat -> Turn {
    _ => t
  }

  const Waits: Conn := Conn(0, RtspWaitRequest, false, None, 0, false, None, None)

  /** One connection that sets up a session, and another that arrives. */
  lemma SetUpThenArrival(v: Server, session: nat)
    requires Sound(v) && |v.conns| == 1 && v.conns[0] == Waits.(id := v.conns[0].id) && v.maxConns >= 3 && v.streams != []
    ensures var setup := RtspCommand(Setup(Some(0), session, true, true, true, true, true), Answered);
            var w := Pass(v, Round(Always(setup), None, Some(true)));
            && w.Some? && |w.value.conns| == 3 && w.value.conns[0].state == RtspWaitRequest
            && w.value.conns[0].session.None? && w.value.conns[1].session == Some(session)
  {
    hide Sound, Tally, HasId, Turned;
    var id := v.conns[0].id;
    var turns := Always(RtspCommand(Setup(Some(0), session, true, true, true, true, true), Answered));
    var w := Turned(v, 0, turns(id));
    SetUp(v, session);
    LinkedHere(v, 0);
    TurnKeeps(v, 0, turns(id));
    assert Walk(v, Some(id), turns) == Walk(w, None, turns) == Some(w);
    SoundCount(w);
  }

  /** The session stands in front of the connection it was set up on. */
  lemma SetUp(v: Server, session: nat)
    requires Sound(v) && |v.conns| == 1 && v.conns[0] == Waits.(id := v.conns[0].id) && v.maxConns >= 3 && v.streams != []
    ensures var setup := RtspCommand(Setup(Some(0), session, true, true, true, true, true), Answered);
            var w := Turned(v, 0, setup);
            && |w.conns| == 2 && w.conns[0].session == Some(session) && w.conns[1].session.None?
            && w.maxConns == v.maxConns
  {
    hide Sound, Tally, HasId;
    var id := v.conns[0].id;
    var command := Setup(Some(0), session, true, true, true, true, true);
    SoundCount(v);
    var r := RtpNew(v, 0, session, true).value;
    RtpNewKeeps(v, 0, session, true);
    IdsApart(r, 0, 1);
    assert r.conns[1] == v.conns[0];
    var linked := Moved(r, 0, r.conns[0].(rtsp := Some(id)));
    assert Commanded(v, id, command) == linked;
    assert linked.conns[1..][0].id == id;
    assert Find(linked.conns, id) == Some(1);
    assert Turned(v, 0, RtspCommand(command, Answered)) == Moved(linked, 1, linked.conns[1].(state := RtspSendReply));
  }

  lemma SoundCount(v: Server)
    requires Sound(v)
    ensures v.nb == |v.conns|
  {
  }

  lemma TornDownNext(v: Server, session: nat)
    requires Sound(v) && |v.conns| == 3 && v.conns[0].state == RtspWaitRequest && v.conns[0].session.None?
    requires v.conns[1].session == Some(session)
    ensures var teardown := RtspCommand(Teardown(session, true), Answered);
            Pass(v, Round(Always(teardown), None, None)).None?
  {
    hide Sound, Closed, Turned, HasId;
    var turns := Always(RtspCommand(Teardown(session, true), Answered));
    assert v.conns[1..][0] == v.conns[1];
    assert FindSession(v.conns[1..], session) == Some(0);
    assert TornDown(v, 0, turns(v.conns[0].id)) == Some(1);
    WalkStep(v, 0, turns(v.conns[0].id));
    var w := Turned(v, 0, turns(v.conns[0].id));
    TurnKeeps(v, 0, turns(v.conns[0].id));
    NotFound(w.conns, v.conns[1].id);
    assert Walk(w, Some(v.conns[1].id), turns) == None;
  }

  /** Connection A sets up a session, B connects, and B tears the session down: it stands right after B in the list. */
  lemma SavedConnectionFreed(v: Server, session: nat)
    requires Starts(v) && v.maxConns >= 3 && v.streams != []
    ensures var setup := RtspCommand(Setup(Some(0), session, true, true, true, true, true), Answered);
            var teardown := RtspCommand(Teardown(session, true), Answered);
            Served(v, [], [Round(Always(Quiet), None, Some(true)), Round(Always(setup), None, Some(true)),
                           Round(Always(teardown), None, None)]) == None
  {
    hide Sound, Walk, First;
    var setup := RtspCommand(Setup(Some(0), session, true, true, true, true, true), Answered);
    var teardown := RtspCommand(Teardown(session, true), Answered);
    var r1, r2, r3 := Round(Always(Quiet), None, Some(true)), Round(Always(setup), None, Some(true)), Round(Always(teardown), None, None);
    var rounds := [r1, r2, r3];
    StartIsSound(v);
    EmptyPass(v, r1);
    var v1 := Pass(v, r1).value;
    SetUpThenArrival(v1, session);
    var v2 := Pass(v1, r2).value;
    TornDownNext(v2, session);
    hide Pass;
    PassesMore(v, [], r1);
    PassesMore(v, [r1], r2);
    PassesMore(v, [r1, r2], r3);
    assert [] + [r1] == [r1] && [r1] + [r2] == [r1, r2] && [r1, r2] + [r3] == rounds;
    assert Passes(v, rounds) == None;
    assert Served(v, [], rounds) == None;
  }

  lemma PassesMore(v: Server, rounds: seq<Round>, r: Round)
    requires Sound(v)
    ensures Passes(v, []) == Some(v) && MulticastAll(v, []) == v
    ensures Passes(v, rounds + [r]) == if Passes(v, rounds).None? then None else Pass(Passes(v, rounds).value, r)
  {
    hide Pass, Sound;
    assert (rounds + [r])[..|rounds|] == rounds;
  }

  lemma EmptyPass(v: Server, r: Round)
    requires Sound(v) && Starts(v) && v.maxConns > 0 && r.http.None? && r.rtsp == Some(true)
    ensures Pass(v, r) == Some(Added(v, Waits))
  {
  }

  /** A stream that is there, is no redirection and is not itself being fed; for a viewer its bandwidth still fits as well. */
  ghost predicate Free(v: Server, q: Request) {
    q.Request? && q.target.Some? && q.target.value < |v.streams|
    && var s := v.streams[q.target.value];
       s.kind != Redirect && !s.feedOpened && (q.post || Fits(v, s))
  }

  ghost predicate Fits(v: Server, s: Stream) {
    Tally(v.conns, Bandwidth, v.streams) + s.bandwidth <= v.maxBandwidth
  }

  ghost predicate Viewable(v: Server, q: Request) {
    Free(v, q) && !q.post && !q.redirection && q.opens && v.streams[q.target.value].kind == Live
  }

  ghost predicate Feedable(v: Server, q: Request) {
    Free(v, q) && q.post && !q.redirection && q.opens && v.streams[q.target.value].isFeed && !v.streams[q.target.value].readonly
  }

  /** A viewer is served exactly when the stream is live, not itself being fed, and its bandwidth still fits, no redirection
      is asked for, and its input opens; a feeder exactly when the feed is one, may be written, is not open, and its file
      opens. */
  lemma ServedIff(v: Server, i: nat, q: Request)
    requires Sound(v) && i < |v.conns| && v.conns[i].state == HttpWaitRequest
    ensures var (w, ok) := Requested(v, i, q);
            && (ok ==> |w.conns| == |v.conns|)
            && ((ok && w.conns[i].state == SendHeader && w.conns[i].error == 0) <==> Viewable(v, q))
            && ((ok && w.conns[i].state == ReceiveData) <==> Feedable(v, q))
  {
    hide Tally, Linked;
  }

  /** What a client is told: 301 exactly when the stream asked for is a redirection, 503 exactly when a viewer's bandwidth no
      longer fits, 200 for a status page or an answer that names the stream, and 404 for all else that is not served. */
  lemma ToldIff(v: Server, i: nat, q: Request)
    requires Sound(v) && i < |v.conns| && v.conns[i].state == HttpWaitRequest
    ensures var (w, ok) := Requested(v, i, q);
            ok && w.conns[i].state == SendHeader ==>
              && w.conns[i].error in {0, 200, 301, 404, 503}
              && (w.conns[i].error == 301 <==>
                    q.target.Some? && q.target.value < |v.streams| && v.streams[q.target.value].kind == Redirect)
              && (w.conns[i].error == 503 <==>
                    !q.post && Free(v, q.(post := true)) && !Fits(v, v.streams[q.target.value]))
              && (w.conns[i].error == 200 <==>
                    Free(v, q) && if q.redirection then q.hostGiven else !q.post && v.streams[q.target.value].kind == Status)
  {
    hide Tally, Linked;
  }

  /** A connection goes on to data once its header is sent exactly when it is a viewer's that is served; any other one that
      was sent a header is closed. */
  lemma HeaderThenData(v: Server, i: nat, q: Request)
    requires Sound(v) && i < |v.conns| && v.conns[i].state == HttpWaitRequest
    ensures var (w, ok) := Requested(v, i, q);
            ok && |w.conns| == |v.conns| && w.conns[i].state == SendHeader ==>
              var u := Turned(w, i, HeaderSent);
              if Viewable(v, q) then |u.conns| == |v.conns| && u.conns[i].state == SendDataHeader
              else !HasId(u.conns, v.conns[i].id)
  {
    hide Sound, HasId, Viewable, Feedable, Requested, Closed;
    var (w, ok) := Requested(v, i, q);
    ServedIff(v, i, q);
    RequestedKeeps(v, i, q);
    SameId(v, i, q);
    if ok && w.conns[i].state == SendHeader && w.conns[i].error != 0 {
      ClosedIds(w, i, v.conns[i].id);
    }
  }

  lemma SameId(v: Server, i: nat, q: Request)
    requires Sound(v) && i < |v.conns| && v.conns[i].state == HttpWaitRequest
    ensures var (w, ok) := Requested(v, i, q); ok ==> |w.conns| == |v.conns| && w.conns[i].id == v.conns[i].id
  {
    hide Requested, Linked, Tally;
    RequestedShape(v, i, q);
  }

  /** The feed a connection's stream comes from. */
  function FeedOf(v: Server, c: Conn): Option<nat> {
    if c.stream.Some? && c.stream.value < |v.streams| then v.streams[c.stream.value].feed else None
  }

  /** When a feeder brings a page or fails, those who wait for its feed go on, with more data or to the end of theirs, and no
      other connection does; and in between they wait, whatever their turns bring but a failure of their own. */
  lemma WaitersGoOn(v: Server, i: nat, r: Received, k: nat, t: Turn)
    requires Sound(v) && i < |v.conns| && v.conns[i].state == ReceiveData && r != Nothing
    requires k < |v.conns| && k != i && FeedOf(v, v.conns[i]).Some?
    ensures var w, c := FeedData(v, i, r), v.conns[k];
            && (c.state == WaitFeed && t != Drop ==> Turned(v, k, t) == v)
            && var at := Find(w.conns, c.id);
               && at.Some?
               && w.conns[at.value].state ==
                    if c.state == WaitFeed && FeedOf(v, c) == FeedOf(v, v.conns[i])
                      then if r == StoredPage then SendData else SendDataTrailer else c.state
  {
    hide Sound, HasId, Woken, SetFeed, Weight, Without, Closed;
    var feed, c := FeedOf(v, v.conns[i]), v.conns[k];
    var to := if r == StoredPage then SendData else SendDataTrailer;
    var w := FeedData(v, i, r);
    LinkedHere(v, i);
    LinkedHere(v, k);
    IdsApart(v, i, k);
    WokenIs(v, feed, to, k);
    WokenIs(v, feed, to, i);
    WokenKeeps(v, feed, to);
    if r == StoredPage {
      FoundAt(w, k);
    } else {
      var u := v.(conns := Woken(v, feed, to), streams := SetFeed(v.streams, v.conns[i].stream.value, false));
      FeedDataKeeps(v, i, r);
      var at := if k < i then k else k - 1;
      assert w.conns == Without(u.conns, i) by { ClosedConns(u, i); }
      WithoutIs(u.conns, i, at);
      FoundAt(w, at);
    }
  }

  lemma ClosedConns(v: Server, i: nat)
    requires i < |v.conns|
    ensures Closed(v, i).conns == Without(v.conns, i)
  {
  }

  lemma WokenIs(v: Server, feed: Option<nat>, to: State, k: nat)
    requires Sound(v) && k < |v.conns| && feed.Some?
    ensures var c := v.conns[k];
            Woken(v, feed, to)[k] == if c.state == WaitFeed && FeedOf(v, c) == feed then c.(state := to) else c
  {
    hide Linked, Tally;
  }

  lemma FoundAt(v: Server, k: nat)
    requires Sound(v) && k < |v.conns|
    ensures Find(v.conns, v.conns[k].id) == Some(k)
  {
    hide Tally, Find;
    assert HasId(v.conns, v.conns[k].id);
    FoundHere(v.conns, v.conns[k].id);
    FindIs(v.conns, v.conns[k].id);
  }

  lemma FindIs(conns: seq<Conn>, id: nat)
    ensures Find(conns, id).Some? ==> Find(conns, id).value < |conns| && conns[Find(conns, id).value].id == id
  {
  }

  /** A request is answered before the next one is read: until its reply is sent, no other request does anything on its
      connection; and then that waits for the next. The same of a connection that still has a packet to send. */
  lemma ReplyFirst(v: Server, i: nat, q: RtspRequest, a: Answer)
    requires i < |v.conns| && v.conns[i].state in {RtspSendReply, RtspSendPacket}
    ensures Turned(v, i, RtspCommand(q, a)) == v
    ensures var u := Turned(v, i, ReplySent);
            && |u.conns| == |v.conns| && u.conns[i].state == RtspWaitRequest
            && Turned(u, i, RtspCommand(q, a)) == RtspRequested(u, i, q, a)
  {
    hide RtspRequested;
  }

  /** After a SETUP over TCP a session sends inside the connection it came on, exactly when the request came as far as its
      transport; and a session for another stream stays as it is. */
  lemma SetupBinds(v: Server, id: nat, target: nat, session: nat, memory: bool, opens: bool, reached: bool, tcp: bool)
    requires target < |v.streams|
    ensures var w := Commanded(v, id, Setup(Some(target), session, true, memory, opens, reached, tcp));
            var was, now := FindSession(v.conns, session), FindSession(w.conns, session);
            && (was.None? ==> (now.Some? <==> v.nb < v.maxConns && memory))
            && (was.None? && now.Some? ==>
                  w.conns[now.value].rtsp == (if opens && reached && tcp then Some(id) else None))
            && (was.Some? && v.conns[was.value].stream != Some(target) ==> w == v)
            && (was.Some? && v.conns[was.value].stream == Some(target) ==>
                  now == was && w.conns[now.value].rtsp == (if reached && tcp then Some(id) else v.conns[was.value].rtsp))
  {
    var was := FindSession(v.conns, session);
    if was.Some? {
      SessionMoved(v.conns, session, Some(id));
    } else {
      var r := RtpNew(v, target, session, memory);
      if r.Some? {
        var c := r.value.conns[0];
        assert c.session == Some(session) && c.stream == Some(target) && c.rtsp.None?;
        assert r.value.conns[0 := c.(rtsp := Some(id))][0].session == Some(session);
      }
    }
  }

  lemma {:induction false} SessionMoved(conns: seq<Conn>, session: nat, to: Option<nat>)
    requires FindSession(conns, session).Some?
    ensures var k := FindSession(conns, session).value;
            FindSession(conns[k := conns[k].(rtsp := to)], session) == Some(k)
  {
    if conns[0].session != Some(session) {
      SessionMoved(conns[1..], session, to);
      var k := FindSession(conns, session).value;
      assert conns[k := conns[k].(rtsp := to)][1..] == conns[1..][k - 1 := conns[1..][k - 1].(rtsp := to)];
    }
  }

  /** A stream sent to a group has a connection from the start exactly when there is room and memory, and sends at its turns
      exactly when its input opens. */
  lemma CastSends(v: Server, m: Cast, to: Option<State>, partly: bool)
    requires m.stream < |v.streams|
    ensures var w := Multicast(v, m);
            if v.nb < v.maxConns && m.memory then
              && |w.conns| == |v.conns| + 1 && w.conns[0].stream == Some(m.stream) && w.conns[1..] == v.conns
              && Turned(w, 0, DataSent(to, partly)) == if m.opens then Sent(w, 0, to, partly) else w
            else w == v
  {
    hide Sent;
  }

  // ----- the state as it is updated

  class HttpServer {
    const maxConns: nat
    const maxBandwidth: nat
    var conns: seq<Conn>
    var streams: seq<Stream>
    var nbConnections: int
    var currentBandwidth: int
    var nextId: nat

    ghost function View(): Server
      reads this
    {
      Server(conns, streams, nbConnections, currentBandwidth, maxConns, maxBandwidth, nextId)
    }

    /** The server as the configuration leaves it. */
    constructor (lines: seq<Line>, files: nat -> Option<seq<Track>>, maxConns: nat, maxBandwidth: nat)
      ensures Starts(View()) && streams == StreamsOf(Configured(lines, files))
      ensures this.maxConns == maxConns && this.maxBandwidth == maxBandwidth
    {
      ConfiguredStarts(lines, files);
      streams := StreamsOf(Configured(lines, files));
      this.maxConns, this.maxBandwidth := maxConns, maxBandwidth;
      conns, nbConnections, currentBandwidth, nextId := [], 0, 0, 0;
    }

    method AddConnection(c: Conn)
      modifies this
      ensures View() == Added(old(View()), c)
    {
      conns, nextId := [c.(id := nextId)] + conns, nextId + 1;
      nbConnections := nbConnections + 1;
    }

    method NewConnection(isRtsp: bool, memory: bool)
      modifies this
      ensures View() == Arrived(old(View()), isRtsp, memory)
    {
      if nbConnections >= maxConns || !memory {
        return;
      }
      AddConnection(Conn(0, if isRtsp then RtspWaitRequest else HttpWaitRequest, false, None, 0, false, None, None));
    }

    /** Takes a connection off the list, and clears the references to it. */
    method RemoveConnection(i: nat)
      requires i < |conns|
      modifies `conns
      ensures conns == Without(old(conns), i)
    {
      var c := conns[i];
      ghost var gone := Without(conns, i);
      conns := conns[..i] + conns[i + 1..];
      ghost var rest := conns;
      for j := 0 to |conns|
        invariant |conns| == |rest|
        invariant forall k | 0 <= k < |rest| :: conns[k] == if k < j then gone[k] else rest[k]
      {
        if conns[j].rtsp == Some(c.id) {
          conns := conns[j := conns[j].(rtsp := None)];
        }
      }
    }

    method CloseConnection(i: nat)
      requires i < |conns|
      modifies this
      ensures View() == Closed(old(View()), i)
    {
      hide Without;
      var c := conns[i];
      RemoveConnection(i);
      if c.stream.Some? && c.stream.value < |streams| && !c.post && streams[c.stream.value].kind == Live {
        currentBandwidth := currentBandwidth - streams[c.stream.value].bandwidth;
      }
      if c.state == ReceiveData && c.stream.Some? {
        streams := SetFeed(streams, c.stream.value, false);
      }
      nbConnections := nbConnections - 1;
    }

    method Update(i: nat, c: Conn)
      requires i < |conns|
      modifies `conns
      ensures conns == old(conns)[i := c]
    {
      conns := conns[i := c];
    }

    method HttpParseRequest(i: nat, q: Request) returns (ok: bool)
      requires i < |conns|
      modifies this
      ensures (View(), ok) == Requested(old(View()), i, q)
    {
      if q.Malformed? {
        return false;
      }
      var c := conns[i].(post := q.post);
      if q.target.None? || q.target.value >= |streams| {
        Update(i, c.(error := 404, state := SendHeader));
        return true;
      }
      c := c.(stream := q.target);
      var stream := streams[q.target.value];
      if stream.kind == Redirect {
        Update(i, c.(error := 301, state := SendHeader));
        return true;
      }
      if !c.post && stream.kind == Live {
        currentBandwidth := currentBandwidth + stream.bandwidth;
      }
      if stream.feedOpened {
        Update(i, c.(error := 404, state := SendHeader));
        return true;
      }
      if !c.post && maxBandwidth < currentBandwidth {
        Update(i, c.(error := 503, state := SendHeader));
        return true;
      }
      if q.redirection {
        Update(i, c.(error := if q.hostGiven then 200 else 404, state := SendHeader));
        return true;
      }
      if c.post {
        if !stream.isFeed {
          Update(i, c.(stream := None, error := 404, state := SendHeader));
        } else if stream.readonly || !q.opens {
          Update(i, c.(error := 404, state := SendHeader));
        } else {
          streams := SetFeed(streams, q.target.value, true);
          Update(i, c.(error := 0, state := ReceiveData));
        }
        return true;
      }
      if stream.kind == Status {
        Update(i, c.(error := 200, state := SendHeader));
      } else {
        Update(i, c.(error := if q.opens then 0 else 404, state := SendHeader));
      }
      ok := true;
    }

    /** Wakes the connections that wait for a feed. */
    method Wake(feed: Option<nat>, to: State)
      requires to != WaitFeed
      modifies `conns
      ensures conns == Woken(old(View()), feed, to)
    {
      ghost var woken := Woken(View(), feed, to);
      for j := 0 to |conns|
        invariant |conns| == |woken|
        invariant forall k | 0 <= k < |woken| :: conns[k] == if k < j then woken[k] else old(conns)[k]
      {
        var c := conns[j];
        if c.state == WaitFeed && c.stream.Some? && c.stream.value < |streams| && streams[c.stream.value].feed == feed {
          conns := conns[j := c.(state := to)];
        }
      }
    }

    /** What http_receive_data does, and the closing of the connection after its failure. */
    method HttpReceiveData(i: nat, r: Received)
      requires i < |conns|
      modifies this
      ensures View() == FeedData(old(View()), i, r)
    {
      hide Woken, Closed;
      var c := conns[i];
      if c.state != ReceiveData || c.stream.None? || c.stream.value >= |streams| || r == Nothing {
        return;
      }
      var feed := streams[c.stream.value].feed;
      if r == StoredPage {
        Wake(feed, SendData);
      } else {
        Wake(feed, SendDataTrailer);
        streams := SetFeed(streams, c.stream.value, false);
        CloseConnection(i);
      }
    }

    method RtpNewConnection(s: nat, session: nat, memory: bool) returns (ok: bool)
      requires s < |streams|
      modifies this
      ensures var r := RtpNew(old(View()), s, session, memory);
              ok == r.Some? && View() == if ok then r.value else old(View())
    {
      if nbConnections >= maxConns || !memory {
        return false;
      }
      AddConnection(Conn(0, Ready, false, Some(s), 0, true, Some(session), None));
      currentBandwidth := currentBandwidth + streams[s].bandwidth;
      ok := true;
    }

    method RtspCommand(id: nat, q: RtspRequest)
      modifies this
      ensures View() == Commanded(old(View()), id, q)
    {
      hide FindSession, Closed, RtpNew;
      match q
      case Other =>
      case Setup(target, session, transport, memory, opens, reached, tcp) =>
        if target.None? || target.value >= |streams| {
          return;
        }
        var found := FindSession(conns, session);
        if found.None? && transport {
          var ok := RtpNewConnection(target.value, session, memory);
          if !ok {
            return;
          }
        }
        var at := FindSession(conns, session);
        if at.None? || (found.None? && !opens) || !reached || conns[at.value].stream != target || !tcp {
          return;
        }
        Update(at.value, conns[at.value].(rtsp := Some(id)));
      case Play(session, matches) =>
        var at := if matches then FindSession(conns, session) else None;
        if at.Some? && conns[at.value].state in {SendData, WaitFeed, Ready} {
          Update(at.value, conns[at.value].(state := SendData));
        }
      case Pause(session, matches) =>
        var at := if matches then FindSession(conns, session) else None;
        if at.Some? && conns[at.value].state in {SendData, WaitFeed} {
          Update(at.value, conns[at.value].(state := Ready));
        }
      case Teardown(session, matches) =>
        var at := if matches then FindSession(conns, session) else None;
        if at.Some? {
          CloseConnection(at.value);
        }
    }

    /** Does what an RTSP request asks; without memory for a reply, before or after, the connection closes. */
    method RtspParseRequest(i: nat, q: RtspRequest, a: Answer)
      requires i < |conns|
      modifies this
      ensures View() == RtspRequested(old(View()), i, q, a)
    {
      hide Commanded, Closed;
      if a == NoBuffer {
        CloseConnection(i);
        return;
      }
      var id := conns[i].id;
      RtspCommand(id, q);
      var at := Find(conns, id);
      if at.Some? {
        if a == Lost {
          CloseConnection(at.value);
        } else {
          Update(at.value, conns[at.value].(state := RtspSendReply));
        }
      }
    }

    /** Sending: the RTSP connection of a packet sent in part is locked, and the connection goes on or closes. */
    method HttpSendData(i: nat, to: Option<State>, partly: bool)
      requires i < |conns|
      modifies this
      ensures View() == Sent(old(View()), i, to, partly)
    {
      hide Closed, Find;
      var c := conns[i];
      if partly && c.packetized && c.rtsp.Some? {
        var at := Find(conns, c.rtsp.value);
        if at.Some? && conns[at.value].state == RtspWaitRequest {
          Update(at.value, conns[at.value].(state := RtspSendPacket));
        }
      }
      if to.None? || to.value !in {SendData, WaitFeed} {
        CloseConnection(i);
      } else {
        Update(i, conns[i].(state := to.value));
      }
    }

    /** A connection has its turn. */
    method HandleConnection(i: nat, t: Turn)
      requires i < |conns|
      modifies this
      ensures View() == Turned(old(View()), i, t)
    {
      hide Closed, Requested, FeedData, RtspRequested, Sent;
      if conns[i].state == Ready || t == Quiet {
        return;
      }
      if t == Drop {
        CloseConnection(i);
        return;
      }
      match conns[i].state
      case HttpWaitRequest =>
        if t.HttpRequest? {
          var ok := HttpParseRequest(i, t.q);
          if !ok {
            RefusedUnchanged(old(View()), i, t.q);
            CloseConnection(i);
          }
        }
      case SendHeader =>
        if t.HeaderSent? {
          if conns[i].error != 0 {
            CloseConnection(i);
          } else {
            Update(i, conns[i].(state := SendDataHeader));
          }
        }
      case SendDataHeader => if t.DataSent? { HttpSendData(i, t.to, t.partly); }
      case SendData => if t.DataSent? { HttpSendData(i, t.to, t.partly); }
      case SendDataTrailer => if t.DataSent? { HttpSendData(i, None, t.partly); }
      case ReceiveData => if t.FeederData? { HttpReceiveData(i, t.r); }
      case RtspWaitRequest => if t.RtspCommand? { RtspParseRequest(i, t.command, t.answer); }
      case RtspSendReply => if t.ReplySent? { Update(i, conns[i].(state := RtspWaitRequest)); }
      case RtspSendPacket => if t.ReplySent? { Update(i, conns[i].(state := RtspWaitRequest)); }
      case _ =>
    }

    /** Every connection has its turn, the one after it kept in hand meanwhile; false when that one has been freed. */
    method HandleConnections(turns: nat -> Turn) returns (ok: bool)
      requires Sound(View())
      modifies this
      ensures ok == Walk(old(View()), First(old(conns)), turns).Some?
      ensures ok ==> View() == Walk(old(View()), First(old(conns)), turns).value
    {
      hide Sound, Turned;
      ghost var all := Walk(View(), First(conns), turns);
      var c := First(conns);
      while c.Some?
        invariant Sound(View()) && Walk(View(), c, turns) == all
        decreases if c.None? then 0 else c.value + 1
      {
        var at := Find(conns, c.value);
        if at.None? {
          return false;
        }
        var next := Following(conns, at.value);
        TurnKeeps(View(), at.value, turns(c.value));
        FollowingIsOlder(View(), at.value);
        HandleConnection(at.value, turns(c.value));
        c := next;
      }
      ok := true;
    }

    method StartMulticast(casts: seq<Cast>)
      requires Sound(View())
      modifies this
      ensures Sound(View()) && View() == MulticastAll(old(View()), casts)
    {
      hide Sound, RtpNew;
      for k := 0 to |casts|
        invariant Sound(View()) && View() == MulticastAll(old(View()), casts[..k])
      {
        assert casts[..k + 1][..k] == casts[..k];
        MulticastKeeps(View(), casts[k]);
        if casts[k].stream < |streams| {
          var ok := RtpNewConnection(casts[k].stream, casts[k].session, casts[k].memory);
          if ok && casts[k].opens {
            Update(0, conns[0].(state := SendData));
          }
        }
      }
      assert casts[..|casts|] == casts;
    }

    /** The main loop, as often as it goes round; false when a pass handles a connection that has been freed. */
    method HttpServerLoop(casts: seq<Cast>, rounds: seq<Round>) returns (ok: bool)
      requires Starts(View())
      modifies this
      ensures ok == Served(old(View()), casts, rounds).Some?
      ensures ok ==> Sound(View()) && View() == Served(old(View()), casts, rounds).value
    {
      hide Sound, Walk, Starts;
      StartIsSound(View());
      StartMulticast(casts);
      ghost var v := View();
      for k := 0 to |rounds|
        invariant Sound(v) && v == MulticastAll(old(View()), casts)
        invariant Sound(View()) && Passes(v, rounds[..k]) == Some(View())
      {
        assert rounds[..k + 1][..k] == rounds[..k];
        ok := HandleConnections(rounds[k].turns);
        if !ok {
          FailsOn(v, rounds, k + 1);
          return;
        }
        ArrivedIfKeeps(View(), false, rounds[k].http);
        if rounds[k].http.Some? {
          NewConnection(false, rounds[k].http.value);
        }
        ArrivedIfKeeps(View(), true, rounds[k].rtsp);
        if rounds[k].rtsp.Some? {
          NewConnection(true, rounds[k].rtsp.value);
        }
      }
      assert rounds[..|rounds|] == rounds;
      ok := true;
    }
  }

  lemma RefusedUnchanged(v: Server, i: nat, q: Request)
    requires i < |v.conns|
    ensures var (w, ok) := Requested(v, i, q); !ok ==> w == v
  {
  }

  /** A run that has gone wrong stays so. */
  lemma {:induction false} FailsOn(v: Server, rounds: seq<Round>, k: nat)
    requires Sound(v) && k <= |rounds| && Passes(v, rounds[..k]).None?
    ensures Passes(v, rounds).None?
    decreases |rounds|
  {
    hide Sound, Pass;
    if k < |rounds| {
      assert rounds[..|rounds| - 1][..k] == rounds[..k];
      FailsOn(v, rounds[..|rounds| - 1], k);
    } else {
      assert rounds[..k] == rounds;
    }
  }
}
