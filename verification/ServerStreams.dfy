/** The server's streams: what the configuration makes of them, and the bandwidth each of them weighs. */
module ServerStreams {
  import opened Wrappers

  datatype Kind = Live | Status | Redirect

  datatype Media = Audio | Video | Other

  /** shape stands for channels and sampling rate, or for picture size, frame rate and distance of key frames. */
  datatype Track = Track(media: Media, codec: nat, bitRate: int, shape: nat)

  datatype Format = Format(name: string, audio: Option<nat>, video: Option<nat>)

  /** A stream of the configuration; feed is the id of the feed it comes from, and of itself for a feed. */
  datatype Entry = Entry(id: nat, kind: Kind, fmt: Option<Format>, isFeed: bool, readonly: bool, feed: Option<nat>, tracks: seq<Track>)

  /** A line of the configuration, names looked up; known says that the name of a new section is taken. Codec and Rate stand for whatever sets them. */
  datatype Line =
    | OpenFeed(known: bool) | CloseFeed | ReadOnly
    | OpenStream(known: bool, guess: Option<Format>) | CloseStream
    | UseFeed(feed: nat)
    | SetFormat(name: string, guess: Option<Format>)
    | Codec(audio: bool, codec: Option<nat>)
    | Rate(audio: bool, rate: int, shape: nat)
    | OpenRedirect | CloseRedirect(url: bool)
    | Another(good: bool)

  /** The parser: entries so far, the sections open, the codecs that the stream's end would add, and the errors counted. */
  datatype Parser = Parser(entries: seq<Entry>, stream: Option<nat>, feed: Option<nat>, redirect: Option<nat>,
                           audio: Option<nat>, video: Option<nat>, audioRate: (int, nat), videoRate: (int, nat), errors: nat)

  const Empty: Parser := Parser([], None, None, None, None, None, (0, 0), (0, 0), 0)

  const DEFAULT_RATE: int := 64000

  /** The places of open sections are those of entries of their kind. */
  predicate InOrder(p: Parser) {
    && (p.stream.Some? ==> p.stream.value < |p.entries| && p.entries[p.stream.value].kind != Redirect)
    && (p.feed.Some? ==> p.feed.value < |p.entries| && p.entries[p.feed.value].isFeed)
  }

  function Wrong(p: Parser): Parser {
    p.(errors := p.errors + 1)
  }

  function NewEntry(p: Parser, kind: Kind, fmt: Option<Format>, isFeed: bool): (q: Parser)
    ensures |q.entries| == |p.entries| + 1
  {
    var id := |p.entries|;
    p.(entries := p.entries + [Entry(id, kind, fmt, isFeed, false, if isFeed then Some(id) else None, [])])
  }

  function WithFormat(p: Parser, f: Option<Format>): Parser {
    if f.Some? then p.(audio := f.value.audio, video := f.value.video) else p
  }

  function OneTrack(media: Media, codec: Option<nat>, rate: (int, nat)): seq<Track> {
    if codec.None? then [] else [Track(media, codec.value, if rate.0 == 0 then DEFAULT_RATE else rate.0, rate.1)]
  }

  /** The tracks the end of a stream's section adds: none without a feed or a format, or in the feeds' own format. */
  function TracksAtEnd(p: Parser, e: Entry): seq<Track> {
    if e.feed.Some? && e.fmt.Some? && e.fmt.value.name != "ffm"
      then OneTrack(Audio, p.audio, p.audioRate) + OneTrack(Video, p.video, p.videoRate) else []
  }

  function Parsed(p: Parser, l: Line): (q: Parser)
    requires InOrder(p)
    ensures InOrder(q)
  {
    match l
    case OpenFeed(known) =>
      if p.stream.Some? || p.feed.Some? then Wrong(p)
      else NewEntry(if known then Wrong(p) else p, Live, Some(Format("ffm", None, None)), true).(feed := Some(|p.entries|))
    case CloseFeed => (if p.feed.None? then Wrong(p) else p).(feed := None)
    case ReadOnly =>
      if p.feed.None? then p
      else p.(entries := p.entries[p.feed.value := p.entries[p.feed.value].(readonly := true)])
    case OpenStream(known, guess) =>
      if p.stream.Some? || p.feed.Some? then Wrong(p)
      else
        WithFormat(NewEntry(if known then Wrong(p) else p, Live, guess, false).(stream := Some(|p.entries|), audio := None, video := None,
                                                    audioRate := (0, 0), videoRate := (0, 0)), guess)
    case CloseStream =>
      if p.stream.None? then Wrong(p)
      else
        var e := p.entries[p.stream.value];
        p.(entries := p.entries[p.stream.value := e.(tracks := e.tracks + TracksAtEnd(p, e))], stream := None)
    case UseFeed(feed) =>
      if p.stream.None? then p
      else if feed >= |p.entries| || !p.entries[feed].isFeed then Wrong(p)
      else p.(entries := p.entries[p.stream.value := p.entries[p.stream.value].(feed := Some(p.entries[feed].id))])
    case SetFormat(name, guess) =>
      if p.stream.None? then p
      else
        var e := p.entries[p.stream.value];
        if name == "status" then p.(entries := p.entries[p.stream.value := e.(kind := Status, fmt := None)])
        else
          var q := p.(entries := p.entries[p.stream.value := e.(kind := Live, fmt := guess)]);
          WithFormat(if guess.None? then Wrong(q) else q, guess)
    case Codec(audio, codec) => if audio then p.(audio := codec) else p.(video := codec)
    case Rate(audio, rate, shape) =>
      if audio then p.(audioRate := (rate, shape)) else p.(videoRate := (rate, shape))
    case OpenRedirect =>
      if p.stream.Some? || p.feed.Some? || p.redirect.Some? then Wrong(p)
      else NewEntry(p, Redirect, None, false).(redirect := Some(|p.entries|))
    case CloseRedirect(url) => if p.redirect.None? then Wrong(p) else (if url then p else Wrong(p)).(redirect := None)
    case Another(good) => if good then p else Wrong(p)
  }

  function ParsedAll(lines: seq<Line>): (p: Parser)
    ensures InOrder(p)
  {
    if lines == [] then Empty else Parsed(ParsedAll(lines[..|lines| - 1]), lines[|lines| - 1])
  }

  // ----- the tracks of files and feeds

  /** A live stream that comes from a file has the file's tracks, and goes when it cannot be opened. */
  function FromFile(e: Entry, files: nat -> Option<seq<Track>>): seq<Entry> {
    if e.kind != Live || e.feed.Some? then [e]
    else if files(e.id).None? then []
    else [e.(tracks := e.tracks + files(e.id).value)]
  }

  function FromFiles(entries: seq<Entry>, files: nat -> Option<seq<Track>>): seq<Entry> {
    if entries == [] then []
    else FromFiles(entries[..|entries| - 1], files) + FromFile(entries[|entries| - 1], files)
  }

  /** A feed gets a track only once. */
  function AddTrack(tracks: seq<Track>, t: Track): (r: seq<Track>)
    ensures t in r && forall u | u in tracks :: u in r
  {
    if t in tracks then tracks else tracks + [t]
  }

  function AddTracks(tracks: seq<Track>, more: seq<Track>): (r: seq<Track>)
    ensures forall t | t in tracks || t in more :: t in r
    decreases |more|
  {
    if more == [] then tracks else AddTrack(AddTracks(tracks, more[..|more| - 1]), more[|more| - 1])
  }

  /** A stream's tracks are added to those of the feed it comes from. */
  function FeedFrom(entries: seq<Entry>, e: Entry): (r: seq<Entry>)
    ensures |r| == |entries|
  {
    seq(|entries|, k requires 0 <= k < |entries| =>
      if e.feed == Some(entries[k].id) && !e.isFeed then entries[k].(tracks := AddTracks(entries[k].tracks, e.tracks))
      else entries[k])
  }

  function FeedAll(entries: seq<Entry>, n: nat): (r: seq<Entry>)
    requires n <= |entries|
    ensures |r| == |entries|
  {
    if n == 0 then entries else var r := FeedAll(entries, n - 1); FeedFrom(r, r[n - 1])
  }

  /** The streams the server starts with. */
  function Configured(lines: seq<Line>, files: nat -> Option<seq<Track>>): seq<Entry> {
    var entries := FromFiles(ParsedAll(lines).entries, files);
    FeedAll(entries, |entries|)
  }

  // ----- the bandwidth of a stream

  const WORD: int := 0x1_0000_0000

  /** The sum of the audio and video bit rates. */
  function Rates(tracks: seq<Track>): int {
    if tracks == [] then 0
    else Rates(tracks[..|tracks| - 1]) + if tracks[|tracks| - 1].media == Other then 0 else tracks[|tracks| - 1].bitRate
  }

  /** In thousands of bits, computed in an unsigned word of 32 bits. */
  function Bandwidth(tracks: seq<Track>): (b: nat)
    ensures tracks == [] ==> b == 0
  {
    (Rates(tracks) % WORD + 999) % WORD / 1000
  }

  /** The bandwidth of a stream is enough for it, and by less than a thousand bits too much, exactly when its rates are below
      the word's last thousand values; above, it comes out too small. */
  lemma BandwidthIff(tracks: seq<Track>)
    requires Rates(tracks) >= 0
    ensures Rates(tracks) <= 1000 * Bandwidth(tracks) < Rates(tracks) + 1000 <==> Rates(tracks) <= WORD - 1000
    ensures Rates(tracks) <= 1000 * Bandwidth(tracks) <==> Rates(tracks) <= WORD - 1000
  {
    var n := Rates(tracks);
    hide Rates;
    if n < WORD {
      assert n % WORD == n;
      if n + 999 < WORD {
        assert (n + 999) % WORD == n + 999;
      } else {
        assert (n + 999) % WORD == n + 999 - WORD;
      }
    } else {
      assert n % WORD <= n - WORD;
      assert (n % WORD + 999) % WORD <= n % WORD + 999;
    }
  }

  // ----- streams that are not live weigh nothing

  /** A status stream has no format, nor has a redirection; and only live streams have tracks. */
  ghost predicate OnlyLive(e: Entry) {
    && (e.kind != Live ==> e.fmt == None && e.tracks == [])
    && (e.isFeed ==> e.kind == Live && e.feed == Some(e.id))
  }

  ghost predicate AllOnlyLive(entries: seq<Entry>) {
    forall k | 0 <= k < |entries| :: OnlyLive(entries[k])
  }

  /** A feed that a stream comes from is there, and live; no stream between its opening and its end has tracks yet. */
  ghost predicate Entered(p: Parser) {
    && InOrder(p) && AllOnlyLive(p.entries)
    && (forall k | 0 <= k < |p.entries| :: p.entries[k].id == k)
    && (forall k | 0 <= k < |p.entries| && p.entries[k].feed.Some? ::
          p.entries[k].feed.value < |p.entries| && p.entries[p.entries[k].feed.value].isFeed)
    && (p.stream.Some? ==> !p.entries[p.stream.value].isFeed && p.entries[p.stream.value].tracks == [])
  }

  lemma FieldsEntered(p: Parser, q: Parser)
    requires Entered(p) && InOrder(q) && q.entries == p.entries
    requires q.stream.Some? ==> !q.entries[q.stream.value].isFeed && q.entries[q.stream.value].tracks == []
    ensures Entered(q)
  {
  }

  lemma AddedEntered(p: Parser, kind: Kind, fmt: Option<Format>, isFeed: bool)
    requires Entered(p) && (kind != Live ==> fmt.None? && !isFeed)
    ensures Entered(NewEntry(p, kind, fmt, isFeed))
  {
    var q := NewEntry(p, kind, fmt, isFeed);
    forall k | 0 <= k < |q.entries|
      ensures OnlyLive(q.entries[k])
    {
      assert k < |p.entries| ==> OnlyLive(p.entries[k]);
    }
  }

  lemma ChangedEntered(p: Parser, k: nat, e: Entry)
    requires Entered(p) && k < |p.entries| && e.id == k && e.isFeed == p.entries[k].isFeed && OnlyLive(e)
    requires e.feed.Some? ==> e.feed.value < |p.entries| && p.entries[e.feed.value].isFeed
    requires p.stream == Some(k) ==> e.tracks == [] && e.kind != Redirect
    ensures Entered(p.(entries := p.entries[k := e]))
  {
    var q := p.(entries := p.entries[k := e]);
    forall j | 0 <= j < |q.entries|
      ensures OnlyLive(q.entries[j])
    {
      assert OnlyLive(p.entries[j]);
    }
  }

  lemma EntryIs(p: Parser, k: nat)
    requires Entered(p) && k < |p.entries|
    ensures InOrder(p) && OnlyLive(p.entries[k]) && p.entries[k].id == k
    ensures p.entries[k].feed.Some? ==> p.entries[k].feed.value < |p.entries| && p.entries[p.entries[k].feed.value].isFeed
    ensures p.stream == Some(k) ==> !p.entries[k].isFeed && p.entries[k].tracks == [] && p.entries[k].kind != Redirect
  {
  }

  lemma StreamHere(p: Parser)
    requires Entered(p)
    ensures InOrder(p)
    ensures p.stream.Some? ==>
              && p.stream.value < |p.entries|
              && var e := p.entries[p.stream.value];
                 && OnlyLive(e) && e.id == p.stream.value && !e.isFeed && e.tracks == [] && e.kind != Redirect
                 && (e.feed.Some? ==> e.feed.value < |p.entries| && p.entries[e.feed.value].isFeed)
    ensures p.feed.Some? ==> p.feed.value < |p.entries| && p.entries[p.feed.value].isFeed
  {
    if p.stream.Some? {
      EntryIs(p, p.stream.value);
    }
  }

  lemma FeedSectionKeeps(p: Parser)
    requires Entered(p)
    ensures Entered(Parsed(p, ReadOnly)) && Entered(Parsed(p, CloseFeed))
  {
    hide Entered, TracksAtEnd;
    StreamHere(p);
    FieldsEntered(p, Parsed(p, CloseFeed));
    if p.feed.Some? {
      EntryIs(p, p.feed.value);
      ChangedEntered(p, p.feed.value, p.entries[p.feed.value].(readonly := true));
    }
  }

  lemma StreamSectionKeeps(p: Parser, feed: nat)
    requires Entered(p)
    ensures Entered(Parsed(p, CloseStream)) && Entered(Parsed(p, UseFeed(feed)))
  {
    hide Entered, TracksAtEnd;
    StreamHere(p);
    if p.stream.Some? {
      var e := p.entries[p.stream.value];
      NothingAtEnd(p, e);
      FieldsEntered(p, p.(stream := None));
      ChangedEntered(p.(stream := None), p.stream.value, e.(tracks := e.tracks + TracksAtEnd(p, e)));
    }
    FieldsEntered(p, Wrong(p));
    if p.stream.Some? && feed < |p.entries| && p.entries[feed].isFeed {
      EntryIs(p, feed);
      ChangedEntered(p, p.stream.value, p.entries[p.stream.value].(feed := Some(p.entries[feed].id)));
    }
  }

  lemma SetFormatKeeps(p: Parser, name: string, guess: Option<Format>)
    requires Entered(p)
    ensures Entered(Parsed(p, SetFormat(name, guess)))
  {
    hide Entered, TracksAtEnd;
    StreamHere(p);
    if p.stream.Some? {
      var e := p.entries[p.stream.value];
      ChangedEntered(p, p.stream.value, e.(kind := Status, fmt := None));
      ChangedEntered(p, p.stream.value, e.(kind := Live, fmt := guess));
      FieldsEntered(p.(entries := p.entries[p.stream.value := e.(kind := Live, fmt := guess)]),
                    WithFormat(p.(entries := p.entries[p.stream.value := e.(kind := Live, fmt := guess)]), guess));
      FieldsEntered(p.(entries := p.entries[p.stream.value := e.(kind := Live, fmt := guess)]),
                    Wrong(p.(entries := p.entries[p.stream.value := e.(kind := Live, fmt := guess)])));
    }
  }

  lemma ParsedKeeps(p: Parser, l: Line)
    requires Entered(p)
    ensures Entered(Parsed(p, l))
  {
    hide Entered, TracksAtEnd;
    StreamHere(p);
    match l
    case OpenFeed(_) => AddedEntered(p, Live, Some(Format("ffm", None, None)), true); EntryAdded(p, l);
    case OpenStream(_, guess) => AddedEntered(p, Live, guess, false); EntryAdded(p, l);
    case OpenRedirect => AddedEntered(p, Redirect, None, false); EntryAdded(p, l);
    case ReadOnly => FeedSectionKeeps(p);
    case CloseFeed => FeedSectionKeeps(p);
    case CloseStream => StreamSectionKeeps(p, 0);
    case UseFeed(feed) => StreamSectionKeeps(p, feed);
    case SetFormat(name, guess) => SetFormatKeeps(p, name, guess);
    case _ => FieldsEntered(p, Parsed(p, l));
  }

  /** The section opened is that of the entry added. */
  lemma EntryAdded(p: Parser, l: Line)
    requires Entered(p) && (l.OpenFeed? || l.OpenStream? || l.OpenRedirect?)
    requires match l
             case OpenFeed(_) => Entered(NewEntry(p, Live, Some(Format("ffm", None, None)), true))
             case OpenStream(_, guess) => Entered(NewEntry(p, Live, guess, false))
             case _ => Entered(NewEntry(p, Redirect, None, false))
    ensures Entered(Parsed(p, l))
  {
    var q := Parsed(p, l);
    if p.stream.Some? || p.feed.Some? || (l.OpenRedirect? && p.redirect.Some?) {
      FieldsEntered(p, q);
    } else {
      FieldsEntered(match l
                    case OpenFeed(_) => NewEntry(p, Live, Some(Format("ffm", None, None)), true)
                    case OpenStream(_, guess) => NewEntry(p, Live, guess, false)
                    case _ => NewEntry(p, Redirect, None, false), q);
    }
  }

  lemma NothingAtEnd(p: Parser, e: Entry)
    ensures e.fmt.None? ==> TracksAtEnd(p, e) == []
  {
  }

  lemma {:induction false} ParsedEntered(lines: seq<Line>)
    ensures Entered(ParsedAll(lines))
  {
    if lines != [] {
      ParsedEntered(lines[..|lines| - 1]);
      hide Entered, Parsed;
      ParsedKeeps(ParsedAll(lines[..|lines| - 1]), lines[|lines| - 1]);
    }
  }

  lemma {:induction false} FilesKeep(entries: seq<Entry>, files: nat -> Option<seq<Track>>)
    requires AllOnlyLive(entries)
    ensures AllOnlyLive(FromFiles(entries, files))
  {
    if entries != [] {
      FilesKeep(entries[..|entries| - 1], files);
      assert OnlyLive(entries[|entries| - 1]);
    }
  }

  lemma {:induction false} FeedsKeep(entries: seq<Entry>, n: nat)
    requires n <= |entries| && AllOnlyLive(entries) && FeedsAreFeeds(entries)
    ensures AllOnlyLive(FeedAll(entries, n)) && FeedsAreFeeds(FeedAll(entries, n))
  {
    if n > 0 {
      FeedsKeep(entries, n - 1);
      var r := FeedAll(entries, n - 1);
      FeedKeeps(r, r[n - 1]);
    }
  }

  /** What a stream says it comes from is a feed. */
  ghost predicate FeedsAreFeeds(entries: seq<Entry>) {
    forall j, k | 0 <= j < |entries| && 0 <= k < |entries| && entries[j].feed == Some(entries[k].id) :: entries[k].isFeed
  }

  lemma FeedKeeps(entries: seq<Entry>, e: Entry)
    requires AllOnlyLive(entries) && FeedsAreFeeds(entries) && e in entries
    ensures AllOnlyLive(FeedFrom(entries, e)) && FeedsAreFeeds(FeedFrom(entries, e))
  {
    hide AddTracks;
    var j :| 0 <= j < |entries| && entries[j] == e;
    var r := FeedFrom(entries, e);
    forall k | 0 <= k < |r|
      ensures OnlyLive(r[k])
    {
      assert OnlyLive(entries[k]);
    }
    assert forall k | 0 <= k < |r| :: r[k].id == entries[k].id && r[k].isFeed == entries[k].isFeed && r[k].feed == entries[k].feed;
  }

  ghost predicate Within(some: seq<Entry>, entries: seq<Entry>) {
    forall j | 0 <= j < |some| ::
      exists k :: 0 <= k < |entries| && some[j].id == entries[k].id && some[j].isFeed == entries[k].isFeed && some[j].feed == entries[k].feed
  }

  lemma {:induction false} FilesWithin(entries: seq<Entry>, files: nat -> Option<seq<Track>>)
    ensures Within(FromFiles(entries, files), entries)
  {
    if entries != [] {
      var n := |entries| - 1;
      FilesWithin(entries[..n], files);
      var r, most := FromFiles(entries, files), FromFiles(entries[..n], files);
      forall j | 0 <= j < |r|
        ensures exists k :: 0 <= k < |entries| && r[j].id == entries[k].id && r[j].isFeed == entries[k].isFeed && r[j].feed == entries[k].feed
      {
        if j < |most| {
          var k :| 0 <= k < n && most[j].id == entries[..n][k].id && most[j].isFeed == entries[..n][k].isFeed
                   && most[j].feed == entries[..n][k].feed;
          assert entries[..n][k] == entries[k];
        } else {
          assert r[j].id == entries[n].id && r[j].isFeed == entries[n].isFeed && r[j].feed == entries[n].feed;
        }
      }
    }
  }

  lemma FeedsRemain(p: Parser, some: seq<Entry>)
    requires Entered(p) && Within(some, p.entries)
    ensures FeedsAreFeeds(some)
  {
    forall j, k | 0 <= j < |some| && 0 <= k < |some| && some[j].feed == Some(some[k].id)
      ensures some[k].isFeed
    {
      var a :| 0 <= a < |p.entries| && some[j].id == p.entries[a].id && some[j].isFeed == p.entries[a].isFeed
               && some[j].feed == p.entries[a].feed;
      var b :| 0 <= b < |p.entries| && some[k].id == p.entries[b].id && some[k].isFeed == p.entries[b].isFeed
               && some[k].feed == p.entries[b].feed;
      assert p.entries[b].id == b;
    }
  }

  /** Whatever the configuration and the files: a status page or redirection has no tracks, and so no bandwidth. */
  lemma NotLiveWeighsNothing(lines: seq<Line>, files: nat -> Option<seq<Track>>, k: nat)
    requires k < |Configured(lines, files)| && Configured(lines, files)[k].kind != Live
    ensures Configured(lines, files)[k].tracks == [] && Bandwidth(Configured(lines, files)[k].tracks) == 0
  {
    hide FeedAll, FromFiles, ParsedAll, Bandwidth;
    var p := ParsedAll(lines);
    ParsedEntered(lines);
    FilesKeep(p.entries, files);
    FilesWithin(p.entries, files);
    var entries := FromFiles(p.entries, files);
    FeedsRemain(p, entries);
    FeedsKeep(entries, |entries|);
    assert OnlyLive(Configured(lines, files)[k]);
    assert Bandwidth([]) == 0;
  }

  // ----- what a stream needs, its feed has

  lemma {:induction false} FeedKept(entries: seq<Entry>, n: nat, m: nat, k: nat)
    requires n <= m <= |entries| && k < |entries|
    ensures forall t | t in FeedAll(entries, n)[k].tracks :: t in FeedAll(entries, m)[k].tracks
    ensures FeedAll(entries, m)[k].id == entries[k].id && FeedAll(entries, m)[k].isFeed == entries[k].isFeed
    ensures FeedAll(entries, m)[k].feed == entries[k].feed
    ensures !entries[k].isFeed && FeedsAreFeeds(entries) ==> FeedAll(entries, m)[k] == entries[k]
    decreases m
  {
    hide AddTracks, FeedsAreFeeds, FeedAll;
    FeedAllStep(entries, m);
    if m > 0 {
      if n < m {
        FeedKept(entries, n, m - 1, k);
      } else {
        FeedKept(entries, m - 1, m - 1, k);
      }
      var r := FeedAll(entries, m - 1);
      FeedKept(entries, m - 1, m - 1, m - 1);
      if FeedsAreFeeds(entries) {
        NotFedInto(entries, m - 1, k);
      }
    }
  }

  lemma FeedAllStep(entries: seq<Entry>, n: nat)
    requires n <= |entries|
    ensures n == 0 ==> FeedAll(entries, n) == entries
    ensures n > 0 ==> FeedAll(entries, n) == FeedFrom(FeedAll(entries, n - 1), FeedAll(entries, n - 1)[n - 1])
  {
    hide FeedFrom;
  }

  lemma NotFedInto(entries: seq<Entry>, j: nat, k: nat)
    requires FeedsAreFeeds(entries) && j < |entries| && k < |entries|
    ensures !entries[k].isFeed ==> entries[j].feed != Some(entries[k].id)
  {
  }

  lemma {:induction false} FilesOrdered(entries: seq<Entry>, files: nat -> Option<seq<Track>>)
    requires forall k | 0 <= k < |entries| :: entries[k].id == k
    ensures forall k | 0 <= k < |FromFiles(entries, files)| :: FromFiles(entries, files)[k].id < |entries|
    ensures forall j, k | 0 <= j < k < |FromFiles(entries, files)| :: FromFiles(entries, files)[j].id < FromFiles(entries, files)[k].id
  {
    if entries != [] {
      FilesOrdered(entries[..|entries| - 1], files);
    }
  }

  lemma FedHere(entries: seq<Entry>, j: nat, k: nat, t: Track)
    requires j < |entries| && k < |entries| && FeedsAreFeeds(entries) && !entries[j].isFeed
    requires entries[j].feed == Some(entries[k].id) && t in entries[j].tracks
    ensures t in FeedAll(entries, j + 1)[k].tracks
  {
    hide AddTracks, FeedsAreFeeds;
    FeedKept(entries, j, j, j);
    FeedKept(entries, j, j, k);
    var r := FeedAll(entries, j);
    assert FeedAll(entries, j + 1) == FeedFrom(r, r[j]);
  }

  /** Every track of a stream that comes from a feed is among the feed's own. */
  lemma FeedHasTracks(lines: seq<Line>, files: nat -> Option<seq<Track>>, j: nat, k: nat, t: Track)
    requires j < |Configured(lines, files)| && k < |Configured(lines, files)|
    requires Configured(lines, files)[j].feed == Some(Configured(lines, files)[k].id)
    requires t in Configured(lines, files)[j].tracks
    ensures t in Configured(lines, files)[k].tracks
  {
    hide FeedAll, FromFiles, ParsedAll, FeedsAreFeeds;
    var p := ParsedAll(lines);
    ParsedEntered(lines);
    FilesKeep(p.entries, files);
    FilesWithin(p.entries, files);
    FilesOrdered(p.entries, files);
    var entries := FromFiles(p.entries, files);
    FeedsRemain(p, entries);
    FeedKept(entries, |entries|, |entries|, j);
    FeedKept(entries, |entries|, |entries|, k);
    if entries[j].isFeed {
      assert OnlyLive(entries[j]);
      assert j == k;
    } else {
      FedHere(entries, j, k, t);
      FeedKept(entries, j + 1, |entries|, k);
    }
  }

  // ----- what a configuration says is what is read of it

  /** A codec with its bit rate, zero when none is given. */
  datatype Coding = Coding(codec: Option<nat>, rate: int, shape: nat)

  /** A section of the configuration, as its author means it. */
  datatype Section =
    | FeedSection(readonly: bool)
    | StreamSection(feed: Option<nat>, fmt: Format, audio: Coding, video: Coding)
    | StatusSection
    | RedirectSection

  /** The lines of a section. */
  function Lines(s: Section): seq<Line> {
    match s
    case FeedSection(readonly) => [OpenFeed(false)] + (if readonly then [ReadOnly] else []) + [CloseFeed]
    case StreamSection(feed, fmt, audio, video) =>
      [OpenStream(false, None)] + (if feed.Some? then [UseFeed(feed.value)] else [])
        + [SetFormat(fmt.name, Some(fmt)), Codec(true, audio.codec), Codec(false, video.codec),
           Rate(true, audio.rate, audio.shape), Rate(false, video.rate, video.shape), CloseStream]
    case StatusSection => [OpenStream(false, None), SetFormat("status", None), CloseStream]
    case RedirectSection => [OpenRedirect, CloseRedirect(true)]
  }

  function AllLines(sections: seq<Section>): seq<Line> {
    if sections == [] then [] else AllLines(sections[..|sections| - 1]) + Lines(sections[|sections| - 1])
  }

  function RateOf(c: Coding): int {
    if c.codec.None? then 0 else if c.rate == 0 then 64000 else c.rate
  }

  function TrackOf(media: Media, c: Coding): seq<Track> {
    if c.codec.None? then [] else [Track(media, c.codec.value, RateOf(c), c.shape)]
  }

  /** The stream meant by a section that is the one after k others. */
  function Meant(s: Section, k: nat): Entry {
    match s
    case FeedSection(readonly) => Entry(k, Live, Some(Format("ffm", None, None)), true, readonly, Some(k), [])
    case StreamSection(feed, fmt, audio, video) =>
      Entry(k, Live, Some(fmt), false, false, feed,
            if feed.Some? && fmt.name != "ffm" then TrackOf(Audio, audio) + TrackOf(Video, video) else [])
    case StatusSection => Entry(k, Status, None, false, false, None, [])
    case RedirectSection => Entry(k, Redirect, None, false, false, None, [])
  }

  function AllMeant(sections: seq<Section>): (e: seq<Entry>)
    ensures |e| == |sections|
  {
    if sections == [] then []
    else var n := |sections| - 1; AllMeant(sections[..n]) + [Meant(sections[n], n)]
  }

  /** A stream's feed has its section before it, and no format is called status. */
  ghost predicate SectionOk(s: Section, before: seq<Entry>) {
    s.StreamSection? ==>
      && s.fmt.name != "status"
      && (s.feed.Some? ==> s.feed.value < |before| && before[s.feed.value].isFeed && before[s.feed.value].id == s.feed.value)
  }

  ghost predicate SectionsOk(sections: seq<Section>) {
    forall n | 0 <= n < |sections| :: SectionOk(sections[n], AllMeant(sections[..n]))
  }

  /** The parser from any state on. */
  function ParsedOn(p: Parser, lines: seq<Line>): (q: Parser)
    requires InOrder(p)
    ensures InOrder(q)
    decreases |lines|
  {
    if lines == [] then p else ParsedOn(Parsed(p, lines[0]), lines[1..])
  }

  lemma {:induction false} ParsedJoin(a: seq<Line>, b: seq<Line>)
    ensures ParsedAll(a + b) == ParsedOn(ParsedAll(a), b)
    decreases |b|
  {
    hide Parsed;
    if b == [] {
      assert a + b == a;
    } else {
      assert a + b == (a + [b[0]]) + b[1..];
      ParsedJoin(a + [b[0]], b[1..]);
      assert (a + [b[0]])[..|a|] == a;
    }
  }

  lemma ParsedFirst(p: Parser, l: Line, lines: seq<Line>)
    requires InOrder(p)
    ensures ParsedOn(p, [l] + lines) == ParsedOn(Parsed(p, l), lines)
    ensures ParsedOn(p, []) == p
  {
    hide Parsed;
    assert ([l] + lines)[1..] == lines;
  }

  /** No section is open. */
  ghost predicate Between(p: Parser) {
    InOrder(p) && p.stream.None? && p.feed.None? && p.redirect.None?
  }

  /** These entries have been read, without an error, and no section is open. */
  ghost predicate ReadSoFar(p: Parser, entries: seq<Entry>) {
    Between(p) && p.entries == entries && p.errors == 0
  }

  lemma FeedRead(p: Parser, s: Section)
    requires Between(p) && s.FeedSection? && p.errors == 0
    ensures ReadSoFar(ParsedOn(p, Lines(s)), p.entries + [Meant(s, |p.entries|)])
  {
    hide ParsedOn;
    var rest := (if s.readonly then [ReadOnly] else []) + [CloseFeed];
    assert Lines(s) == [OpenFeed(false)] + rest;
    ParsedFirst(p, OpenFeed(false), rest);
    var q := Parsed(p, OpenFeed(false));
    if s.readonly {
      ParsedFirst(q, ReadOnly, [CloseFeed]);
      q := Parsed(q, ReadOnly);
    } else {
      assert rest == [CloseFeed];
    }
    assert q.entries == p.entries + [Meant(s, |p.entries|)];
    ParsedFirst(q, CloseFeed, []);
    assert [CloseFeed] + [] == [CloseFeed];
    ParsedFirst(Parsed(q, CloseFeed), CloseFeed, []);
  }

  lemma StatusRead(p: Parser)
    requires Between(p) && p.errors == 0
    ensures ReadSoFar(ParsedOn(p, Lines(StatusSection)), p.entries + [Meant(StatusSection, |p.entries|)])
  {
    hide ParsedOn, Parsed;
    var k := |p.entries|;
    var a, b, c := OpenStream(false, None), SetFormat("status", None), CloseStream;
    var q1 := Parsed(p, a);
    var q2 := Parsed(q1, b);
    var q3 := Parsed(q2, c);
    assert Lines(StatusSection) == [a] + ([b] + ([c] + []));
    ParsedFirst(p, a, [b] + ([c] + []));
    ParsedFirst(q1, b, [c] + []);
    ParsedFirst(q2, c, []);
    ParsedFirst(q3, c, []);
    StreamBegun(p);
    StatusBegun(q1);
    TracklessEnd(q2);
  }

  lemma StreamBegun(p: Parser)
    requires Between(p) && p.errors == 0
    ensures var q := Parsed(p, OpenStream(false, None));
            && q.entries == p.entries + [Entry(|p.entries|, Live, None, false, false, None, [])]
            && q.stream == Some(|p.entries|) && q.feed.None? && q.redirect.None? && q.errors == 0
  {
  }

  lemma StatusBegun(p: Parser)
    requires InOrder(p) && p.stream.Some?
    ensures var e := p.entries[p.stream.value];
            Parsed(p, SetFormat("status", None)) == p.(entries := p.entries[p.stream.value := e.(kind := Status, fmt := None)])
  {
  }

  lemma TracklessEnd(p: Parser)
    requires InOrder(p) && p.stream.Some? && p.entries[p.stream.value].fmt.None? && p.entries[p.stream.value].tracks == []
    ensures Parsed(p, CloseStream) == p.(stream := None)
  {
    var e := p.entries[p.stream.value];
    NothingAtEnd(p, e);
    assert e.(tracks := e.tracks + []) == e;
    assert p.entries[p.stream.value := e] == p.entries;
  }

  lemma RedirectRead(p: Parser)
    requires Between(p) && p.errors == 0
    ensures ReadSoFar(ParsedOn(p, Lines(RedirectSection)), p.entries + [Meant(RedirectSection, |p.entries|)])
  {
    hide ParsedOn;
    var a, b := OpenRedirect, CloseRedirect(true);
    assert Lines(RedirectSection) == [a] + ([b] + []);
    ParsedFirst(p, a, [b] + []);
    ParsedFirst(Parsed(p, a), b, []);
    ParsedFirst(Parsed(Parsed(p, a), b), b, []);
  }

  /** The stream whose section is open, after its feed and format lines. */
  lemma StreamOpened(p: Parser, s: Section, rest: seq<Line>) returns (q: Parser)
    requires Between(p) && s.StreamSection? && p.errors == 0 && SectionOk(s, p.entries)
    ensures InOrder(q) && q.stream == Some(|p.entries|) && q.feed.None? && q.redirect.None? && q.errors == 0
    ensures q.entries == p.entries + [Meant(s, |p.entries|).(tracks := [])]
    ensures ParsedOn(p, [OpenStream(false, None)] + ((if s.feed.Some? then [UseFeed(s.feed.value)] else [])
                                                     + ([SetFormat(s.fmt.name, Some(s.fmt))] + rest))) == ParsedOn(q, rest)
  {
    hide ParsedOn;
    var k := |p.entries|;
    var last := [SetFormat(s.fmt.name, Some(s.fmt))] + rest;
    var more := (if s.feed.Some? then [UseFeed(s.feed.value)] else []) + last;
    ParsedFirst(p, OpenStream(false, None), more);
    q := Parsed(p, OpenStream(false, None));
    assert q.entries == p.entries + [Entry(k, Live, None, false, false, None, [])] && q.stream == Some(k);
    if s.feed.Some? {
      ParsedFirst(q, UseFeed(s.feed.value), last);
      q := Parsed(q, UseFeed(s.feed.value));
    } else {
      assert more == last;
    }
    assert q.entries == p.entries + [Entry(k, Live, None, false, false, s.feed, [])] && q.stream == Some(k);
    ParsedFirst(q, SetFormat(s.fmt.name, Some(s.fmt)), rest);
    q := Parsed(q, SetFormat(s.fmt.name, Some(s.fmt)));
  }

  /** The codecs and rates of an open section, and its end. */
  lemma StreamClosed(p: Parser, audio: Coding, video: Coding)
    requires InOrder(p) && p.stream.Some? && p.feed.None? && p.redirect.None? && p.errors == 0
    ensures var e := p.entries[p.stream.value];
            var tracks := if e.feed.Some? && e.fmt.Some? && e.fmt.value.name != "ffm"
                          then TrackOf(Audio, audio) + TrackOf(Video, video) else [];
            ReadSoFar(ParsedOn(p, [Codec(true, audio.codec)] + ([Codec(false, video.codec)]
                        + ([Rate(true, audio.rate, audio.shape)] + ([Rate(false, video.rate, video.shape)] + ([CloseStream] + []))))),
                      p.entries[p.stream.value := e.(tracks := e.tracks + tracks)])
  {
    hide ParsedOn;
    var a, b := Codec(true, audio.codec), Codec(false, video.codec);
    var c, d := Rate(true, audio.rate, audio.shape), Rate(false, video.rate, video.shape);
    var q := p;
    ParsedFirst(q, a, [b] + ([c] + ([d] + ([CloseStream] + []))));
    q := Parsed(q, a);
    ParsedFirst(q, b, [c] + ([d] + ([CloseStream] + [])));
    q := Parsed(q, b);
    ParsedFirst(q, c, [d] + ([CloseStream] + []));
    q := Parsed(q, c);
    ParsedFirst(q, d, [CloseStream] + []);
    q := Parsed(q, d);
    ParsedFirst(q, CloseStream, []);
    ParsedFirst(Parsed(q, CloseStream), CloseStream, []);
  }

  lemma StreamRead(p: Parser, s: Section)
    requires Between(p) && s.StreamSection? && p.errors == 0 && SectionOk(s, p.entries)
    ensures ReadSoFar(ParsedOn(p, Lines(s)), p.entries + [Meant(s, |p.entries|)])
  {
    hide ParsedOn, Parsed, TrackOf;
    var a, b := Codec(true, s.audio.codec), Codec(false, s.video.codec);
    var c, d := Rate(true, s.audio.rate, s.audio.shape), Rate(false, s.video.rate, s.video.shape);
    var rest := [a] + ([b] + ([c] + ([d] + ([CloseStream] + []))));
    assert Lines(s) == [OpenStream(false, None)] + ((if s.feed.Some? then [UseFeed(s.feed.value)] else [])
                                                    + ([SetFormat(s.fmt.name, Some(s.fmt))] + rest));
    var q := StreamOpened(p, s, rest);
    StreamClosed(q, s.audio, s.video);
    var k := |p.entries|;
    var tracks := Meant(s, k).tracks;
    assert [] + tracks == tracks;
    assert q.entries[k := Meant(s, k)] == p.entries + [Meant(s, k)];
  }

  /** Whatever feeds, streams, status pages and redirections a configuration's author means, in any order that has a feed's
      section before those of its streams: they are what is read of its lines, without an error. */
  lemma {:induction false} ConfigurationRead(sections: seq<Section>)
    requires SectionsOk(sections)
    ensures ReadSoFar(ParsedAll(AllLines(sections)), AllMeant(sections))
  {
    hide Lines, ParsedAll, ParsedOn, Meant, SectionOk;
    if sections == [] {
      NothingRead();
    } else {
      var n := |sections| - 1;
      SectionsBefore(sections, n);
      ConfigurationRead(sections[..n]);
      var s, p := sections[n], ParsedAll(AllLines(sections[..n]));
      ParsedJoin(AllLines(sections[..n]), Lines(s));
      if s.FeedSection? {
        FeedRead(p, s);
      } else if s.StreamSection? {
        StreamRead(p, s);
      } else if s.StatusSection? {
        StatusRead(p);
      } else {
        RedirectRead(p);
      }
    }
  }

  lemma NothingRead()
    ensures ReadSoFar(ParsedAll([]), [])
  {
  }

  lemma SectionsBefore(sections: seq<Section>, n: nat)
    requires SectionsOk(sections) && n < |sections|
    ensures SectionsOk(sections[..n]) && SectionOk(sections[n], AllMeant(sections[..n]))
  {
    hide SectionOk, AllMeant;
    forall k | 0 <= k < n
      ensures SectionOk(sections[..n][k], AllMeant(sections[..n][..k]))
    {
      assert sections[..n][..k] == sections[..k];
      assert SectionOk(sections[k], AllMeant(sections[..k]));
    }
  }

  /** The rates of a stream that comes from a feed are those its section gives for audio and video together. */
  lemma SectionRates(s: Section, k: nat)
    requires s.StreamSection? && s.feed.Some? && s.fmt.name != "ffm"
    ensures Rates(Meant(s, k).tracks) == RateOf(s.audio) + RateOf(s.video)
  {
    var a, v := TrackOf(Audio, s.audio), TrackOf(Video, s.video);
    assert Rates([]) == 0;
    assert Rates(a) == RateOf(s.audio) by { assert |a| == 1 ==> a[..0] == []; }
    if v == [] {
      assert a + v == a;
    } else {
      assert (a + v)[..|a|] == a;
    }
  }

  // ----- the state as it is updated

  class Configuration {
    var parser: Parser
    var entries: seq<Entry>

    constructor ()
      ensures parser == Empty && entries == []
    {
      parser, entries := Empty, [];
    }

    /** Reads the configuration; it is refused when there is an error in it. */
    method ParseConfig(lines: seq<Line>) returns (ok: bool)
      requires parser == Empty
      modifies this
      ensures parser == ParsedAll(lines) && entries == parser.entries && ok == (parser.errors == 0)
    {
      hide Parsed;
      for k := 0 to |lines|
        invariant parser == ParsedAll(lines[..k])
      {
        assert lines[..k + 1][..k] == lines[..k];
        parser := Parsed(parser, lines[k]);
      }
      assert lines[..|lines|] == lines;
      entries, ok := parser.entries, parser.errors == 0;
    }

    method BuildFileStreams(files: nat -> Option<seq<Track>>)
      modifies `entries
      ensures entries == FromFiles(old(entries), files)
    {
      var all := entries;
      entries := [];
      for k := 0 to |all|
        invariant entries == FromFiles(all[..k], files)
      {
        assert all[..k + 1][..k] == all[..k];
        var e := all[k];
        if e.kind == Live && e.feed.None? {
          var tracks := files(e.id);
          if tracks.Some? {
            entries := entries + [e.(tracks := e.tracks + tracks.value)];
          }
        } else {
          entries := entries + [e];
        }
      }
      assert all[..|all|] == all;
    }

    method BuildFeedStreams()
      modifies `entries
      ensures entries == FeedAll(old(entries), |old(entries)|)
    {
      ghost var all := entries;
      for n := 0 to |entries|
        invariant |entries| == |all| && entries == FeedAll(all, n)
      {
        var e := entries[n];
        ghost var before := entries;
        for k := 0 to |entries|
          invariant |entries| == |before|
          invariant forall j | 0 <= j < |before| :: entries[j] == if j < k then FeedFrom(before, e)[j] else before[j]
        {
          if !e.isFeed && e.feed == Some(entries[k].id) {
            entries := entries[k := entries[k].(tracks := AddTracks(entries[k].tracks, e.tracks))];
          }
        }
        assert entries == FeedFrom(before, e);
      }
    }

    /** The bandwidth of every stream. */
    method ComputeBandwidth() returns (weights: seq<nat>)
      ensures |weights| == |entries| && forall k | 0 <= k < |entries| :: weights[k] == Bandwidth(entries[k].tracks)
    {
      weights := [];
      for k := 0 to |entries|
        invariant |weights| == k && forall j | 0 <= j < k :: weights[j] == Bandwidth(entries[j].tracks)
      {
        var tracks := entries[k].tracks;
        var bandwidth := 0;
        for i := 0 to |tracks|
          invariant bandwidth == Rates(tracks[..i]) % WORD
        {
          assert tracks[..i + 1][..i] == tracks[..i];
          if tracks[i].media != Other {
            WordSum(Rates(tracks[..i]), tracks[i].bitRate);
            bandwidth := (bandwidth + tracks[i].bitRate % WORD) % WORD;
          }
        }
        assert tracks[..|tracks|] == tracks;
        weights := weights + [(bandwidth + 999) % WORD / 1000];
      }
    }
  }

  lemma WordSum(a: int, b: int)
    ensures (a % WORD + b % WORD) % WORD == (a + b) % WORD
  {
  }
}
