/** A feeder's chunked stream, as it is received into the pages of the feed. */
module FeedReceiver {
  import opened FeedRing

  // ----- a feeder's stream, in chunks

  const CR: int := 13
  const LF: int := 10
  const CRLF: Bytes := [13, 10]
  const MARK: Bytes := [0x66, 0x6d]

  function HexDigit(c: int): (d: int)
    ensures d < 16
  {
    if 0x30 <= c <= 0x39 then c - 0x30
    else if 0x41 <= c <= 0x46 then c - 0x37
    else if 0x61 <= c <= 0x66 then c - 0x57
    else -1
  }

  predicate IsSpace(c: int) {
    9 <= c <= 13 || c == 32
  }

  function SkipSpace(b: Bytes): Bytes {
    if b != [] && IsSpace(b[0]) then SkipSpace(b[1..]) else b
  }

  /** The number that hexadecimal digits spell, as far as they go. */
  function HexValue(b: Bytes, n: nat): nat {
    if b != [] && HexDigit(b[0]) >= 0 then HexValue(b[1..], n * 16 + HexDigit(b[0])) else n
  }

  function SkipPrefix(b: Bytes): Bytes {
    if |b| >= 3 && b[0] == 0x30 && b[1] in {0x58, 0x78} && HexDigit(b[2]) >= 0 then b[2..] else b
  }

  const LONG: int := 0x8000_0000_0000_0000

  /** The chunk size at the start of the buffer: a long number, saturated, and cut to an int. */
  function ChunkSize(b: Bytes): int {
    var s := SkipSpace(b);
    var negative := s != [] && s[0] == 0x2d;
    var n: int := HexValue(SkipPrefix(if s != [] && s[0] in {0x2b, 0x2d} then s[1..] else s), 0);
    Cut(if negative then (if n > LONG then -LONG else -n) else if n >= LONG then LONG - 1 else n)
  }

  /** A long number cut to an int. */
  function Cut(long: int): int {
    var word := long % 0x1_0000_0000;
    if word >= 0x8000_0000 then word - 0x1_0000_0000 else word
  }

  /** How writing a page goes, and whether the header page is that of the feed. */
  datatype Disk = Works | PageFails | IndexFails
  datatype Setting = Setting(headerGood: bool, disk: Disk)

  /** A connection that feeds: its memory, how much of the page is there, what is left of the chunk, and the data so far; or
      one that has ended; or one whose next reading is not bounded by the page, as the size of its chunk is negative. */
  datatype Feeder =
    | Gone(feed: Feed)
    | Unbounded(feed: Feed)
    | Feeding(mem: Bytes, ptr: nat, chunk: nat, count: nat, feed: Feed)

  ghost predicate Fit(s: Feeder) {
    s.Feeding? ==> s.ptr < PAGE <= |s.mem| && s.feed.index >= PAGE
  }

  /** After data has come: a page that does not begin with the mark ends the connection, and a full one is stored, but for the
      first, which is the header. */
  function Checked(mem: Bytes, ptr: nat, chunk: nat, count: nat, feed: Feed, e: Setting): (s: Feeder)
    requires ptr <= PAGE <= |mem| && feed.index >= PAGE
    ensures Fit(s)
  {
    if ptr >= 2 && count > PAGE && mem[..2] != MARK then Gone(feed)
    else if ptr < PAGE then Feeding(mem, ptr, chunk, count, feed)
    else if count <= PAGE then if e.headerGood then Feeding(mem, 0, chunk, count, feed) else Gone(feed)
    else
      match e.disk
      case PageFails => Gone(feed)
      case IndexFails => Gone(Store(feed, mem[..PAGE]).(file := WriteAt(feed.file, feed.index, mem[..PAGE])))
      case Works => StoreStays(feed, mem[..PAGE]); Feeding(mem, 0, chunk, count, Store(feed, mem[..PAGE]))
  }

  predicate LineEnds(s: Feeder, b: int)
    requires s.Feeding? && s.ptr <= |s.mem|
  {
    s.ptr >= 2 && s.mem[s.ptr - 1] == CR && b == LF
  }

  /** A byte while no chunk is under way: it goes where the page's next byte would, until a line ends. */
  function LineByte(s: Feeder, b: int, e: Setting): (r: Feeder)
    requires Fit(s) && s.Feeding?
    ensures Fit(r)
  {
    var mem := s.mem[s.ptr := b];
    if LineEnds(s, b) then
      var n := ChunkSize(mem);
      if n == 0 then Gone(s.feed) else if n < 0 then Unbounded(s.feed) else Feeding(mem, 0, n, s.count, s.feed)
    else if s.ptr + 1 < PAGE then Feeding(mem, s.ptr + 1, 0, s.count, s.feed)
    else Checked(mem, PAGE, 0, s.count, s.feed, e)
  }

  function Placed(mem: Bytes, ptr: nat, piece: Bytes): (r: Bytes)
    requires ptr + |piece| <= |mem|
    ensures |r| == |mem| && r[..ptr + |piece|] == mem[..ptr] + piece
  {
    mem[..ptr] + piece + mem[ptr + |piece|..]
  }

  /** A piece of a chunk. */
  function DataPiece(s: Feeder, piece: Bytes, e: Setting): (r: Feeder)
    requires Fit(s) && s.Feeding? && |piece| <= s.chunk && |piece| <= PAGE - s.ptr
    ensures Fit(r)
  {
    Checked(Placed(s.mem, s.ptr, piece), s.ptr + |piece|, s.chunk - |piece|, s.count + |piece|, s.feed, e)
  }

  function TakeByte(s: Feeder, b: int, e: Setting): (r: Feeder)
    requires Fit(s)
    ensures Fit(r)
  {
    if !s.Feeding? then s else if s.chunk == 0 then LineByte(s, b, e) else DataPiece(s, [b], e)
  }

  /** The stream taken a byte at a time. */
  function TakeAll(s: Feeder, bytes: Bytes, e: Setting): (r: Feeder)
    requires Fit(s)
    ensures Fit(r)
  {
    if bytes == [] then s else TakeByte(TakeAll(s, bytes[..|bytes| - 1], e), bytes[|bytes| - 1], e)
  }

  // ----- as it comes

  function Least(a: nat, b: nat): nat {
    if a < b then a else b
  }

  /** What one reading of the socket takes of a chunk; with nothing there, the connection has ended or there is nothing yet. */
  function ReadData(s: Feeder, avail: Bytes, ended: bool, e: Setting): (r: (Feeder, nat))
    requires Fit(s) && s.Feeding?
    ensures Fit(r.0) && r.1 <= |avail|
  {
    if avail == [] && ended then (Gone(s.feed), 0)
    else var n := Least(|avail|, Least(s.chunk, PAGE - s.ptr)); (DataPiece(s, avail[..n], e), n)
  }

  /** One handling of a feeding connection: a chunk's line is read first, at most ten bytes of it without a line end, and then
      data once. It also says how many of the bytes there it has taken. */
  function Call(s: Feeder, avail: Bytes, ended: bool, run: nat, e: Setting): (r: (Feeder, nat))
    requires Fit(s)
    ensures Fit(r.0) && r.1 <= |avail|
    decreases |avail|
  {
    if !s.Feeding? then (s, 0)
    else if s.chunk > 0 then ReadData(s, avail, ended, e)
    else if avail == [] then (if ended then Gone(s.feed) else s, 0)
    else if run >= 10 && !LineEnds(s, avail[0]) then (Gone(s.feed), 1)
    else
      var t := LineByte(s, avail[0], e);
      if !t.Feeding? then (t, 1)
      else if t.chunk > 0 then var (u, n) := ReadData(t, avail[1..], ended, e); (u, n + 1)
      else if s.ptr + 1 == PAGE then (t, 1)
      else var (u, n) := Call(t, avail[1..], ended, run + 1, e); (u, n + 1)
  }

  /** Handlings as bytes arrive, and what is then still unread. */
  function Calls(s: Feeder, unread: Bytes, arrivals: seq<Bytes>, e: Setting): (r: (Feeder, Bytes))
    requires Fit(s)
    ensures Fit(r.0)
    decreases |arrivals|
  {
    if arrivals == [] then (s, unread)
    else if unread + arrivals[0] == [] then Calls(s, [], arrivals[1..], e)
    else
      var (t, n) := Call(s, unread + arrivals[0], false, 0, e);
      Calls(t, (unread + arrivals[0])[n..], arrivals[1..], e)
  }

  // ----- bytes or pieces: it is the same

  lemma TakeMore(s: Feeder, a: Bytes, b: int, e: Setting)
    requires Fit(s)
    ensures TakeAll(s, a + [b], e) == TakeByte(TakeAll(s, a, e), b, e)
    ensures TakeAll(s, [], e) == s
  {
    hide TakeByte;
    assert (a + [b])[..|a|] == a;
  }

  lemma {:induction false} TakeJoin(s: Feeder, a: Bytes, b: Bytes, e: Setting)
    requires Fit(s)
    ensures TakeAll(s, a + b, e) == TakeAll(TakeAll(s, a, e), b, e)
    decreases |b|
  {
    hide TakeByte;
    if b == [] {
      assert a + b == a;
    } else {
      var n := |b| - 1;
      TakeJoin(s, a, b[..n], e);
      TakeMore(s, a + b[..n], b[n], e);
      TakeMore(TakeAll(s, a, e), b[..n], b[n], e);
      assert a + b == (a + b[..n]) + [b[n]] && b == b[..n] + [b[n]];
    }
  }

  lemma {:induction false} EndStays(s: Feeder, bytes: Bytes, e: Setting)
    requires !s.Feeding?
    ensures TakeAll(s, bytes, e) == s
  {
    if bytes != [] {
      EndStays(s, bytes[..|bytes| - 1], e);
    }
  }

  lemma OneByte(s: Feeder, b: int, e: Setting)
    requires Fit(s)
    ensures TakeAll(s, [b], e) == TakeByte(s, b, e)
  {
    hide TakeByte;
    TakeMore(s, [], b, e);
    assert [] + [b] == [b];
  }

  lemma PieceMore(s: Feeder, p: Bytes, b: int, e: Setting)
    requires Fit(s) && s.Feeding? && |p| + 1 <= s.chunk && |p| + 1 <= PAGE - s.ptr && p != []
    ensures DataPiece(s, p + [b], e) == TakeByte(DataPiece(s, p, e), b, e)
  {
    hide Store, MARK;
    var q := s.ptr + |p|;
    var m1, m2 := Placed(s.mem, s.ptr, p), Placed(s.mem, s.ptr, p + [b]);
    assert m2 == Placed(m1, q, [b]);
    if q >= 2 {
      assert m2[..2] == m1[..2];
    }
  }

  /** A piece taken at once is as good as its bytes one by one. */
  lemma {:induction false} PieceIsBytes(s: Feeder, p: Bytes, e: Setting)
    requires Fit(s) && s.Feeding? && 1 <= |p| <= s.chunk && |p| <= PAGE - s.ptr
    ensures DataPiece(s, p, e) == TakeAll(s, p, e)
  {
    hide DataPiece, TakeByte;
    var n := |p| - 1;
    if n == 0 {
      OneByte(s, p[0], e);
      assert p == [p[0]];
      DataIsByte(s, p[0], e);
    } else {
      PieceIsBytes(s, p[..n], e);
      PieceMore(s, p[..n], p[n], e);
      TakeMore(s, p[..n], p[n], e);
      assert p == p[..n] + [p[n]];
    }
  }

  lemma DataIsByte(s: Feeder, b: int, e: Setting)
    requires Fit(s) && s.Feeding? && s.chunk > 0
    ensures TakeByte(s, b, e) == DataPiece(s, [b], e)
  {
  }

  /** At most ten bytes of a chunk's line come before the one that ends it. */
  ghost predicate Short(s: Feeder, b: int)
    requires Fit(s)
  {
    s.Feeding? && s.chunk == 0 ==> s.ptr <= 10 && (s.ptr == 10 ==> LineEnds(s, b))
  }

  ghost predicate ShortLines(s: Feeder, bytes: Bytes, e: Setting)
    requires Fit(s)
  {
    forall k | 0 <= k < |bytes| :: Short(TakeAll(s, bytes[..k], e), bytes[k])
  }

  lemma ShortAfter(s: Feeder, bytes: Bytes, n: nat, e: Setting)
    requires Fit(s) && ShortLines(s, bytes, e) && n <= |bytes|
    ensures ShortLines(TakeAll(s, bytes[..n], e), bytes[n..], e) && ShortLines(s, bytes[..n], e)
  {
    hide TakeAll, Short;
    var t := TakeAll(s, bytes[..n], e);
    forall k | 0 <= k < |bytes| - n
      ensures Short(TakeAll(t, bytes[n..][..k], e), bytes[n..][k])
    {
      TakeJoin(s, bytes[..n], bytes[n..][..k], e);
      assert bytes[..n] + bytes[n..][..k] == bytes[..n + k];
      assert Short(TakeAll(s, bytes[..n + k], e), bytes[n + k]);
    }
    forall k | 0 <= k < n
      ensures Short(TakeAll(s, bytes[..n][..k], e), bytes[..n][k])
    {
      assert bytes[..n][..k] == bytes[..k];
      assert Short(TakeAll(s, bytes[..k], e), bytes[k]);
    }
  }

  lemma DataTaken(s: Feeder, avail: Bytes, e: Setting)
    requires Fit(s) && s.Feeding? && s.chunk > 0 && (avail != [] || s.ptr < 2)
    ensures var (t, n) := ReadData(s, avail, false, e); t == TakeAll(s, avail[..n], e) && (avail != [] ==> n > 0)
  {
    hide DataPiece, TakeAll;
    var n := Least(|avail|, Least(s.chunk, PAGE - s.ptr));
    if n > 0 {
      PieceIsBytes(s, avail[..n], e);
    } else {
      assert avail[..0] == [];
      NothingTaken(s, e);
    }
  }

  lemma NothingTaken(s: Feeder, e: Setting)
    requires Fit(s)
    ensures TakeAll(s, [], e) == s
    ensures s.Feeding? && s.ptr < 2 ==> DataPiece(s, [], e) == s
  {
    if s.Feeding? {
      assert Placed(s.mem, s.ptr, []) == s.mem;
    }
  }

  /** One handling takes what is there byte by byte, if the lines are short. */
  lemma {:induction false} CallIsBytes(s: Feeder, avail: Bytes, run: nat, e: Setting)
    requires Fit(s) && ShortLines(s, avail, e) && (s.Feeding? && s.chunk == 0 ==> run <= s.ptr)
    requires avail != [] || !s.Feeding? || s.chunk == 0
    ensures var (t, n) := Call(s, avail, false, run, e);
            t == TakeAll(s, avail[..n], e) && (s.Feeding? && avail != [] ==> n > 0)
    decreases |avail|
  {
    hide TakeAll, LineByte, ReadData, ShortLines, LineEnds;
    assert avail[..0] == [];
    NothingTaken(s, e);
    if s.Feeding? && s.chunk > 0 {
      DataTaken(s, avail, e);
    } else if s.Feeding? && avail != [] {
      ShortHere(s, avail, e);
      LineByteTaken(s, avail[0], e);
      var t := LineByte(s, avail[0], e);
      assert avail[..1] == [avail[0]];
      ShortAfter(s, avail, 1, e);
      if t.Feeding? {
        if t.chunk > 0 {
          DataTaken(t, avail[1..], e);
          var n := ReadData(t, avail[1..], false, e).1;
          TakeJoin(s, avail[..1], avail[1..][..n], e);
          assert avail[..n + 1] == avail[..1] + avail[1..][..n];
        } else {
          CallIsBytes(t, avail[1..], run + 1, e);
          var n := Call(t, avail[1..], false, run + 1, e).1;
          TakeJoin(s, avail[..1], avail[1..][..n], e);
          assert avail[..n + 1] == avail[..1] + avail[1..][..n];
        }
      }
    }
  }

  lemma ShortHere(s: Feeder, avail: Bytes, e: Setting)
    requires Fit(s) && ShortLines(s, avail, e) && avail != [] && s.Feeding? && s.chunk == 0
    ensures Short(s, avail[0])
  {
    assert avail[..0] == [];
    NothingTaken(s, e);
  }

  lemma LineByteTaken(s: Feeder, b: int, e: Setting)
    requires Fit(s) && s.Feeding? && s.chunk == 0 && s.ptr <= 10
    ensures TakeAll(s, [b], e) == LineByte(s, b, e)
    ensures var t := LineByte(s, b, e); t.Feeding? ==> if t.chunk > 0 then t.ptr == 0 else t.ptr == s.ptr + 1
    ensures LineEnds(s, b) ==> var t := LineByte(s, b, e); t.Feeding? ==> t.chunk > 0
    ensures s.ptr + 1 != PAGE
  {
    hide ChunkSize;
    OneByte(s, b, e);
  }

  /** Unread bytes are the end of what came, and the rest has been taken. */
  ghost predicate TakenBut(s: Feeder, all: Bytes, rest: Bytes, t: Feeder, e: Setting)
    requires Fit(s)
  {
    |rest| <= |all| && rest == all[|all| - |rest|..] && t == TakeAll(s, all[..|all| - |rest|], e)
  }

  lemma TakenFurther(s: Feeder, p: Bytes, more: Bytes, n: nat, rest: Bytes, u: Feeder, e: Setting)
    requires Fit(s) && n <= |p| && TakenBut(TakeAll(s, p[..n], e), p[n..] + more, rest, u, e)
    ensures TakenBut(s, p + more, rest, u, e)
  {
    hide TakeAll;
    var all, tail := p + more, p[n..] + more;
    var m := |tail| - |rest|;
    TakeJoin(s, p[..n], tail[..m], e);
    assert p[..n] + tail[..m] == all[..n + m];
    assert tail[m..] == all[n + m..];
  }

  lemma ShortFurther(s: Feeder, p: Bytes, more: Bytes, n: nat, e: Setting)
    requires Fit(s) && n <= |p| && ShortLines(s, p + more, e)
    ensures ShortLines(s, p, e) && ShortLines(TakeAll(s, p[..n], e), p[n..] + more, e)
  {
    hide TakeAll, ShortLines;
    var all := p + more;
    ShortAfter(s, all, |p|, e);
    ShortAfter(s, all, n, e);
    assert all[..|p|] == p && all[..n] == p[..n] && all[n..] == p[n..] + more;
  }

  /** However the stream arrives, it is taken byte by byte, as far as it has been read. */
  lemma {:induction false} CallsAreBytes(s: Feeder, unread: Bytes, arrivals: seq<Bytes>, e: Setting)
    requires Fit(s) && ShortLines(s, unread + Joined(arrivals), e)
    ensures TakenBut(s, unread + Joined(arrivals), Calls(s, unread, arrivals, e).1, Calls(s, unread, arrivals, e).0, e)
    decreases |arrivals|
  {
    hide TakeAll, Call, ShortLines, TakenBut;
    if arrivals == [] {
      NoneTaken(s, unread, e);
      assert unread + Joined(arrivals) == unread;
    } else {
      var p, more := unread + arrivals[0], Joined(arrivals[1..]);
      assert unread + Joined(arrivals) == p + more;
      if p == [] {
        assert p + more == [] + more;
        CallsAreBytes(s, [], arrivals[1..], e);
      } else {
        var (t, n) := Call(s, p, false, 0, e);
        ShortFurther(s, p, more, n, e);
        CallIsBytes(s, p, 0, e);
        CallsAreBytes(t, p[n..], arrivals[1..], e);
        var (u, rest) := Calls(t, p[n..], arrivals[1..], e);
        TakenFurther(s, p, more, n, rest, u, e);
      }
    }
  }

  lemma NoneTaken(s: Feeder, unread: Bytes, e: Setting)
    requires Fit(s)
    ensures TakenBut(s, unread, unread, s, e)
  {
    assert unread[..0] == [];
    NothingTaken(s, e);
  }

  function Joined(pieces: seq<Bytes>): Bytes {
    if pieces == [] then [] else pieces[0] + Joined(pieces[1..])
  }

  lemma Filled(a: nat, b: nat)
    requires b <= PAGE - a % PAGE
    ensures (a + b) % PAGE == if a % PAGE + b < PAGE then a % PAGE + b else 0
  {
    var k := a / PAGE;
    assert a + b == k * PAGE + (a % PAGE + b);
  }

  /** The pages of a stream but the first. */
  function DataPages(s: Bytes): (pages: seq<Bytes>)
    ensures AllPages(pages)
  {
    seq(if |s| / PAGE > 0 then |s| / PAGE - 1 else 0,
        i requires 0 <= i < |s| / PAGE - 1 => s[(i + 1) * PAGE..(i + 2) * PAGE])
  }

  /** Page k, if two bytes of it are there, begins with the mark. */
  predicate Marked(s: Bytes, k: nat) {
    k * PAGE + 2 <= |s| ==> s[k * PAGE..k * PAGE + 2] == MARK
  }

  ghost predicate InSync(s: Bytes) {
    forall k | 1 <= k <= |s| / PAGE :: Marked(s, k)
  }

  lemma DataPagesGrow(s: Bytes, p: Bytes)
    requires |p| <= PAGE - |s| % PAGE
    ensures |s| % PAGE + |p| < PAGE ==> DataPages(s + p) == DataPages(s)
    ensures |s| % PAGE + |p| == PAGE && |s + p| > PAGE ==>
              DataPages(s + p) == DataPages(s) + [s[|s| - |s| % PAGE..] + p]
    ensures |s + p| <= PAGE ==> DataPages(s + p) == DataPages(s) == []
  {
    var t := s + p;
    var m := |s| / PAGE;
    assert |s| == m * PAGE + |s| % PAGE;
    forall i | 0 <= i < m - 1
      ensures DataPages(t)[i] == DataPages(s)[i]
    {
      assert t[(i + 1) * PAGE..(i + 2) * PAGE] == s[(i + 1) * PAGE..(i + 2) * PAGE];
    }
    if |s| % PAGE + |p| == PAGE && |t| > PAGE {
      assert |t| == (m + 1) * PAGE;
      assert t[m * PAGE..(m + 1) * PAGE] == s[m * PAGE..] + p;
    }
  }

  lemma InSyncGrows(s: Bytes, p: Bytes)
    requires |p| <= PAGE - |s| % PAGE
    ensures var buffer := s[|s| - |s| % PAGE..] + p;
            InSync(s + p) <==> InSync(s) && (|s + p| > PAGE && |buffer| >= 2 ==> buffer[..2] == MARK)
  {
    var t, m := s + p, |s| / PAGE;
    var buffer := s[m * PAGE..] + p;
    assert |s| == m * PAGE + |s| % PAGE;
    assert t[m * PAGE..] == buffer;
    forall k | 1 <= k < m
      ensures Marked(t, k) <==> Marked(s, k)
    {
      assert t[k * PAGE..k * PAGE + 2] == s[k * PAGE..k * PAGE + 2];
    }
    assert Marked(t, m) <==> (|buffer| >= 2 ==> buffer[..2] == MARK) by {
      if |buffer| >= 2 {
        assert t[m * PAGE..m * PAGE + 2] == buffer[..2];
      }
    }
    assert |buffer| >= 2 ==> (Marked(t, m) ==> Marked(s, m)) by {
      if |s| >= m * PAGE + 2 {
        assert t[m * PAGE..m * PAGE + 2] == s[m * PAGE..m * PAGE + 2];
      }
    }
    assert Marked(t, m + 1);
    if InSync(t) {
      forall k | 1 <= k <= m
        ensures Marked(s, k)
      {
        assert Marked(t, k);
      }
      if |t| > PAGE {
        assert m >= 1 ==> Marked(t, m);
      }
    }
    if InSync(s) {
      assert m >= 1 ==> Marked(s, m);
    }
  }

  lemma NothingYet()
    ensures InSync([]) && DataPages([]) == []
  {
  }

  // ----- what the feed holds

  /** The part of the stream that does not make a whole page yet. */
  function Tail(t: Bytes): (r: Bytes)
    ensures |r| == |t| % PAGE
  {
    t[|t| - |t| % PAGE..]
  }

  /** The connection feeds on exactly when the data so far is in step and its header page matches; and then its pages after
      the header have been stored in order, and the buffer has what follows them. */
  ghost predicate Holds(f: Feed, t: Bytes, chunk: nat, s: Feeder, e: Setting)
    requires f.index >= PAGE
  {
    && Fit(s) && !s.Unbounded?
    && (s.Feeding? <==> InSync(t) && (|t| >= PAGE ==> e.headerGood))
    && (s.Feeding? ==>
          && s.chunk == chunk && s.count == |t| && s.feed == StoreAll(f, DataPages(t))
          && s.ptr == |t| % PAGE && s.mem[..s.ptr] == Tail(t))
  }

  /** The outcome of a byte of data, from the buffer it completes. */
  lemma ByteChecked(s: Feeder, b: int, e: Setting)
    requires Fit(s) && s.Feeding? && s.chunk > 0 && e.disk == Works
    ensures !TakeByte(s, b, e).Unbounded?
    ensures var buffer, r := s.mem[..s.ptr] + [b], TakeByte(s, b, e);
            if |buffer| >= 2 && s.count + 1 > PAGE && buffer[..2] != MARK then r.Gone?
            else if |buffer| < PAGE then
              r.Feeding? && r.ptr == |buffer| && r.mem[..r.ptr] == buffer && r.chunk == s.chunk - 1 && r.count == s.count + 1
              && r.feed == s.feed
            else if s.count + 1 <= PAGE then
              (r.Feeding? <==> e.headerGood)
              && (r.Feeding? ==> r.ptr == 0 && r.chunk == s.chunk - 1 && r.count == s.count + 1 && r.feed == s.feed)
            else
              r.Feeding? && r.ptr == 0 && r.chunk == s.chunk - 1 && r.count == s.count + 1 && r.feed == Store(s.feed, buffer)
  {
    hide Store, MARK;
    var buffer, mem := s.mem[..s.ptr] + [b], Placed(s.mem, s.ptr, [b]);
    assert mem[..s.ptr + 1] == buffer;
    if |buffer| >= 2 {
      assert mem[..2] == buffer[..2];
    }
    if |buffer| == PAGE {
      assert mem[..PAGE] == buffer;
    }
  }

  lemma TailMore(t: Bytes, b: int)
    ensures var buffer, u := Tail(t) + [b], t + [b];
            |buffer| <= PAGE && Tail(u) == (if |buffer| < PAGE then buffer else [])
  {
    Filled(|t|, 1);
    var buffer, u := Tail(t) + [b], t + [b];
    assert buffer == u[|u| - |buffer|..];
  }

  /** What another byte of data makes of the pages stored. */
  lemma StoredMore(f: Feed, t: Bytes, b: int)
    requires f.index >= PAGE
    ensures var buffer, u := Tail(t) + [b], t + [b];
            && |buffer| <= PAGE
            && StoreAll(f, DataPages(u)) ==
               (if |buffer| < PAGE || |u| <= PAGE then StoreAll(f, DataPages(t)) else Store(StoreAll(f, DataPages(t)), buffer))
  {
    hide StoreAll, DataPages, Store, Tail;
    TailMore(t, b);
    DataPagesGrow(t, [b]);
    var buffer, u := Tail(t) + [b], t + [b];
    TailIs(t);
    if |buffer| == PAGE && |u| > PAGE {
      var pages := DataPages(t);
      assert (pages + [buffer])[..|pages|] == pages;
      UnfoldStoreAll(f, pages + [buffer]);
    }
  }

  lemma TailIs(t: Bytes)
    ensures Tail(t) == t[|t| - |t| % PAGE..]
  {
  }

  lemma SyncMore(t: Bytes, b: int)
    ensures var buffer := Tail(t) + [b];
            InSync(t + [b]) <==> InSync(t) && (|t| + 1 > PAGE && |buffer| >= 2 ==> buffer[..2] == MARK)
  {
    hide InSync, MARK;
    InSyncGrows(t, [b]);
  }

  lemma ByteHolds(f: Feed, t: Bytes, chunk: nat, s: Feeder, b: int, e: Setting)
    requires f.index >= PAGE && chunk > 0 && Holds(f, t, chunk, s, e) && e.disk == Works
    ensures Holds(f, t + [b], chunk - 1, TakeByte(s, b, e), e)
  {
    hide StoreAll, DataPages, InSync, Store, MARK, TakeByte, Tail;
    SyncMore(t, b);
    if s.Feeding? {
      ByteChecked(s, b, e);
      TailMore(t, b);
      StoredMore(f, t, b);
      Filled(|t|, 1);
    } else {
      EndByte(s, b, e);
    }
  }

  lemma EndByte(s: Feeder, b: int, e: Setting)
    requires !s.Feeding?
    ensures TakeByte(s, b, e) == s
  {
  }

  /** Data within a chunk. */
  lemma {:induction false} DataHolds(f: Feed, t: Bytes, chunk: nat, s: Feeder, d: Bytes, e: Setting)
    requires f.index >= PAGE && |d| <= chunk && Holds(f, t, chunk, s, e) && e.disk == Works
    ensures Holds(f, t + d, chunk - |d|, TakeAll(s, d, e), e)
    ensures forall k | 0 <= k < |d| :: var r := TakeAll(s, d[..k], e); r.Feeding? ==> r.chunk > 0
    decreases |d|
  {
    hide Holds, TakeByte;
    if d == [] {
      assert t + d == t;
    } else {
      var n := |d| - 1;
      ChunkLeft(f, t, chunk, s, e);
      DataHolds(f, t, chunk, s, d[..n], e);
      ByteHolds(f, t + d[..n], chunk - n, TakeAll(s, d[..n], e), d[n], e);
      assert t + d[..n] + [d[n]] == t + d;
      ChunkLeft(f, t + d[..n], chunk - n, TakeAll(s, d[..n], e), e);
      forall k | 0 <= k < |d|
        ensures var r := TakeAll(s, d[..k], e); r.Feeding? ==> r.chunk > 0
      {
        if k < n {
          assert d[..n][..k] == d[..k];
        }
      }
    }
  }

  lemma ChunkLeft(f: Feed, t: Bytes, chunk: nat, s: Feeder, e: Setting)
    requires f.index >= PAGE && Holds(f, t, chunk, s, e)
    ensures Fit(s) && (s.Feeding? ==> s.chunk == chunk)
  {
  }

  // ----- chunks

  /** A chunk: the digits of its size, and its data. */
  datatype Chunk = Chunk(size: Bytes, data: Bytes)

  ghost predicate ChunkOk(c: Chunk) {
    && 1 <= |c.size| <= 7 && (forall k | 0 <= k < |c.size| :: HexDigit(c.size[k]) >= 0)
    && HexValue(c.size, 0) == |c.data| > 0
  }

  /** The line before a chunk's data; all but the first chunk's begins by ending the line of the chunk before. */
  function Line(c: Chunk, first: bool): Bytes {
    (if first then [] else CRLF) + c.size + CRLF
  }

  function Encode(chunks: seq<Chunk>): Bytes {
    if chunks == [] then []
    else
      var n := |chunks| - 1;
      Encode(chunks[..n]) + (Line(chunks[n], n == 0) + chunks[n].data)
  }

  function Payload(chunks: seq<Chunk>): Bytes {
    if chunks == [] then [] else Payload(chunks[..|chunks| - 1]) + chunks[|chunks| - 1].data
  }

  lemma {:induction false} HexStops(size: Bytes, rest: Bytes, n: nat)
    requires (forall k | 0 <= k < |size| :: HexDigit(size[k]) >= 0) && rest != [] && HexDigit(rest[0]) < 0
    ensures HexValue(size + rest, n) == HexValue(size, n)
    decreases |size|
  {
    if size == [] {
      assert size + rest == rest;
    } else {
      HexStops(size[1..], rest, n * 16 + HexDigit(size[0]));
      assert (size + rest)[1..] == size[1..] + rest;
    }
  }

  lemma {:induction false} HexBound(size: Bytes, n: nat, m: nat)
    requires (forall k | 0 <= k < |size| :: HexDigit(size[k]) >= 0) && n < Sixteens(m)
    ensures HexValue(size, n) < Sixteens(m + |size|)
    decreases |size|
  {
    if size != [] {
      HexBound(size[1..], n * 16 + HexDigit(size[0]), m + 1);
    }
  }

  function Sixteens(n: nat): nat {
    if n == 0 then 1 else 16 * Sixteens(n - 1)
  }

  lemma SpaceSkipped(x: int, b: Bytes)
    ensures IsSpace(x) ==> SkipSpace([x] + b) == SkipSpace(b)
    ensures b != [] && HexDigit(b[0]) >= 0 ==> SkipSpace(b) == b
  {
    assert ([x] + b)[1..] == b;
  }

  lemma LineSkipped(b: Bytes, first: bool)
    requires b != [] && HexDigit(b[0]) >= 0
    ensures SkipSpace((if first then [] else CRLF) + b) == b
  {
    hide SkipSpace, HexDigit;
    SpaceSkipped(LF, b);
    SpaceSkipped(CR, [LF] + b);
    if first {
      assert [] + b == b;
    } else {
      assert CRLF + b == [CR] + ([LF] + b);
    }
  }

  /** Digits are not taken for the start of a prefix. */
  lemma NoPrefix(size: Bytes, rest: Bytes)
    requires size != [] && (forall k | 0 <= k < |size| :: HexDigit(size[k]) >= 0) && |rest| >= 2 && rest[0] == CR
    ensures SkipPrefix(size + rest) == size + rest
  {
    assert (size + rest)[1] == if |size| == 1 then CR else size[1];
  }

  /** A size whose line is short enough to be read at once. */
  ghost predicate LineOk(c: Chunk, first: bool) {
    1 <= |c.size| <= (if first then 9 else 7) && forall k | 0 <= k < |c.size| :: HexDigit(c.size[k]) >= 0
  }

  /** The size in a chunk's line is read whatever stands behind the line in the buffer, and is cut to an int. */
  lemma SizeRead(c: Chunk, first: bool, stale: Bytes)
    requires LineOk(c, first)
    ensures ChunkSize(Line(c, first) + stale) == Cut(HexValue(c.size, 0))
    ensures |c.size| <= 7 ==> HexValue(c.size, 0) < 0x1000_0000
  {
    hide HexValue, SkipSpace, SkipPrefix;
    var rest := CRLF + stale;
    var b := c.size + rest;
    assert b[0] == c.size[0];
    assert Line(c, first) + stale == (if first then [] else CRLF) + b;
    LineSkipped(b, first);
    NoPrefix(c.size, rest);
    HexStops(c.size, rest, 0);
    SixteensGrow(|c.size|);
    HexBound(c.size, 0, 0);
  }

  // ----- sizes as they are written

  datatype Sign = NoSign | Plus | Minus

  function SignText(sign: Sign): Bytes {
    match sign case NoSign => [] case Plus => [0x2b] case Minus => [0x2d]
  }

  /** n in hexadecimal, with small letters. */
  function Hex(n: nat): (b: Bytes)
    ensures b != [] && forall k | 0 <= k < |b| :: HexDigit(b[k]) >= 0
  {
    (if n < 16 then [] else Hex(n / 16)) + [if n % 16 < 10 then 0x30 + n % 16 else 0x57 + n % 16]
  }

  lemma {:induction false} HexMore(b: Bytes, x: int, n: nat)
    requires (forall k | 0 <= k < |b| :: HexDigit(b[k]) >= 0) && HexDigit(x) >= 0
    ensures HexValue(b + [x], n) == HexValue(b, n) * 16 + HexDigit(x)
    decreases |b|
  {
    hide HexDigit;
    if b == [] {
      assert b + [x] == [x] && [x][1..] == [];
    } else {
      HexMore(b[1..], x, n * 16 + HexDigit(b[0]));
      assert (b + [x])[1..] == b[1..] + [x];
    }
  }

  lemma {:induction false} HexBack(n: nat)
    ensures HexValue(Hex(n), 0) == n
  {
    var x := if n % 16 < 10 then 0x30 + n % 16 else 0x57 + n % 16;
    assert HexDigit(x) == n % 16;
    if n < 16 {
      assert Hex(n) == [] + [x];
      HexMore([], x, 0);
    } else {
      HexBack(n / 16);
      HexMore(Hex(n / 16), x, 0);
    }
  }

  lemma {:induction false} SpacesSkipped(spaces: Bytes, b: Bytes)
    requires (forall k | 0 <= k < |spaces| :: IsSpace(spaces[k])) && b != [] && !IsSpace(b[0])
    ensures SkipSpace(spaces + b) == b
  {
    if spaces == [] {
      assert spaces + b == b;
    } else {
      SpacesSkipped(spaces[1..], b);
      assert (spaces + b)[1..] == spaces[1..] + b;
    }
  }

  /** A size in hexadecimal, after any white space, with or without sign and prefix, is read as the number written, bounded as
      a long is, and then cut to an int. */
  lemma SizeBack(spaces: Bytes, sign: Sign, prefix: bool, n: nat, stale: Bytes)
    requires forall k | 0 <= k < |spaces| :: IsSpace(spaces[k])
    ensures ChunkSize(spaces + (SignText(sign) + ((if prefix then [0x30, 0x78] else []) + (Hex(n) + (CRLF + stale))))) ==
            Cut(if sign.Minus? then if n > LONG then -LONG else -(n as int) else if n >= LONG then LONG - 1 else n)
  {
    hide HexValue, SkipSpace, SkipPrefix, Hex, Cut;
    var digits := Hex(n) + (CRLF + stale);
    var number := (if prefix then [0x30, 0x78] else []) + digits;
    assert HexDigit(Hex(n)[0]) >= 0 && digits[0] == Hex(n)[0];
    var s := SignText(sign) + number;
    assert s[0] == if sign.NoSign? then number[0] else SignText(sign)[0];
    SpacesSkipped(spaces, s);
    assert (if s[0] in {0x2b, 0x2d} then s[1..] else s) == number by {
      assert sign.NoSign? ==> s == number;
      assert !sign.NoSign? ==> s[1..] == number;
    }
    PrefixSkipped(n, prefix, stale);
    HexStops(Hex(n), CRLF + stale, 0);
    HexBack(n);
  }

  lemma PrefixSkipped(n: nat, prefix: bool, stale: Bytes)
    ensures var digits := Hex(n) + (CRLF + stale);
            SkipPrefix((if prefix then [0x30, 0x78] else []) + digits) == digits
  {
    hide Hex;
    var digits := Hex(n) + (CRLF + stale);
    assert digits[0] == Hex(n)[0] && HexDigit(Hex(n)[0]) >= 0;
    if prefix {
      assert ([0x30, 0x78] + digits)[2..] == digits;
    } else {
      assert [] + digits == digits;
      NoPrefix(Hex(n), CRLF + stale);
    }
  }

  lemma SixteensGrow(n: nat)
    requires n <= 9
    ensures Sixteens(n) <= 0x10_0000_0000 && (n <= 7 ==> Sixteens(n) <= 0x1000_0000) && Sixteens(0) == 1
  {
    assert Sixteens(1) == 16 && Sixteens(2) == 256 && Sixteens(3) == 0x1000;
    assert Sixteens(4) == 0x1_0000 && Sixteens(5) == 0x10_0000;
    assert Sixteens(6) == 0x100_0000 && Sixteens(7) == 0x1000_0000;
    assert Sixteens(8) == 0x1_0000_0000 && Sixteens(9) == 0x10_0000_0000;
  }

  /** A line begun: its bytes stand at the start of the buffer. */
  ghost predicate LineBegun(s: Feeder, line: Bytes, j: nat, r: Feeder)
    requires s.Feeding? && j <= |line| <= |s.mem|
  {
    r.Feeding? && |r.mem| == |s.mem| && r.ptr == j && r.chunk == 0 && r.count == s.count && r.feed == s.feed
    && r.mem == line[..j] + s.mem[j..]
  }

  lemma LineLength(c: Chunk, first: bool)
    requires LineOk(c, first)
    ensures 3 <= |Line(c, first)| <= 11
  {
  }

  /** Line ends stand only at the start of a line, where they are not seen, and at its end. */
  lemma LineEndsOnce(c: Chunk, first: bool, j: nat)
    requires LineOk(c, first) && j < |Line(c, first)|
    ensures j >= 2 && j + 1 < |Line(c, first)| ==> Line(c, first)[j] != LF
    ensures j + 1 == |Line(c, first)| ==> Line(c, first)[j] == LF && Line(c, first)[j - 1] == CR
  {
    var line, pre: Bytes := Line(c, first), if first then [] else CRLF;
    assert |line| == |pre| + |c.size| + 2;
    if j >= 2 && |pre| <= j < |pre| + |c.size| {
      assert line[j] == c.size[j - |pre|];
    }
  }

  lemma {:induction false} LineTakes(s: Feeder, c: Chunk, first: bool, j: nat, e: Setting)
    requires Fit(s) && s.Feeding? && s.chunk == 0 && s.ptr == 0 && LineOk(c, first) && j < |Line(c, first)| <= 11
    ensures LineBegun(s, Line(c, first), j, TakeAll(s, Line(c, first)[..j], e))
  {
    hide TakeAll, LineOk, ChunkSize, Line;
    var line := Line(c, first);
    if j == 0 {
      NothingTaken(s, e);
      assert line[..0] == [] && line[..0] + s.mem[0..] == s.mem;
    } else {
      LineTakes(s, c, first, j - 1, e);
      LineEndsOnce(c, first, j - 1);
      TakeMore(s, line[..j - 1], line[j - 1], e);
      assert line[..j - 1] + [line[j - 1]] == line[..j];
      var r := TakeAll(s, line[..j - 1], e);
      assert r.mem[j - 1 := line[j - 1]] == line[..j] + s.mem[j..];
    }
  }

  /** What a line with a size comes to, at the start of a page, by the lower 32 bits of the number written: none ends the
      feeding, and with the top one set the next reading is not bounded by the page; any other is the size of the chunk. */
  lemma SizeLine(s: Feeder, c: Chunk, first: bool, e: Setting)
    requires Fit(s) && s.Feeding? && s.chunk == 0 && s.ptr == 0 && LineOk(c, first)
    ensures var r, n := TakeAll(s, Line(c, first), e), HexValue(c.size, 0) % 0x1_0000_0000;
            && (r.Gone? <==> n == 0) && (r.Unbounded? <==> n >= 0x8000_0000)
            && (r.Feeding? ==> r.ptr == 0 && r.chunk == n && r.count == s.count && r.feed == s.feed)
    ensures ShortLines(s, Line(c, first), e)
    ensures |c.size| <= 7 ==> HexValue(c.size, 0) < 0x1000_0000
  {
    hide TakeAll, ChunkSize, Line, HexValue, LineOk;
    var line := Line(c, first);
    var n := |line| - 1;
    LineLength(c, first);
    forall k | 0 <= k < |line|
      ensures Short(TakeAll(s, line[..k], e), line[k])
    {
      LineTakes(s, c, first, k, e);
      LineEndsOnce(c, first, k);
    }
    LineTakes(s, c, first, n, e);
    LineEndsOnce(c, first, n);
    TakeMore(s, line[..n], line[n], e);
    assert line[..n] + [line[n]] == line;
    var r := TakeAll(s, line[..n], e);
    SizeRead(c, first, s.mem[n + 1..]);
    assert r.mem[n := line[n]] == line + s.mem[n + 1..];
  }

  /** A chunk's line, at the start of a page, is read for what it is and leaves nothing behind. */
  lemma LineTaken(s: Feeder, c: Chunk, first: bool, e: Setting)
    requires Fit(s) && s.Feeding? && s.chunk == 0 && s.ptr == 0 && ChunkOk(c)
    ensures var r := TakeAll(s, Line(c, first), e);
            r.Feeding? && r.ptr == 0 && r.chunk == |c.data| && r.count == s.count && r.feed == s.feed
    ensures ShortLines(s, Line(c, first), e)
  {
    hide TakeAll, Line, HexValue, ShortLines;
    SizeLine(s, c, first, e);
  }

  /** A line ends here with a size that reads as negative. */
  ghost predicate NegativeSize(s: Feeder, b: int)
    requires Fit(s)
  {
    s.Feeding? && s.chunk == 0 && LineEnds(s, b) && ChunkSize(s.mem[s.ptr := b]) < 0
  }

  lemma ByteBounded(s: Feeder, b: int, e: Setting)
    requires Fit(s)
    ensures TakeByte(s, b, e).Unbounded? <==> s.Unbounded? || NegativeSize(s, b)
  {
    hide ChunkSize, Store, MARK;
  }

  /** Every reading of a stream stays within the page exactly when no line of it reads as a negative size. */
  lemma {:induction false} BoundedIff(s: Feeder, bytes: Bytes, e: Setting)
    requires Fit(s) && !s.Unbounded?
    ensures TakeAll(s, bytes, e).Unbounded?
            <==> exists k | 0 <= k < |bytes| :: NegativeSize(TakeAll(s, bytes[..k], e), bytes[k])
  {
    hide TakeAll, NegativeSize;
    if bytes == [] {
      NothingTaken(s, e);
    } else {
      var n := |bytes| - 1;
      BoundedIff(s, bytes[..n], e);
      TakeMore(s, bytes[..n], bytes[n], e);
      assert bytes[..n] + [bytes[n]] == bytes;
      ByteBounded(TakeAll(s, bytes[..n], e), bytes[n], e);
      assert forall k | 0 <= k < n :: bytes[..n][..k] == bytes[..k];
    }
  }

  lemma ShortJoin(s: Feeder, a: Bytes, b: Bytes, e: Setting)
    requires Fit(s) && ShortLines(s, a, e) && ShortLines(TakeAll(s, a, e), b, e)
    ensures ShortLines(s, a + b, e)
  {
    hide TakeAll, Short;
    forall k | 0 <= k < |a + b|
      ensures Short(TakeAll(s, (a + b)[..k], e), (a + b)[k])
    {
      if k < |a| {
        assert (a + b)[..k] == a[..k];
      } else {
        assert (a + b)[..k] == a + b[..k - |a|];
        TakeJoin(s, a, b[..k - |a|], e);
      }
    }
  }

  lemma EndShort(s: Feeder, bytes: Bytes, e: Setting)
    requires !s.Feeding?
    ensures ShortLines(s, bytes, e) && TakeAll(s, bytes, e) == s
  {
    hide TakeAll;
    EndStays(s, bytes, e);
    forall k | 0 <= k < |bytes|
      ensures Short(TakeAll(s, bytes[..k], e), bytes[k])
    {
      EndStays(s, bytes[..k], e);
    }
  }

  /** A chunk that begins at the start of a page. */
  lemma ChunkHolds(f: Feed, t: Bytes, s: Feeder, c: Chunk, first: bool, n: nat, e: Setting)
    requires f.index >= PAGE && e.disk == Works && Holds(f, t, 0, s, e) && |t| % PAGE == 0 && ChunkOk(c) && n <= |c.data|
    ensures Fit(s) && ShortLines(s, Line(c, first) + c.data[..n], e)
    ensures Holds(f, t + c.data[..n], |c.data| - n, TakeAll(s, Line(c, first) + c.data[..n], e), e)
  {
    hide TakeAll, ShortLines, ChunkOk, Line, InSync, StoreAll, DataPages;
    var line, d := Line(c, first), c.data[..n];
    if s.Feeding? {
      LineTaken(s, c, first, e);
    } else {
      EndShort(s, line, e);
    }
    var mid := TakeAll(s, line, e);
    assert s.Feeding? ==> mid.mem[..0] == Tail(t);
    assert Holds(f, t, |c.data|, mid, e);
    TakeJoin(s, line, d, e);
    DataHolds(f, t, |c.data|, mid, d, e);
    DataShort(mid, d, e);
    ShortJoin(s, line, d, e);
  }

  lemma DataShort(s: Feeder, d: Bytes, e: Setting)
    requires Fit(s) && forall k | 0 <= k < |d| :: var r := TakeAll(s, d[..k], e); r.Feeding? ==> r.chunk > 0
    ensures ShortLines(s, d, e)
  {
    hide TakeAll;
    forall k | 0 <= k < |d|
      ensures Short(TakeAll(s, d[..k], e), d[k])
    {
    }
  }

  /** Chunks of whole pages. */
  ghost predicate Whole(chunks: seq<Chunk>) {
    forall k | 0 <= k < |chunks| :: ChunkOk(chunks[k]) && |chunks[k].data| % PAGE == 0
  }

  function Fresh(f: Feed, mem: Bytes): Feeder {
    Feeding(mem, 0, 0, 0, f)
  }

  lemma {:induction false} WholeHolds(f: Feed, mem: Bytes, chunks: seq<Chunk>, e: Setting)
    requires f.index >= PAGE && |mem| >= PAGE && e.disk == Works && Whole(chunks)
    ensures ShortLines(Fresh(f, mem), Encode(chunks), e) && |Payload(chunks)| % PAGE == 0
    ensures Holds(f, Payload(chunks), 0, TakeAll(Fresh(f, mem), Encode(chunks), e), e)
  {
    hide TakeAll, ShortLines, ChunkOk, Line, Holds;
    var s := Fresh(f, mem);
    if chunks == [] {
      NothingYet();
      NothingTaken(s, e);
      UnfoldStoreAll(f, []);
      NothingHeld(f, mem, e);
    } else {
      var n := |chunks| - 1;
      var c, t := chunks[n], Payload(chunks[..n]);
      WholeHolds(f, mem, chunks[..n], e);
      assert ChunkOk(c);
      ChunkHolds(f, t, TakeAll(s, Encode(chunks[..n]), e), c, n == 0, |c.data|, e);
      assert c.data[..|c.data|] == c.data;
      ShortJoin(s, Encode(chunks[..n]), Line(c, n == 0) + c.data, e);
      TakeJoin(s, Encode(chunks[..n]), Line(c, n == 0) + c.data, e);
      WholeSum(|t|, |c.data|);
    }
  }

  lemma WholeSum(a: nat, b: nat)
    ensures a % PAGE == 0 ==> (a + b) % PAGE == b % PAGE
  {
    if a % PAGE == 0 {
      var k := a / PAGE;
      assert a + b == k * PAGE + b;
    }
  }

  lemma NothingHeld(f: Feed, mem: Bytes, e: Setting)
    requires f.index >= PAGE && |mem| >= PAGE
    ensures Fit(Fresh(f, mem)) && TakeAll(Fresh(f, mem), [], e) == Fresh(f, mem) && Encode([]) == [] && Payload([]) == []
    ensures Holds(f, [], 0, Fresh(f, mem), e) && ShortLines(Fresh(f, mem), [], e)
  {
    NothingYet();
    NothingTaken(Fresh(f, mem), e);
    UnfoldStoreAll(f, []);
  }

  /** The stream of a feeder: chunks of whole pages, and so much of the data of one more. */
  function Stream(chunks: seq<Chunk>, last: Chunk, n: nat): Bytes
    requires n <= |last.data|
  {
    Encode(chunks) + (Line(last, chunks == []) + last.data[..n])
  }

  /** However the stream arrives: once all that has come is read, the pages after the header have been stored in order, and
      the buffer has what follows them; and the feeder is dropped exactly when a data page does not begin with the mark, or
      the header page does not match. All chunks but the last must be whole pages. */
  lemma ReceivedPages(f: Feed, mem: Bytes, chunks: seq<Chunk>, last: Chunk, n: nat, arrivals: seq<Bytes>, e: Setting)
    requires f.index >= PAGE && |mem| >= PAGE && e.disk == Works && Whole(chunks) && ChunkOk(last) && n <= |last.data|
    requires Joined(arrivals) == Stream(chunks, last, n)
    ensures var (s, unread) := Calls(Fresh(f, mem), [], arrivals, e);
            !s.Feeding? || unread == [] ==> Holds(f, Payload(chunks) + last.data[..n], |last.data| - n, s, e)
  {
    hide TakeAll, ShortLines, ChunkOk, Line, Holds, Calls, Whole, Encode, TakenBut, Payload, Joined;
    var s, stream := Fresh(f, mem), Stream(chunks, last, n);
    WholeHolds(f, mem, chunks, e);
    var mid := TakeAll(s, Encode(chunks), e);
    ChunkHolds(f, Payload(chunks), mid, last, chunks == [], n, e);
    TakeJoin(s, Encode(chunks), Line(last, chunks == []) + last.data[..n], e);
    ShortJoin(s, Encode(chunks), Line(last, chunks == []) + last.data[..n], e);
    assert [] + Joined(arrivals) == stream;
    CallsAreBytes(s, [], arrivals, e);
    var (r, unread) := Calls(s, [], arrivals, e);
    if !r.Feeding? || unread == [] {
      Drained(s, stream, unread, r, e);
    }
  }

  /** All has been read, or the rest does not matter. */
  lemma Drained(s: Feeder, stream: Bytes, unread: Bytes, r: Feeder, e: Setting)
    requires Fit(s) && TakenBut(s, stream, unread, r, e) && (!r.Feeding? || unread == [])
    ensures r == TakeAll(s, stream, e)
  {
    hide TakeAll;
    var k := |stream| - |unread|;
    if !r.Feeding? {
      TakeJoin(s, stream[..k], stream[k..], e);
      assert stream[..k] + stream[k..] == stream;
      EndStays(r, stream[k..], e);
    } else {
      assert stream[..k] == stream;
    }
  }

  // ----- a chunk that ends inside a page

  /** The line end after a chunk leaves the part of the page that is there alone. */
  ghost predicate Kept(f: Feed, t: Bytes, s: Feeder)
    requires f.index >= PAGE
  {
    s.Feeding? && s.chunk == 0 && s.feed == StoreAll(f, DataPages(t))
    && s.ptr <= |s.mem| && s.mem[..s.ptr] == Tail(t) + CRLF
  }

  lemma TwoBytes(s: Feeder, a: int, b: int, e: Setting)
    requires Fit(s)
    ensures TakeAll(s, [a, b], e) == TakeByte(TakeByte(s, a, e), b, e)
  {
    hide TakeByte;
    OneByte(s, a, e);
    TakeMore(s, [a], b, e);
    assert [a] + [b] == [a, b];
  }

  /** Exactly when the data so far is whole pages: otherwise the line end that closes the chunk is taken for the end of a line
      with a size, read from the page itself, and the page is begun again. */
  lemma KeptIff(f: Feed, t: Bytes, s: Feeder, e: Setting)
    requires f.index >= PAGE && Holds(f, t, 0, s, e) && s.Feeding?
    ensures Fit(s) && (Kept(f, t, TakeAll(s, CRLF, e)) <==> |t| % PAGE == 0)
  {
    hide StoreAll, DataPages, InSync, ChunkSize, TakeAll, Checked;
    TwoBytes(s, CR, LF, e);
    var one := TakeByte(s, CR, e);
    if s.ptr + 1 < PAGE {
      assert one.mem == s.mem[s.ptr := CR] && one.ptr == s.ptr + 1;
      if s.ptr == 0 {
        var two := TakeByte(one, LF, e);
        assert two.mem[..2] == Tail(t) + CRLF;
      }
    }
  }

  /** The first i chunks have come, and the line end after them. */
  ghost predicate KeptAt(f: Feed, mem: Bytes, chunks: seq<Chunk>, i: nat, e: Setting)
    requires f.index >= PAGE && |mem| >= PAGE && i <= |chunks|
  {
    Kept(f, Payload(chunks[..i]), TakeAll(Fresh(f, mem), Encode(chunks[..i]) + CRLF, e))
  }

  ghost predicate Aligned(chunks: seq<Chunk>, i: nat)
    requires i <= |chunks|
  {
    |Payload(chunks[..i])| % PAGE == 0
  }

  ghost predicate AllOk(chunks: seq<Chunk>) {
    forall k | 0 <= k < |chunks| :: ChunkOk(chunks[k])
  }

  lemma PayloadStep(chunks: seq<Chunk>, i: nat)
    requires 0 < i <= |chunks|
    ensures Payload(chunks[..i]) == Payload(chunks[..i - 1]) + chunks[i - 1].data
    ensures Encode(chunks[..i]) == Encode(chunks[..i - 1]) + (Line(chunks[i - 1], i == 1) + chunks[i - 1].data)
  {
    assert chunks[..i][..i - 1] == chunks[..i - 1];
  }

  lemma {:induction false} PayloadPrefix(chunks: seq<Chunk>, i: nat)
    requires i <= |chunks|
    ensures Payload(chunks[..i]) <= Payload(chunks)
    decreases |chunks| - i
  {
    if i < |chunks| {
      PayloadStep(chunks, i + 1);
      PayloadPrefix(chunks, i + 1);
    } else {
      assert chunks[..i] == chunks;
    }
  }

  lemma {:induction false} AlignedWhole(chunks: seq<Chunk>, i: nat)
    requires AllOk(chunks) && i <= |chunks| && forall j | 0 < j <= i :: Aligned(chunks, j)
    ensures Whole(chunks[..i])
  {
    forall k | 0 <= k < i
      ensures ChunkOk(chunks[k]) && |chunks[k].data| % PAGE == 0
    {
      PayloadStep(chunks, k + 1);
      assert Aligned(chunks, k + 1);
      if k > 0 {
        assert Aligned(chunks, k);
      } else {
        NoPayload(chunks);
      }
      WholeSum(|Payload(chunks[..k])|, |chunks[k].data|);
    }
  }

  lemma NoPayload(chunks: seq<Chunk>)
    ensures Payload(chunks[..0]) == []
  {
  }

  lemma InSyncPrefix(s: Bytes, t: Bytes)
    requires InSync(t) && s <= t
    ensures InSync(s)
  {
    forall k | 1 <= k <= |s| / PAGE
      ensures Marked(s, k)
    {
      assert Marked(t, k);
      if k * PAGE + 2 <= |s| {
        assert s[k * PAGE..k * PAGE + 2] == t[k * PAGE..k * PAGE + 2];
      }
    }
  }

  /** At the first chunk that might end inside a page. */
  lemma KeptHere(f: Feed, mem: Bytes, chunks: seq<Chunk>, i: nat, e: Setting)
    requires f.index >= PAGE && |mem| >= PAGE && e == Setting(true, Works) && AllOk(chunks) && InSync(Payload(chunks))
    requires 0 < i < |chunks| && forall j | 0 < j < i :: Aligned(chunks, j)
    ensures KeptAt(f, mem, chunks, i, e) <==> Aligned(chunks, i)
  {
    hide TakeAll, ShortLines, Line, Whole, Encode, Payload, StoreAll, DataPages, InSync, ChunkOk;
    var c := chunks[i - 1];
    AlignedWhole(chunks, i - 1);
    WholeHolds(f, mem, chunks[..i - 1], e);
    var s := Fresh(f, mem);
    var mid := TakeAll(s, Encode(chunks[..i - 1]), e);
    assert ChunkOk(c);
    ChunkHolds(f, Payload(chunks[..i - 1]), mid, c, i == 1, |c.data|, e);
    assert c.data[..|c.data|] == c.data;
    TakeJoin(s, Encode(chunks[..i - 1]), Line(c, i == 1) + c.data, e);
    PayloadStep(chunks, i);
    PayloadPrefix(chunks, i);
    InSyncPrefix(Payload(chunks[..i]), Payload(chunks));
    TakeJoin(s, Encode(chunks[..i]), CRLF, e);
    KeptIff(f, Payload(chunks[..i]), TakeAll(s, Encode(chunks[..i]), e), e);
  }

  lemma {:induction false} KeptUpTo(f: Feed, mem: Bytes, chunks: seq<Chunk>, i: nat, e: Setting)
    requires f.index >= PAGE && |mem| >= PAGE && e == Setting(true, Works) && AllOk(chunks) && InSync(Payload(chunks))
    requires i < |chunks|
    ensures (forall j | 0 < j <= i :: KeptAt(f, mem, chunks, j, e)) <==> forall j | 0 < j <= i :: Aligned(chunks, j)
  {
    hide KeptAt, Aligned, Payload, InSync;
    if i > 0 {
      KeptUpTo(f, mem, chunks, i - 1, e);
      if forall j | 0 < j < i :: Aligned(chunks, j) {
        KeptHere(f, mem, chunks, i, e);
      }
    }
  }

  /** Of a stream that is in step, no page is lost at the end of a chunk exactly when every chunk but the last ends with a
      page. */
  lemma KeptThroughoutIff(f: Feed, mem: Bytes, chunks: seq<Chunk>, e: Setting)
    requires f.index >= PAGE && |mem| >= PAGE && e == Setting(true, Works) && AllOk(chunks) && InSync(Payload(chunks))
    ensures (forall i | 0 < i < |chunks| :: KeptAt(f, mem, chunks, i, e)) <==> forall i | 0 < i < |chunks| :: Aligned(chunks, i)
  {
    hide KeptAt, Aligned, Payload, InSync;
    if chunks != [] {
      KeptUpTo(f, mem, chunks, |chunks| - 1, e);
    }
  }

  lemma MarkSize(b: Bytes)
    requires |b| >= 2 && b[..2] == MARK
    ensures ChunkSize(b) == 15
  {
    assert b[0] == 0x66 && b[1] == 0x6d;
    assert b[1..][0] == 0x6d;
    assert SkipPrefix(b) == b;
    assert HexValue(b[1..], 15) == 15;
  }

  lemma TailMarked(t: Bytes)
    requires InSync(t) && |t| > PAGE && |t| % PAGE >= 2
    ensures Tail(t)[..2] == MARK
  {
    var k := |t| / PAGE;
    assert |t| == k * PAGE + |t| % PAGE;
    assert Marked(t, k);
    assert Tail(t)[..2] == t[k * PAGE..k * PAGE + 2];
  }

  /** A chunk that ends inside a data page ends the feeding: the page's mark reads as a size of 15, and the next line as data
      that does not begin with the mark. */
  lemma StraddlingDrops(f: Feed, t: Bytes, s: Feeder, next: Chunk, e: Setting)
    requires f.index >= PAGE && Holds(f, t, 0, s, e) && s.Feeding? && ChunkOk(next)
    requires |t| > PAGE && 2 <= |t| % PAGE <= PAGE - 2
    ensures Fit(s) && TakeAll(s, Line(next, false), e).Gone?
  {
    hide StoreAll, DataPages, InSync, ChunkSize, TakeAll, HexValue;
    var line := Line(next, false);
    TailMarked(t);
    TwoBytes(s, CR, LF, e);
    var mem := s.mem[s.ptr := CR][s.ptr + 1 := LF];
    assert mem[..2] == s.mem[..s.ptr][..2] == MARK;
    MarkSize(mem);
    var two := TakeAll(s, CRLF, e);
    assert two == Feeding(mem, 0, 15, s.count, s.feed);
    var x, y := line[2], line[3];
    assert line[..2] == CRLF && y != 0x6d by {
      assert HexDigit(0x6d) < 0;
      assert |next.size| >= 2 ==> y == next.size[1];
    }
    TwoBytes(two, x, y, e);
    NotMarked(two, x, y, e);
    assert line == CRLF + ([x, y] + line[4..]);
    TakeJoin(s, CRLF, [x, y] + line[4..], e);
    TakeJoin(two, [x, y], line[4..], e);
    EndStays(TakeAll(two, [x, y], e), line[4..], e);
  }

  lemma NotMarked(s: Feeder, x: int, y: int, e: Setting)
    requires Fit(s) && s.Feeding? && s.ptr == 0 && s.chunk > 1 && s.count >= PAGE && y != 0x6d
    ensures TakeByte(TakeByte(s, x, e), y, e).Gone?
  {
    var one := TakeByte(s, x, e);
    assert one.mem == Placed(s.mem, 0, [x]);
    var mem := Placed(one.mem, 1, [y]);
    assert mem[..2][1] == y;
  }

  /** Half a header page in a chunk of its own: its first letters read as a size of 255, and what has come of it is lost. */
  lemma HalfHeaderLost(f: Feed, mem: Bytes, half: Chunk, e: Setting)
    requires f.index >= PAGE && |mem| >= PAGE && e.disk == Works && ChunkOk(half) && |half.data| == PAGE / 2
    requires half.data[..4] == [0x46, 0x46, 0x4d, 0x31]
    ensures var s := TakeAll(Fresh(f, mem), Encode([half]) + CRLF, e);
            s.Feeding? && s.ptr == 0 && s.chunk == 255 && s.count == PAGE / 2
  {
    hide TakeAll, Line, StoreAll, DataPages, ChunkSize, HexValue, Payload, ShortLines, Encode, ChunkOk, Tail, Holds, InSync;
    var s := Fresh(f, mem);
    NothingHeld(f, mem, e);
    ChunkHolds(f, [], s, half, true, |half.data|, e);
    assert half.data[..|half.data|] == half.data;
    OneChunk(half);
    TakeJoin(s, Encode([half]), CRLF, e);
    HalfInSync(half.data);
    HalfRead(f, half.data, TakeAll(s, Encode([half]), e), e);
  }

  lemma OneChunk(c: Chunk)
    ensures Encode([c]) == Line(c, true) + c.data
  {
    assert [c][..0] == [];
  }

  lemma HalfRead(f: Feed, t: Bytes, s: Feeder, e: Setting)
    requires f.index >= PAGE && Holds(f, t, 0, s, e) && InSync(t) && |t| == PAGE / 2 && t[..4] == [0x46, 0x46, 0x4d, 0x31]
    ensures Fit(s) && TakeAll(s, CRLF, e) == Feeding(s.mem[s.ptr := CR][s.ptr + 1 := LF], 0, 255, PAGE / 2, s.feed)
  {
    hide TakeAll, StoreAll, DataPages, InSync, ChunkSize;
    HalfInSync(t);
    TwoBytes(s, CR, LF, e);
    var m := s.mem[s.ptr := CR][s.ptr + 1 := LF];
    assert m[..4] == s.mem[..s.ptr][..4];
    HeaderSize(m);
  }

  lemma HalfInSync(t: Bytes)
    requires |t| == PAGE / 2
    ensures InSync(t) && Tail(t) == t && [] + t == t
  {
    assert |t| / PAGE == 0 && |t| % PAGE == |t|;
  }

  lemma HeaderSize(b: Bytes)
    requires |b| >= 4 && b[..4] == [0x46, 0x46, 0x4d, 0x31]
    ensures ChunkSize(b) == 255
  {
    assert b[0] == 0x46 && b[1] == 0x46 && b[2] == 0x4d;
    assert SkipPrefix(b) == b;
    assert b[1..][0] == 0x46 && b[1..][1..][0] == 0x4d;
    assert HexValue(b[1..][1..], 255) == 255;
    assert HexValue(b[1..], 15) == 255;
  }

  /** Eleven bytes of a line that are there at once, none of them its end, end the feeding: so a size of eight digits does. */
  lemma {:induction false} LongLineDrops(s: Feeder, avail: Bytes, ended: bool, run: nat, e: Setting)
    requires Fit(s) && s.Feeding? && s.chunk == 0 && s.ptr == run <= 10 && |avail| > 10 - run
    requires forall k | 0 <= k <= 10 - run && k + run >= 2 :: avail[k] != LF
    ensures Call(s, avail, ended, run, e).0.Gone?
    decreases 10 - run
  {
    hide Call;
    CallStep(s, avail, ended, run, e);
    if run < 10 {
      LineByteTaken(s, avail[0], e);
      var t := LineByte(s, avail[0], e);
      LongLineDrops(t, avail[1..], ended, run + 1, e);
    }
  }

  // ----- the state as it is updated

  /** The feed as the server starts with it: the limit is raised to the file, so as not to wrap inside it. */
  function Loaded(file: Bytes, max: nat): Feed {
    Opened(Feed(file, 0, 0, if 0 < max < |file| then |file| else max), false)
  }

  function Further(r: (Feeder, nat), n: nat): (Feeder, nat) {
    (r.0, r.1 + n)
  }

  lemma CallStep(s: Feeder, avail: Bytes, ended: bool, run: nat, e: Setting)
    requires Fit(s)
    ensures var r := Call(s, avail, ended, run, e);
            if !s.Feeding? then r == (s, 0)
            else if s.chunk > 0 then r == ReadData(s, avail, ended, e)
            else if avail == [] then r == (if ended then Gone(s.feed) else s, 0)
            else if run >= 10 && !LineEnds(s, avail[0]) then r == (Gone(s.feed), 1)
            else
              var t := LineByte(s, avail[0], e);
              r == if !t.Feeding? || (t.chunk == 0 && s.ptr + 1 == PAGE) then (t, 1)
                   else Further(Call(t, avail[1..], ended, run + 1, e), 1)
  {
    hide LineByte, ReadData;
  }

  // ----- how feeding ends

  /** With nothing there, a connection that has ended leaves the feed with the pages received whole, and any other waits. */
  lemma EndLeaves(f: Feed, t: Bytes, chunk: nat, s: Feeder, ended: bool, e: Setting)
    requires f.index >= PAGE && Holds(f, t, chunk, s, e) && s.Feeding?
    ensures Fit(s) && Call(s, [], ended, 0, e) == (if ended then Gone(StoreAll(f, DataPages(t))) else s, 0)
  {
    hide StoreAll, DataPages;
    if chunk > 0 && !ended {
      assert Placed(s.mem, s.ptr, []) == s.mem;
      if s.ptr >= 2 && s.count > PAGE {
        assert InSync(t) && |t| > PAGE;
        TailMarked(t);
        assert s.mem[..2] == s.mem[..s.ptr][..2];
      }
    }
  }

  /** When pages cannot be written, feeding ends with the first page after the header, and none is stored. */
  lemma {:induction false} FailureEnds(s: Feeder, data: Bytes, e: Setting)
    requires Fit(s) && s.Feeding? && e.disk == PageFails && |data| <= s.chunk
    requires s.ptr == s.count % PAGE && s.count < 2 * PAGE
    ensures var r := TakeAll(s, data, e);
            && !r.Unbounded? && r.feed == s.feed
            && (r.Feeding? ==> r.count == s.count + |data| < 2 * PAGE && r.ptr == r.count % PAGE && r.chunk == s.chunk - |data|)
  {
    if data != [] {
      var n := |data| - 1;
      FailureEnds(s, data[..n], e);
      hide TakeByte;
      var r := TakeAll(s, data[..n], e);
      if r.Feeding? {
        ByteFails(r, data[n], e);
      } else {
        assert TakeAll(s, data, e) == r by { EndByte(r, data[n], e); }
      }
    }
  }

  lemma ByteFails(s: Feeder, b: int, e: Setting)
    requires Fit(s) && s.Feeding? && s.chunk > 0 && e.disk == PageFails && s.ptr == s.count % PAGE && s.count < 2 * PAGE
    ensures var r := TakeByte(s, b, e);
            && !r.Unbounded? && r.feed == s.feed
            && (r.Feeding? ==> r.count == s.count + 1 < 2 * PAGE && r.ptr == r.count % PAGE && r.chunk == s.chunk - 1)
  {
    hide Store, MARK;
    Filled(s.count, 1);
  }

  /** Whatever is received: when pages cannot be written, none is; and when the write index cannot be, the one in the file's
      header stays, so that the next feeder writes over that page. */
  lemma {:induction false} IndexStays(s: Feeder, bytes: Bytes, e: Setting)
    requires Fit(s) && (s.Feeding? ==> Sound(s.feed))
    ensures var r := TakeAll(s, bytes, e);
            && (e.disk == PageFails ==> r.feed == s.feed)
            && (e.disk == IndexFails ==> ReadIndex(r.feed.file) == ReadIndex(s.feed.file) && (r.Feeding? ==> r.feed == s.feed))
  {
    if bytes != [] {
      var n := |bytes| - 1;
      IndexStays(s, bytes[..n], e);
      var r := TakeAll(s, bytes[..n], e);
      hide TakeAll;
      if r.Feeding? && s.Feeding? {
        ByteIndexStays(r, bytes[n], e);
      }
      if !s.Feeding? {
        EndStays(s, bytes[..n], e);
      }
    }
  }

  lemma ByteIndexStays(s: Feeder, b: int, e: Setting)
    requires Fit(s) && s.Feeding? && (e.disk == Works || Sound(s.feed))
    ensures var r := TakeByte(s, b, e);
            && (e.disk == PageFails ==> r.feed == s.feed)
            && (e.disk == IndexFails ==> ReadIndex(r.feed.file) == ReadIndex(s.feed.file) && (r.Feeding? ==> r.feed == s.feed))
  {
    hide ReadIndex, MARK, ChunkSize, NextIndex;
    forall page: Bytes | |page| == PAGE && Sound(s.feed)
      ensures ReadIndex(WriteAt(s.feed.file, s.feed.index, page)) == ReadIndex(s.feed.file)
    {
      PageIndexStays(s.feed, page);
    }
  }

  lemma PageIndexStays(f: Feed, page: Bytes)
    requires Sound(f) && |page| == PAGE
    ensures ReadIndex(WriteAt(f.file, f.index, page)) == ReadIndex(f.file)
  {
    var r := WriteAt(f.file, f.index, page);
    assert r[8..16] == f.file[8..16] by {
      assert r[..f.index] == f.file[..f.index];
      assert r[8..16] == r[..f.index][8..16] && f.file[8..16] == f.file[..f.index][8..16];
    }
  }

  /** A feed, and the buffer, chunk and counter of the one connection that may feed it. */
  class FeedStore {
    const buffer: array<int>
    const maxSize: nat
    var ptr: nat
    var chunkSize: int
    var dataCount: nat
    var chunked: bool
    var file: Bytes
    var writeIndex: int
    var feedSize: nat
    var feedOpened: bool

    ghost predicate Valid()
      reads this
    {
      buffer.Length >= PAGE && (feedOpened ==> ptr < PAGE && writeIndex >= PAGE)
    }

    function Stored(): Feed
      reads this
    {
      Feed(file, writeIndex, feedSize, maxSize)
    }

    ghost function View(): (s: Feeder)
      requires Valid()
      reads this, buffer
      ensures Fit(s)
    {
      if !feedOpened then Gone(Stored())
      else if chunkSize < 0 then Unbounded(Stored())
      else Feeding(buffer[..], ptr, chunkSize, dataCount, Stored())
    }

    constructor (file: Bytes, maxSize: nat, size: nat)
      requires size >= PAGE
      ensures Valid() && Stored() == Loaded(file, maxSize) && !feedOpened && fresh(buffer)
    {
      buffer := new int[size];
      this.maxSize := if 0 < maxSize < |file| then |file| else maxSize;
      this.file, writeIndex, feedSize := file, if ReadIndex(file) > PAGE then ReadIndex(file) else PAGE, |file|;
      ptr, chunkSize, dataCount, chunked, feedOpened := 0, 0, 0, false, false;
    }

    /** A feeder's request: refused while another feeds, on a read-only feed, when the file does not open, or when its write
        index cannot be read or is negative; the index read stays even so. */
    method StartReceive(readonly: bool, opens: bool, truncate: bool, chunks: bool) returns (ok: bool)
      requires Valid()
      modifies this
      ensures Valid() && buffer[..] == old(buffer[..])
      ensures ok == (!old(feedOpened) && !readonly && opens && (truncate || ReadIndex(old(file)) >= 0))
      ensures ok ==> feedOpened && View() == Fresh(Opened(old(Stored()), truncate), buffer[..]) && chunked == chunks
      ensures !ok ==>
                && feedOpened == old(feedOpened) && ptr == old(ptr) && chunkSize == old(chunkSize) && dataCount == old(dataCount)
                && Stored() == old(Stored()).(index := if !old(feedOpened) && !readonly && opens then ReadIndex(file) else old(writeIndex))
    {
      hide ReadIndex, WriteIndex, Truncated;
      if feedOpened || readonly || !opens {
        return false;
      }
      if truncate {
        file := Truncated(WriteIndex(file, PAGE));
      } else {
        writeIndex := ReadIndex(file);
        if writeIndex < 0 {
          return false;
        }
      }
      writeIndex := if ReadIndex(file) > PAGE then ReadIndex(file) else PAGE;
      feedSize := |file|;
      ptr, chunkSize, dataCount, chunked, feedOpened := 0, 0, 0, chunks, true;
      ok := true;
    }

    /** One handling of the feeding connection. Without chunks no byte is asked for, and none counts as the end. What becomes
        of a reading that the page does not bound is not said. */
    method ReceiveData(avail: Bytes, ended: bool, e: Setting) returns (ok: bool, used: nat)
      requires Valid() && feedOpened
      modifies this, buffer
      ensures Valid() && ok == feedOpened
      ensures (View(), used) == if chunked then Call(old(View()), avail, ended, 0, e) else (Gone(old(Stored())), 0)
    {
      hide LineByte, ReadData, Call;
      used := 0;
      if !chunked {
        feedOpened := false;
        return false, 0;
      }
      var run: nat := 0;
      assert avail[0..] == avail;
      while chunkSize == 0
        invariant Valid() && feedOpened && chunked && used <= |avail|
        invariant Call(old(View()), avail, ended, 0, e) == Further(Call(View(), avail[used..], ended, run, e), used)
        decreases |avail| - used
      {
        CallStep(View(), avail[used..], ended, run, e);
        if used == |avail| {
          feedOpened := !ended;
          return feedOpened, used;
        }
        var b, last := avail[used], ptr + 1 == PAGE;
        assert avail[used..][1..] == avail[used + 1..];
        used := used + 1;
        if run >= 10 && !(ptr >= 2 && buffer[ptr - 1] == CR && b == LF) {
          feedOpened := false;
          return false, used;
        }
        TakeLineByte(b, e);
        if !feedOpened || chunkSize < 0 || (last && chunkSize == 0) {
          return feedOpened, used;
        }
        run := run + 1;
      }
      CallStep(View(), avail[used..], ended, run, e);
      if chunkSize < 0 {
        return true, used;
      }
      var n := ReceiveChunk(avail[used..], ended, e);
      used, ok := used + n, feedOpened;
    }

    /** A byte of a chunk's line. */
    method TakeLineByte(b: int, e: Setting)
      requires Valid() && feedOpened && chunkSize == 0
      modifies this, buffer
      ensures Valid() && chunked == old(chunked)
      ensures View() == LineByte(old(View()), b, e)
    {
      hide Checked, ChunkSize;
      ghost var before := View();
      buffer[ptr] := b;
      assert buffer[..] == before.mem[ptr := b];
      if ptr >= 2 && buffer[ptr - 1] == CR && b == LF {
        var size := ChunkSize(buffer[..]);
        if size == 0 {
          feedOpened := false;
        } else {
          chunkSize, ptr := size, 0;
        }
        return;
      }
      ptr := ptr + 1;
      if ptr >= PAGE {
        CheckPage(e);
      }
    }

    /** One reading of a chunk's data. */
    method ReceiveChunk(avail: Bytes, ended: bool, e: Setting) returns (n: nat)
      requires Valid() && feedOpened && chunkSize > 0
      modifies this, buffer
      ensures Valid() && chunked == old(chunked)
      ensures (View(), n) == ReadData(old(View()), avail, ended, e)
    {
      hide Checked, Placed;
      if avail == [] && ended {
        feedOpened := false;
        return 0;
      }
      n := Least(|avail|, Least(chunkSize, PAGE - ptr));
      FillBuffer(avail[..n]);
      ptr, chunkSize, dataCount := ptr + n, chunkSize - n, dataCount + n;
      CheckPage(e);
    }

    method FillBuffer(piece: Bytes)
      requires ptr + |piece| <= buffer.Length
      modifies buffer
      ensures buffer[..] == Placed(old(buffer[..]), ptr, piece)
    {
      for i := 0 to |piece|
        invariant forall k | 0 <= k < buffer.Length ::
                    buffer[k] == if ptr <= k < ptr + i then piece[k - ptr] else old(buffer[k])
      {
        buffer[ptr + i] := piece[i];
      }
    }

    /** After data: the mark is looked for, and a full page dealt with. */
    method CheckPage(e: Setting)
      requires buffer.Length >= PAGE >= ptr && writeIndex >= PAGE && feedOpened && chunkSize >= 0
      modifies this
      ensures Valid() && chunked == old(chunked) && buffer[..] == old(buffer[..])
      ensures chunkSize == old(chunkSize) && dataCount == old(dataCount)
      ensures View() == Checked(buffer[..], old(ptr), chunkSize, dataCount, old(Stored()), e)
    {
      hide Store;
      if ptr >= 2 && dataCount > PAGE {
        MarkIs(buffer[..]);
        if buffer[0] != 0x66 || buffer[1] != 0x6d {
          feedOpened := false;
          return;
        }
      }
      if ptr >= PAGE {
        if dataCount <= PAGE {
          feedOpened := e.headerGood;
        } else if e.disk == PageFails {
          feedOpened := false;
        } else {
          StorePacket(e.disk == Works);
          feedOpened := e.disk == Works;
        }
        ptr := 0;
      }
    }

    /** Writes the full buffer at the write index, moves the index on, and writes it too, unless that fails. */
    method StorePacket(indexWritten: bool)
      requires buffer.Length >= PAGE && writeIndex >= PAGE
      modifies `file, `writeIndex, `feedSize
      ensures writeIndex >= PAGE
      ensures var r := Store(old(Stored()), buffer[..PAGE]);
              Stored() == if indexWritten then r else r.(file := WriteAt(old(file), old(writeIndex), buffer[..PAGE]))
    {
      StoreStays(Stored(), buffer[..PAGE]);
      hide WriteIndex, WriteAt;
      assert buffer[..][..PAGE] == buffer[..PAGE];
      file := WriteAt(file, writeIndex, buffer[..PAGE]);
      writeIndex := writeIndex + PAGE;
      if writeIndex > feedSize {
        feedSize := writeIndex;
      }
      if maxSize != 0 && writeIndex >= maxSize {
        writeIndex := PAGE;
      }
      if indexWritten {
        file := WriteIndex(file, writeIndex);
      }
    }
  }

  lemma MarkIs(b: Bytes)
    requires |b| >= 2
    ensures b[..2] == MARK <==> b[0] == 0x66 && b[1] == 0x6d
  {
  }
}
