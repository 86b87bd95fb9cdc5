/** The server's feed file: a header page, then pages of received data written round a ring. */
module FeedRing {

  type Bytes = seq<int>

  const PAGE: nat := 4096

  /** The longest file the size limit allows, in pages: the limit rounded up. */
  function MaxPages(max: nat): nat {
    (max + PAGE - 1) / PAGE
  }

  // ----- the file

  function Zeros(n: nat): (z: Bytes)
    ensures |z| == n
  {
    seq(n, _ => 0)
  }

  /** Writing over part of a file, or past its end; a gap reads as zeros. */
  function WriteAt(file: Bytes, off: nat, data: Bytes): (r: Bytes)
    ensures |r| == if off + |data| > |file| then off + |data| else |file|
    ensures r[off..off + |data|] == data && (off <= |file| ==> r[..off] == file[..off])
    ensures forall i | off + |data| <= i < |file| :: r[i] == file[i]
  {
    (if off <= |file| then file[..off] else file + Zeros(off - |file|)) + data
      + if off + |data| < |file| then file[off + |data|..] else []
  }

  /** A position in n bytes, the high byte first. */
  function BigEndian(pos: nat, n: nat): (b: Bytes)
    ensures |b| == n
  {
    if n == 0 then [] else BigEndian(pos / 256, n - 1) + [pos % 256]
  }

  function Value(b: Bytes): int {
    if b == [] then 0 else Value(b[..|b| - 1]) * 256 + b[|b| - 1]
  }

  function Limit(n: nat): nat {
    if n == 0 then 1 else 256 * Limit(n - 1)
  }

  lemma {:induction false} BigEndianBack(pos: nat, n: nat)
    requires pos < Limit(n)
    ensures Value(BigEndian(pos, n)) == pos
  {
    if n > 0 {
      BigEndianBack(pos / 256, n - 1);
      assert BigEndian(pos, n)[..n - 1] == BigEndian(pos / 256, n - 1);
    }
  }

  const WORD: int := 0x1_0000_0000_0000_0000
  const NO_INDEX: int := -5

  lemma LimitIsWord()
    ensures Limit(8) == WORD
  {
    assert Limit(2) == 0x1_0000;
    assert Limit(4) == 256 * (256 * Limit(2));
    assert Limit(6) == 256 * (256 * Limit(4));
    assert Limit(8) == 256 * (256 * Limit(6));
  }

  /** The write index kept in the header, a signed word; an error when the file is too short to have one. */
  function ReadIndex(file: Bytes): int {
    if |file| < 16 then NO_INDEX
    else var n := Value(file[8..16]); if n >= WORD / 2 then n - WORD else n
  }

  function WriteIndex(file: Bytes, pos: nat): (r: Bytes)
    ensures |r| == if |file| < 16 then 16 else |file|
  {
    WriteAt(file, 8, BigEndian(pos, 8))
  }

  // ----- the feed

  /** max is the size limit; zero means unlimited. */
  datatype Feed = Feed(file: Bytes, index: int, size: nat, max: nat)

  ghost predicate Sound(f: Feed) {
    f.size == |f.file| && PAGE <= f.index <= f.size && f.index % PAGE == 0
  }

  ghost predicate Bounded(f: Feed) {
    f.max > 0 ==> f.size <= MaxPages(f.max) * PAGE
  }

  /** The write index after a page is written. */
  function NextIndex(index: nat, max: nat): (r: nat)
    ensures index >= PAGE ==> r >= PAGE
  {
    if max > 0 && index + PAGE >= max then PAGE else index + PAGE
  }

  function Store(f: Feed, page: Bytes): Feed
    requires f.index >= 0 && |page| == PAGE
  {
    var next := NextIndex(f.index, f.max);
    Feed(WriteIndex(WriteAt(f.file, f.index, page), next), next,
         if f.index + PAGE > f.size then f.index + PAGE else f.size, f.max)
  }

  ghost predicate AllPages(pages: seq<Bytes>) {
    forall i | 0 <= i < |pages| :: |pages[i]| == PAGE
  }

  function StoreAll(f: Feed, pages: seq<Bytes>): (r: Feed)
    requires f.index >= PAGE && AllPages(pages)
    ensures r.index >= PAGE && r.max == f.max && (Sound(f) ==> Sound(r))
  {
    if pages == [] then f
    else
      var g := StoreAll(f, pages[..|pages| - 1]);
      StoreStays(g, pages[|pages| - 1]);
      Store(g, pages[|pages| - 1])
  }

  lemma StoreStays(f: Feed, page: Bytes)
    requires f.index >= PAGE && |page| == PAGE
    ensures Store(f, page).index >= PAGE && (Sound(f) ==> Sound(Store(f, page)))
  {
    if Sound(f) {
      StoreKeeps(f, page);
    }
  }

  lemma StoreKeeps(f: Feed, page: Bytes)
    requires Sound(f) && |page| == PAGE
    ensures Sound(Store(f, page))
    ensures f.max > 0 ==> Store(f, page).index == PAGE || Store(f, page).index < f.max
  {
  }

  /** A page stays within the limit exactly when it is written before the limit. */
  lemma StoreBounded(f: Feed, page: Bytes)
    requires Sound(f) && |page| == PAGE && Bounded(f)
    ensures Bounded(Store(f, page)) <==> f.max == 0 || f.index < f.max
  {
    if f.max > 0 {
      var k := f.index / PAGE;
      assert f.index == k * PAGE;
      assert f.index < f.max <==> k + 1 <= MaxPages(f.max);
    }
  }

  /** The file stays within the limit, rounded up to a page, over any run of pages, exactly when the first is written
      before the limit; and the write index then stays page-aligned, past the header and before the limit. */
  lemma {:induction false} FileBounded(f: Feed, pages: seq<Bytes>)
    requires Sound(f) && Bounded(f) && AllPages(pages) && f.max >= 2 * PAGE
    ensures pages != [] ==> (Bounded(StoreAll(f, pages)) <==> f.index < f.max)
    ensures var r := StoreAll(f, pages);
            f.index < f.max ==> Bounded(r) && r.index % PAGE == 0 && PAGE <= r.index < r.max
  {
    if pages != [] {
      var n := |pages| - 1;
      var g := StoreAll(f, pages[..n]);
      FileBounded(f, pages[..n]);
      StoreKeeps(g, pages[n]);
      hide Store, MaxPages;
      if n == 0 || f.index < f.max {
        StoreBounded(g, pages[n]);
      } else {
        StillLonger(g, pages[n]);
      }
    }
  }

  lemma StillLonger(f: Feed, page: Bytes)
    requires Sound(f) && |page| == PAGE
    ensures Store(f, page).size >= f.size
  {
  }

  /** The header page is never overwritten, but for the write index in it, which is always the current one. */
  lemma {:induction false} HeaderKept(f: Feed, pages: seq<Bytes>)
    requires Sound(f) && AllPages(pages)
    ensures var r := StoreAll(f, pages);
            && r.file[..8] == f.file[..8] && r.file[16..PAGE] == f.file[16..PAGE]
            && (pages != [] && r.index < WORD / 2 ==> ReadIndex(r.file) == r.index)
  {
    if pages != [] {
      var n := |pages| - 1;
      var g := StoreAll(f, pages[..n]);
      HeaderKept(f, pages[..n]);
      HeaderStep(g, pages[n]);
    }
  }

  lemma HeaderStep(f: Feed, page: Bytes)
    requires Sound(f) && |page| == PAGE
    ensures var r := Store(f, page);
            && r.file[..8] == f.file[..8] && r.file[16..PAGE] == f.file[16..PAGE]
            && (r.index < WORD / 2 ==> ReadIndex(r.file) == r.index)
  {
    hide Limit, Value, BigEndian;
    var next := NextIndex(f.index, f.max);
    var a := WriteAt(f.file, f.index, page);
    var b := WriteIndex(a, next);
    assert b[..8] == a[..8] == f.file[..8] by {
      assert a[..8] == a[..f.index][..8] && f.file[..8] == f.file[..f.index][..8];
    }
    assert b[16..PAGE] == f.file[16..PAGE] by {
      forall i | 16 <= i < PAGE
        ensures b[i] == f.file[i]
      {
        assert b[i] == a[i] && a[i] == a[..f.index][i];
      }
    }
    if next < WORD / 2 {
      LimitIsWord();
      BigEndianBack(next, 8);
      assert b[8..16] == BigEndian(next, 8);
    }
  }

  // ----- the ring

  /** Page k of the file; page 0 is the header. */
  function PageAt(file: Bytes, k: nat): Bytes
    requires (k + 1) * PAGE <= |file|
  {
    file[k * PAGE..(k + 1) * PAGE]
  }

  /** The page of the ring j pages back from the last one written, k being the next to write and n the pages in the ring. */
  function Back(k: nat, j: nat, n: nat): (p: nat)
    requires 1 <= k <= n && j < n
    ensures 1 <= p <= n
  {
    if k - 1 - j >= 1 then k - 1 - j else k - 1 - j + n
  }

  lemma StorePage(f: Feed, page: Bytes, k: nat, m: nat)
    requires Sound(f) && |page| == PAGE && f.index == k * PAGE && 1 <= m
    requires (m + 1) * PAGE <= |Store(f, page).file|
    ensures m == k ==> PageAt(Store(f, page).file, m) == page
    ensures m != k && (m + 1) * PAGE <= |f.file| ==> PageAt(Store(f, page).file, m) == PageAt(f.file, m)
    ensures |Store(f, page).file| >= |f.file| && |Store(f, page).file| >= (k + 1) * PAGE
  {
    var a := WriteAt(f.file, f.index, page);
    var b := WriteIndex(a, NextIndex(f.index, f.max));
    assert forall i | 16 <= i < |a| :: b[i] == a[i];
    if m == k {
      forall i | 0 <= i < PAGE
        ensures b[k * PAGE + i] == page[i]
      {
        assert a[f.index..f.index + PAGE][i] == page[i];
      }
    } else if (m + 1) * PAGE <= |f.file| {
      forall i | m * PAGE <= i < (m + 1) * PAGE
        ensures b[i] == f.file[i]
      {
        if m < k {
          assert a[..f.index][i] == f.file[..f.index][i];
        }
      }
    }
  }

  /** The pages of a limited ring. */
  function Slots(max: nat): int {
    MaxPages(max) - 1
  }

  lemma NextSlot(index: nat, max: nat)
    requires PAGE <= index < max && index % PAGE == 0 && max >= 2 * PAGE
    ensures 1 <= index / PAGE <= Slots(max) && (index / PAGE) * PAGE == index
    ensures NextIndex(index, max) / PAGE == if index / PAGE < Slots(max) then index / PAGE + 1 else 1
  {
  }

  /** Going back from the write index, the pages of the ring are the received ones, newest first. */
  ghost predicate Newest(f: Feed, pages: seq<Bytes>)
    requires Sound(f) && PAGE <= f.index < f.max && f.max >= 2 * PAGE
  {
    NextSlot(f.index, f.max);
    forall j | 0 <= j < |pages| && j < Slots(f.max) :: IsBack(f, j, pages)
  }

  ghost predicate IsBack(f: Feed, j: nat, pages: seq<Bytes>)
    requires 1 <= f.index / PAGE <= Slots(f.max) && j < Slots(f.max) && j < |pages|
  {
    var p := Back(f.index / PAGE, j, Slots(f.max));
    (p + 1) * PAGE <= |f.file| && PageAt(f.file, p) == pages[|pages| - 1 - j]
  }

  lemma NewestStep(f: Feed, pages: seq<Bytes>, page: Bytes)
    requires Sound(f) && PAGE <= f.index < f.max && f.max >= 2 * PAGE && |page| == PAGE && Newest(f, pages)
    ensures var r := Store(f, page); Sound(r) && PAGE <= r.index < r.max && Newest(r, pages + [page])
  {
    hide PageAt, MaxPages, Slots, IsBack, Back;
    StoreKeeps(f, page);
    NextSlot(f.index, f.max);
    var r := Store(f, page);
    NextSlot(r.index, r.max);
    forall j | 0 <= j < |pages + [page]| && j < Slots(f.max)
      ensures IsBack(r, j, pages + [page])
    {
      StepBack(f, pages, page, j);
    }
  }

  lemma StepBack(f: Feed, pages: seq<Bytes>, page: Bytes, j: nat)
    requires Sound(f) && PAGE <= f.index < f.max && f.max >= 2 * PAGE && |page| == PAGE
    requires 1 <= f.index / PAGE <= Slots(f.max) && 1 <= Store(f, page).index / PAGE <= Slots(f.max)
    requires j < Slots(f.max) && j <= |pages| && (j > 0 ==> IsBack(f, j - 1, pages))
    ensures IsBack(Store(f, page), j, pages + [page])
  {
    hide PageAt, MaxPages, Slots;
    NextSlot(f.index, f.max);
    var k, n := f.index / PAGE, Slots(f.max);
    var p := Back(Store(f, page).index / PAGE, j, n);
    assert if j == 0 then p == k else p == Back(k, j - 1, n) && p != k;
    StorePage(f, page, k, k);
    StorePage(f, page, k, p);
  }

  /** From any aligned start, after any run of pages, the newest of them stand in the ring in arrival order before the
      write index: as many as there are, or as the ring holds. */
  lemma {:induction false} RingHoldsNewest(f: Feed, pages: seq<Bytes>)
    requires Sound(f) && PAGE <= f.index < f.max && f.max >= 2 * PAGE && AllPages(pages)
    ensures var r := StoreAll(f, pages); PAGE <= r.index < r.max && Newest(r, pages)
  {
    if pages != [] {
      var n := |pages| - 1;
      RingHoldsNewest(f, pages[..n]);
      hide Store, Newest;
      NewestStep(StoreAll(f, pages[..n]), pages[..n], pages[n]);
      assert pages[..n] + [pages[n]] == pages;
    } else {
      NextSlot(f.index, f.max);
    }
  }

  /** The i-th page of the ring, read from the write index round. */
  function RingPage(k: nat, i: nat, n: nat): (p: nat)
    requires 1 <= k <= n && i < n
    ensures 1 <= p <= n
  {
    if k + i <= n then k + i else k + i - n
  }

  /** Once the ring has filled, reading it from the write index round gives the most recent pages in arrival order. */
  lemma RingReadsBack(f: Feed, pages: seq<Bytes>, i: nat)
    requires Sound(f) && PAGE <= f.index < f.max && f.max >= 2 * PAGE && AllPages(pages)
    requires i < Slots(f.max) <= |pages|
    ensures var r := StoreAll(f, pages);
            && 1 <= r.index / PAGE <= Slots(f.max)
            && var p := RingPage(r.index / PAGE, i, Slots(f.max));
               (p + 1) * PAGE <= |r.file| && PageAt(r.file, p) == pages[|pages| - Slots(f.max) + i]
  {
    hide StoreAll, PageAt, MaxPages, Slots, Back, RingPage;
    RingHoldsNewest(f, pages);
    var r, n := StoreAll(f, pages), Slots(f.max);
    NextSlot(r.index, r.max);
    BackFromEnd(r.index / PAGE, i, n);
    assert IsBack(r, n - 1 - i, pages);
  }

  lemma BackFromEnd(k: nat, i: nat, n: nat)
    requires 1 <= k <= n && i < n
    ensures Back(k, n - 1 - i, n) == RingPage(k, i, n)
  {
  }

  /** Without a limit, the file is what it was followed by every page received. */
  lemma {:induction false} UnlimitedAppends(f: Feed, pages: seq<Bytes>, i: nat)
    requires Sound(f) && f.max == 0 && f.index == f.size && AllPages(pages) && i < |pages|
    ensures var r := StoreAll(f, pages);
            && r.index == r.size == f.index + |pages| * PAGE
            && PageAt(r.file, f.index / PAGE + i) == pages[i]
  {
    hide StoreAll, Store, PageAt;
    var n := |pages| - 1;
    var g := StoreAll(f, pages[..n]);
    if n > 0 {
      UnlimitedAppends(f, pages[..n], if i < n then i else 0);
    }
    UnfoldStoreAll(f, pages);
    UnfoldStoreAll(f, []);
    AppendIndex(g, pages[n]);
    StorePage(g, pages[n], f.index / PAGE + n, f.index / PAGE + i);
  }

  lemma UnfoldStoreAll(f: Feed, pages: seq<Bytes>)
    requires f.index >= PAGE && AllPages(pages)
    ensures pages == [] ==> StoreAll(f, pages) == f
    ensures pages != [] ==> StoreAll(f, pages) == Store(StoreAll(f, pages[..|pages| - 1]), pages[|pages| - 1])
  {
  }

  lemma AppendIndex(f: Feed, page: Bytes)
    requires Sound(f) && f.max == 0 && f.index == f.size && |page| == PAGE
    ensures Store(f, page).index == Store(f, page).size == f.index + PAGE
  {
  }

  // ----- opening the feed

  /** The feed as a new feeder finds it in the file; a truncated one keeps its header alone. */
  function Opened(f: Feed, truncate: bool): (r: Feed)
    ensures r.index >= PAGE
  {
    var file := if truncate then Truncated(WriteIndex(f.file, PAGE)) else f.file;
    var index := ReadIndex(file);
    Feed(file, if index > PAGE then index else PAGE, |file|, f.max)
  }

  /** A file cut or filled up to one page. */
  function Truncated(file: Bytes): (r: Bytes)
    ensures |r| == PAGE
  {
    if |file| < PAGE then file + Zeros(PAGE - |file|) else file[..PAGE]
  }

  /** A feeder that comes back goes on where the last one stopped. */
  lemma OpenedResumes(f: Feed, pages: seq<Bytes>)
    requires Sound(f) && AllPages(pages) && pages != [] && StoreAll(f, pages).index < WORD / 2
    ensures Opened(StoreAll(f, pages), false) == StoreAll(f, pages)
  {
    hide StoreAll, Limit, Value;
    HeaderKept(f, pages);
  }

  /** Whatever the file was. */
  lemma OpenedTruncated(f: Feed)
    ensures var g := Opened(f, true);
            && Sound(g) && g.index == g.size == PAGE
            && (|f.file| >= PAGE ==> g.file[..8] == f.file[..8] && g.file[16..PAGE] == f.file[16..PAGE])
  {
    hide BigEndian, Value, Limit, WriteAt;
    var a := WriteIndex(f.file, PAGE);
    LimitIsWord();
    BigEndianBack(PAGE, 8);
    var g := Truncated(a);
    assert g[8..16] == a[8..16] == BigEndian(PAGE, 8);
    if |f.file| >= PAGE {
      assert g[..8] == a[..8] && g[16..PAGE] == a[16..PAGE];
      forall i | 16 <= i < PAGE
        ensures a[i] == f.file[i]
      {
      }
    }
  }
}
