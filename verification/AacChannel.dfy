/** One channel of AAC audio, written and read back whole. */
module AacChannel {
  import opened PrefixCode
  import opened Wrappers
  import Sections = AacSections
  import Factors = AacScalefactors
  import Spectral = AacSpectral

  /** What the decoder already knows: window length, band sizes, and the windows of each group. */
  datatype Layout = Layout(long: bool, sizes: seq<nat>, windows: seq<nat>)

  /** A window group: its sections, and the quantised values of every band in every window. */
  datatype Group = Group(sections: seq<Sections.Section>, bands: seq<seq<seq<int>>>)

  /** The codes: of scalefactor differences, and of each spectral codebook. */
  datatype Tables = Tables(factors: seq<Word>, spectral: seq<seq<Word>>)

  ghost predicate AreTables(t: Tables) {
    && Factors.IsCode(t.factors) && |t.spectral| == Sections.BOOKS
    && forall cb | 1 <= cb < Sections.BOOKS :: Spectral.IsCode(cb, t.spectral[cb])
  }

  // ----- spectral values, band by band and window by window

  datatype Item = Item(book: nat, values: seq<int>)
  datatype Shape = Shape(book: nat, size: nat)

  ghost predicate ItemOk(i: Item) {
    i.book < Sections.BOOKS && (i.book > 0 ==> Spectral.Whole(i.book, |i.values|))
  }

  /** The values of one band in each window of its group. */
  function BandItems(book: nat, windows: seq<seq<int>>): (r: seq<Item>)
    ensures |r| == |windows|
  {
    seq(|windows|, w requires 0 <= w < |windows| => Item(book, windows[w]))
  }

  function GroupItems(books: seq<nat>, bands: seq<seq<seq<int>>>): seq<Item>
    requires |books| == |bands|
  {
    if books == [] then [] else BandItems(books[0], bands[0]) + GroupItems(books[1..], bands[1..])
  }

  function Books(g: Group): seq<nat> {
    Sections.Expand(g.sections)
  }

  ghost predicate GroupOk(g: Group, sizes: seq<nat>, windows: nat) {
    && (forall k | 0 <= k < |g.sections| :: g.sections[k].book < Sections.BOOKS && g.sections[k].run > 0)
    && |Books(g)| == |g.bands| == |sizes| < 256
    && (forall i | 0 <= i < |g.bands| :: BandOk(Books(g)[i], g.bands[i], sizes[i], windows))
  }

  ghost predicate BandOk(book: nat, band: seq<seq<int>>, size: nat, windows: nat) {
    && book < Sections.BOOKS && (book > 0 ==> Spectral.Whole(book, size))
    && |band| == windows && forall w | 0 <= w < windows :: |band[w]| == size
  }

  ghost predicate GroupsOk(groups: seq<Group>, sizes: seq<nat>, windows: seq<nat>) {
    |groups| == |windows| && forall g | 0 <= g < |groups| :: GroupOk(groups[g], sizes, windows[g])
  }

  function AllItems(groups: seq<Group>): seq<Item>
    requires forall g | 0 <= g < |groups| :: |Books(groups[g])| == |groups[g].bands|
  {
    if groups == [] then [] else GroupItems(Books(groups[0]), groups[0].bands) + AllItems(groups[1..])
  }

  /** The shapes of the bands, as the decoder works them out from the codebooks. */
  function GroupShapes(books: seq<nat>, sizes: seq<nat>, windows: nat): seq<Shape>
    requires |books| == |sizes|
  {
    if books == [] then []
    else seq(windows, _ => Shape(books[0], sizes[0])) + GroupShapes(books[1..], sizes[1..], windows)
  }

  function AllShapes(books: seq<seq<nat>>, sizes: seq<nat>, windows: seq<nat>): seq<Shape>
    requires |books| == |windows| && forall g | 0 <= g < |books| :: |books[g]| == |sizes|
  {
    if books == [] then [] else GroupShapes(books[0], sizes, windows[0]) + AllShapes(books[1..], sizes, windows[1..])
  }

  function ShapeOf(i: Item): Shape {
    Shape(i.book, |i.values|)
  }

  ghost predicate Shaped(items: seq<Item>, shapes: seq<Shape>) {
    |items| == |shapes| && forall k | 0 <= k < |items| :: ShapeOf(items[k]) == shapes[k] && ItemOk(items[k])
  }

  lemma ShapedJoin(a: seq<Item>, s: seq<Shape>, b: seq<Item>, t: seq<Shape>)
    requires Shaped(a, s) && Shaped(b, t)
    ensures Shaped(a + b, s + t)
  {
  }

  lemma {:induction false} GroupShaped(books: seq<nat>, bands: seq<seq<seq<int>>>, sizes: seq<nat>, windows: nat)
    requires |books| == |bands| == |sizes| && forall i | 0 <= i < |bands| :: BandOk(books[i], bands[i], sizes[i], windows)
    ensures Shaped(GroupItems(books, bands), GroupShapes(books, sizes, windows))
  {
    if books != [] {
      GroupShaped(books[1..], bands[1..], sizes[1..], windows);
      assert BandOk(books[0], bands[0], sizes[0], windows);
      ShapedJoin(BandItems(books[0], bands[0]), seq(windows, _ => Shape(books[0], sizes[0])),
                 GroupItems(books[1..], bands[1..]), GroupShapes(books[1..], sizes[1..], windows));
    }
  }

  function AllBooks(groups: seq<Group>): (b: seq<seq<nat>>)
    ensures |b| == |groups| && forall g | 0 <= g < |groups| :: b[g] == Books(groups[g])
  {
    seq(|groups|, g requires 0 <= g < |groups| => Books(groups[g]))
  }

  lemma {:induction false} AllShaped(groups: seq<Group>, sizes: seq<nat>, windows: seq<nat>)
    requires GroupsOk(groups, sizes, windows)
    ensures Shaped(AllItems(groups), AllShapes(AllBooks(groups), sizes, windows))
  {
    if groups != [] {
      assert GroupOk(groups[0], sizes, windows[0]);
      GroupShaped(Books(groups[0]), groups[0].bands, sizes, windows[0]);
      AllShaped(groups[1..], sizes, windows[1..]);
      assert AllBooks(groups)[1..] == AllBooks(groups[1..]);
      ShapedJoin(GroupItems(Books(groups[0]), groups[0].bands), GroupShapes(Books(groups[0]), sizes, windows[0]),
                 AllItems(groups[1..]), AllShapes(AllBooks(groups[1..]), sizes, windows[1..]));
    }
  }

  ghost function WriteItems(t: Tables, items: seq<Item>): Word
    requires AreTables(t) && forall k | 0 <= k < |items| :: ItemOk(items[k])
  {
    if items == [] then []
    else WriteItem(t, items[0]) + WriteItems(t, items[1..])
  }

  ghost function WriteItem(t: Tables, i: Item): Word
    requires AreTables(t) && ItemOk(i)
  {
    if i.book == 0 then []
    else
      assert Spectral.IsCode(i.book, t.spectral[i.book]);
      Spectral.WriteBand(i.book, t.spectral[i.book], i.values)
  }

  /** The decoder clears a band with no codebook, and reads the others. */
  ghost function ReadItem(t: Tables, stream: Word, s: Shape): Option<(seq<int>, Word)>
    requires AreTables(t)
  {
    if s.book == 0 then Some((seq(s.size, _ => 0), stream))
    else if s.book >= Sections.BOOKS || !Spectral.Whole(s.book, s.size) then None
    else Spectral.ReadBand(s.book, t.spectral[s.book], stream, s.size)
  }

  ghost function ReadItems(t: Tables, stream: Word, shapes: seq<Shape>): Option<(seq<seq<int>>, Word)>
    requires AreTables(t)
    decreases |shapes|
  {
    if shapes == [] then Some(([], stream))
    else
      var v := ReadItem(t, stream, shapes[0]);
      if v.None? then None
      else
        var rest := ReadItems(t, v.value.1, shapes[1..]);
        if rest.None? then None else Some(([v.value.0] + rest.value.0, rest.value.1))
  }

  /** What the decoder has for a band: nothing without a codebook, and else its values cut to the codebook's range. */
  function Kept(i: Item): (v: seq<int>)
    ensures |v| == |i.values|
  {
    if i.book == 0 then seq(|i.values|, _ => 0) else Spectral.ClampAll(i.book, i.values)
  }

  function AllKept(items: seq<Item>): (v: seq<seq<int>>)
    ensures |v| == |items|
  {
    seq(|items|, k requires 0 <= k < |items| => Kept(items[k]))
  }

  lemma ItemBack(t: Tables, i: Item, rest: Word)
    requires AreTables(t) && ItemOk(i)
    ensures ReadItem(t, WriteItem(t, i) + rest, ShapeOf(i)) == Some((Kept(i), rest))
  {
    hide Spectral.IsCode, Spectral.WriteBand, Spectral.ReadBand, Spectral.ClampAll, Factors.IsCode;
    if i.book == 0 {
      assert WriteItem(t, i) + rest == rest;
    } else {
      assert Spectral.IsCode(i.book, t.spectral[i.book]);
      Spectral.BandBack(i.book, t.spectral[i.book], i.values, rest);
    }
  }

  lemma {:induction false} ItemsBack(t: Tables, items: seq<Item>, shapes: seq<Shape>, rest: Word)
    requires AreTables(t) && Shaped(items, shapes)
    ensures ReadItems(t, WriteItems(t, items) + rest, shapes) == Some((AllKept(items), rest))
  {
    hide AreTables, WriteItem, ReadItem, Kept;
    if items == [] {
      assert WriteItems(t, items) + rest == rest;
    } else {
      var tail := WriteItems(t, items[1..]) + rest;
      assert WriteItems(t, items) + rest == WriteItem(t, items[0]) + tail;
      ItemBack(t, items[0], tail);
      assert Shaped(items[1..], shapes[1..]);
      ItemsBack(t, items[1..], shapes[1..], rest);
      assert AllKept(items) == [Kept(items[0])] + AllKept(items[1..]);
    }
  }

  // ----- sections of all groups

  function WriteAllSections(long: bool, groups: seq<Group>): Word {
    if groups == [] then [] else Sections.WriteSections(long, groups[0].sections) + WriteAllSections(long, groups[1..])
  }

  function ReadAllSections(long: bool, stream: Word, n: nat, max: nat): Option<(seq<seq<nat>>, Word)>
    decreases n
  {
    if n == 0 then Some(([], stream))
    else
      var b := Sections.ReadSections(long, stream, 0, max);
      if b.None? then None
      else
        var rest := ReadAllSections(long, b.value.1, n - 1, max);
        if rest.None? then None else Some(([b.value.0] + rest.value.0, rest.value.1))
  }

  lemma {:induction false} AllSectionsBack(long: bool, groups: seq<Group>, sizes: seq<nat>, windows: seq<nat>, rest: Word)
    requires GroupsOk(groups, sizes, windows)
    ensures ReadAllSections(long, WriteAllSections(long, groups) + rest, |groups|, |sizes|) == Some((AllBooks(groups), rest))
  {
    hide Sections.WriteSections, Sections.ReadSections, Sections.Expand;
    if groups == [] {
      assert WriteAllSections(long, groups) + rest == rest;
    } else {
      var tail := WriteAllSections(long, groups[1..]) + rest;
      assert WriteAllSections(long, groups) + rest == Sections.WriteSections(long, groups[0].sections) + tail;
      assert GroupOk(groups[0], sizes, windows[0]);
      Sections.SectionsBack(long, groups[0].sections, 0, |sizes|, tail);
      AllSectionsBack(long, groups[1..], sizes, windows[1..], rest);
      assert AllBooks(groups) == [Books(groups[0])] + AllBooks(groups[1..]);
    }
  }

  /** How many bands have a codebook, and so a scalefactor. */
  function Count(books: seq<nat>): nat {
    if books == [] then 0 else (if books[0] == 0 then 0 else 1) + Count(books[1..])
  }

  function CountAll(books: seq<seq<nat>>): nat {
    if books == [] then 0 else Count(books[0]) + CountAll(books[1..])
  }

  // ----- the window shape and grouping

  /** Whether a channel has its own window information: its window sequence, 2 for eight short windows, and window shape. */
  datatype Ics = Common | Own(sequence: nat, kb: bool)

  /** The sizes of all bands, in long windows and in short ones. */
  datatype Swb = Swb(long: seq<nat>, short: seq<nat>)

  const EIGHT_SHORT: nat := 2

  function SumOf(windows: seq<nat>): nat {
    if windows == [] then 0 else SumOf(windows[..|windows| - 1]) + windows[|windows| - 1]
  }

  function Trues(n: nat): (w: Word)
    ensures |w| == n
  {
    if n == 0 then [] else Trues(n - 1) + [true]
  }

  /** A bit for every window: does it go on with the group of the window before? */
  function Continues(windows: seq<nat>): (w: Word)
    requires forall g | 0 <= g < |windows| :: windows[g] > 0
    ensures |w| == SumOf(windows) && (windows != [] ==> |w| > 0 && !w[0])
  {
    if windows == [] then []
    else var n := |windows| - 1; Continues(windows[..n]) + ([false] + Trues(windows[n] - 1))
  }

  /** The decoder counts the windows of each group. */
  function GroupsOf(continues: Word): seq<nat> {
    if continues == [] then []
    else
      var n := |continues| - 1;
      var g := GroupsOf(continues[..n]);
      if continues[n] && g != [] then g[|g| - 1 := g[|g| - 1] + 1] else g + [1]
  }

  lemma GroupsOfSnoc(c: Word, b: bool)
    ensures var g := GroupsOf(c);
            GroupsOf(c + [b]) == if b && g != [] then g[|g| - 1 := g[|g| - 1] + 1] else g + [1]
    ensures GroupsOf([]) == []
  {
    assert (c + [b])[..|c|] == c;
  }

  lemma ContinuesUnfold(windows: seq<nat>, k: nat)
    requires k > 0 && forall g | 0 <= g < |windows| :: windows[g] > 0
    ensures forall g | 0 <= g < |windows + [k]| :: (windows + [k])[g] > 0
    ensures Continues(windows + [k]) == Continues(windows) + ([false] + Trues(k - 1))
    ensures Continues([]) == []
  {
    assert (windows + [k])[..|windows|] == windows;
  }

  lemma ContinuesSnoc(windows: seq<nat>, k: nat)
    requires k > 0 && forall g | 0 <= g < |windows| :: windows[g] > 0
    ensures Continues(windows + [k]) == if k == 1 then Continues(windows) + [false] else Continues(windows + [k - 1]) + [true]
    ensures Continues([]) == []
  {
    hide Continues;
    ContinuesUnfold(windows, k);
    if k == 1 {
      assert [false] + Trues(0) == [false];
    } else {
      ContinuesUnfold(windows, k - 1);
      OneTrueMore(Continues(windows), Trues(k - 2));
      assert Trues(k - 1) == Trues(k - 2) + [true];
    }
  }

  lemma OneTrueMore(a: Word, b: Word)
    ensures a + ([false] + (b + [true])) == (a + ([false] + b)) + [true]
  {
  }

  lemma {:induction false} GroupsBack(windows: seq<nat>)
    requires forall g | 0 <= g < |windows| :: windows[g] > 0
    ensures GroupsOf(Continues(windows)) == windows
    decreases SumOf(windows)
  {
    hide GroupsOf, Continues;
    if windows == [] {
      ContinuesSnoc([], 1);
      GroupsOfSnoc([], false);
    } else {
      var n := |windows| - 1;
      var ws, k := windows[..n], windows[n];
      assert windows == ws + [k];
      ContinuesSnoc(ws, k);
      if k == 1 {
        GroupsBack(ws);
        GroupsOfSnoc(Continues(ws), false);
      } else {
        assert (ws + [k - 1])[..n] == ws;
        GroupsBack(ws + [k - 1]);
        GroupsOfSnoc(Continues(ws + [k - 1]), true);
      }
    }
  }

  ghost predicate IcsOk(f: Ics, l: Layout, swb: Swb) {
    f.Own? ==>
      && f.sequence < 4 && (l.long <==> f.sequence != EIGHT_SHORT)
      && (forall g | 0 <= g < |l.windows| :: l.windows[g] > 0)
      && if l.long then l.windows == [1] && l.sizes <= swb.long && |l.sizes| < 64
         else SumOf(l.windows) == 8 && l.sizes <= swb.short && |l.sizes| < 16
  }

  function WriteIcs(f: Ics, l: Layout, swb: Swb): Word
    requires IcsOk(f, l, swb)
  {
    if f.Common? then []
    else
      [false] + (ToWord(f.sequence, 2) + ([f.kb] +
        if l.long then ToWord(|l.sizes|, 6) + [false]
        else ToWord(|l.sizes|, 4) + Continues(l.windows)[1..]))
  }

  /** The length of each group at its first window, and zero at the others. */
  function GroupLens(windows: seq<nat>): (r: seq<nat>)
    requires forall g | 0 <= g < |windows| :: windows[g] > 0
    ensures |r| == SumOf(windows)
  {
    if windows == [] then []
    else var n := |windows| - 1; GroupLens(windows[..n]) + ([windows[n]] + seq(windows[n] - 1, _ => 0))
  }

  lemma {:induction false} LensContinue(windows: seq<nat>, w: nat)
    requires (forall g | 0 <= g < |windows| :: windows[g] > 0) && w < SumOf(windows)
    ensures Continues(windows)[w] == (GroupLens(windows)[w] == 0)
  {
    hide Continues, GroupLens, Trues;
    var n := |windows| - 1;
    LastLens(windows);
    if w < SumOf(windows[..n]) {
      LensContinue(windows[..n], w);
    } else {
      TruesAre(windows[n] - 1);
    }
  }

  lemma LastLens(windows: seq<nat>)
    requires windows != [] && forall g | 0 <= g < |windows| :: windows[g] > 0
    ensures var n := |windows| - 1;
            && SumOf(windows) == SumOf(windows[..n]) + windows[n]
            && Continues(windows) == Continues(windows[..n]) + ([false] + Trues(windows[n] - 1))
            && GroupLens(windows) == GroupLens(windows[..n]) + ([windows[n]] + seq(windows[n] - 1, _ => 0))
  {
    hide Trues;
  }

  lemma {:induction false} TruesAre(n: nat)
    ensures forall k | 0 <= k < n :: Trues(n)[k]
  {
    if n > 0 {
      TruesAre(n - 1);
    }
  }

  /** Writes the window information, the grouping window by window. */
  method PutIcsInfo(f: Ics, l: Layout, swb: Swb, groupLen: seq<nat>) returns (out: Word)
    requires IcsOk(f, l, swb) && f.Own? && groupLen == GroupLens(l.windows)
    ensures out == WriteIcs(f, l, swb)
  {
    hide ToWord, GroupLens, Continues;
    out := [false] + ToWord(f.sequence, 2) + [f.kb];
    if f.sequence != EIGHT_SHORT {
      out := out + ToWord(|l.sizes|, 6) + [false];
    } else {
      out := out + ToWord(|l.sizes|, 4);
      ghost var before := out;
      ghost var bits := Continues(l.windows);
      for w := 1 to 8
        invariant out == before + bits[1..w]
      {
        LensContinue(l.windows, w);
        assert bits[1..w + 1] == bits[1..w] + [bits[w]];
        out := out + [groupLen[w] == 0];
      }
      assert bits[1..8] == bits[1..];
      assert out == [false] + (ToWord(f.sequence, 2) + ([f.kb] + (ToWord(|l.sizes|, 4) + bits[1..])));
    }
  }

  function ReadIcs(stream: Word, swb: Swb): Option<(Ics, Layout, Word)> {
    if stream == [] || stream[0] then None
    else
      var s := GetBits(stream[1..], 2);
      if s.None? || s.value.1 == [] then None
      else
        var f, after := Own(s.value.0, s.value.1[0]), s.value.1[1..];
        var m := GetBits(after, if s.value.0 == EIGHT_SHORT then 4 else 6);
        if m.None? then None
        else if s.value.0 == EIGHT_SHORT then
          if |m.value.1| < 7 || m.value.0 > |swb.short| then None
          else Some((f, Layout(false, swb.short[..m.value.0], GroupsOf([false] + m.value.1[..7])), m.value.1[7..]))
        else if m.value.1 == [] || m.value.1[0] || m.value.0 > |swb.long| then None
        else Some((f, Layout(true, swb.long[..m.value.0], [1]), m.value.1[1..]))
  }

  /** The decoder reads back window sequence and shape, number of bands and grouping; prediction is never used. */
  lemma IcsBack(f: Ics, l: Layout, swb: Swb, rest: Word)
    requires IcsOk(f, l, swb) && f.Own?
    ensures ReadIcs(WriteIcs(f, l, swb) + rest, swb) == Some((f, l, rest))
  {
    hide ToWord, GetBits, Continues, GroupsOf, Pow2, Value, SumOf;
    PowersOfTwo();
    var tail: Word := if l.long then [false] + rest else Continues(l.windows)[1..] + rest;
    var width := if l.long then 6 else 4;
    var bands := ToWord(|l.sizes|, width) + tail;
    var stream := WriteIcs(f, l, swb) + rest;
    assert stream == [false] + (ToWord(f.sequence, 2) + ([f.kb] + bands));
    assert !stream[0] && stream[1..] == ToWord(f.sequence, 2) + ([f.kb] + bands);
    GetBack(f.sequence, 2, [f.kb] + bands);
    assert ([f.kb] + bands)[1..] == bands && ([f.kb] + bands)[0] == f.kb;
    GetBack(|l.sizes|, width, tail);
    if l.long {
      assert tail[1..] == rest && !tail[0];
      assert swb.long[..|l.sizes|] == l.sizes;
    } else {
      GroupsBack(l.windows);
      StartsGroup(l.windows);
      assert |tail| >= 7 && tail[..7] == Continues(l.windows)[1..] && tail[7..] == rest;
      assert [false] + tail[..7] == Continues(l.windows);
      assert swb.short[..|l.sizes|] == l.sizes;
    }
  }

  lemma StartsGroup(windows: seq<nat>)
    requires (forall g | 0 <= g < |windows| :: windows[g] > 0) && SumOf(windows) == 8
    ensures |Continues(windows)| == 8 && !Continues(windows)[0]
  {
  }

  lemma PowersOfTwo()
    ensures Pow2(2) == 4 && Pow2(4) == 16 && Pow2(6) == 64 && Pow2(8) == 256
  {
    assert Pow2(2) == 4;
    assert Pow2(4) == 16;
    assert Pow2(6) == 64;
  }

  // ----- the channel

  datatype Channel = Channel(gain: nat, groups: seq<Group>, factors: seq<int>)

  ghost predicate ChannelOk(c: Channel, l: Layout) {
    && c.gain < 256 && GroupsOk(c.groups, l.sizes, l.windows)
    && Factors.Codable(c.gain, c.factors) && |c.factors| == CountAll(AllBooks(c.groups))
  }

  /** Gain, window information unless it is common, sections, scalefactors, no pulses, no temporal noise shaping, no gain
      control, and the spectrum. */
  ghost function WriteChannel(t: Tables, c: Channel, l: Layout, f: Ics, swb: Swb): Word
    requires AreTables(t) && ChannelOk(c, l) && IcsOk(f, l, swb)
  {
    AllShaped(c.groups, l.sizes, l.windows);
    ToWord(c.gain, 8) + (WriteIcs(f, l, swb) + (WriteAllSections(l.long, c.groups)
      + (Factors.WriteDifferences(t.factors, c.gain, c.factors)
         + ([false, false, false] + WriteItems(t, AllItems(c.groups))))))
  }

  datatype Heard = Heard(gain: nat, window: Ics, books: seq<seq<nat>>, factors: seq<int>, values: seq<seq<int>>)

  /** The decoder's reading of a channel that uses none of the three tools; known is the layout of a common window. */
  ghost function ReadChannel(t: Tables, stream: Word, known: Option<Layout>, swb: Swb): Option<(Heard, Word)>
    requires AreTables(t)
  {
    var gain := GetBits(stream, 8);
    if gain.None? then None
    else
      var window := if known.Some? then Some((Common, known.value, gain.value.1)) else ReadIcs(gain.value.1, swb);
      if window.None? then None
      else
        ReadBody(t, window.value.2, window.value.1, gain.value.0, window.value.0)
  }

  ghost function ReadBody(t: Tables, stream: Word, l: Layout, gain: nat, window: Ics): Option<(Heard, Word)>
    requires AreTables(t)
  {
    var books := ReadAllSections(l.long, stream, |l.windows|, |l.sizes|);
    if books.None? then None
    else
      var factors := Factors.ReadDifferences(t.factors, books.value.1, gain, CountAll(books.value.0));
      if factors.None? || |factors.value.1| < 3 || factors.value.1[..3] != [false, false, false] then None
      else if |books.value.0| != |l.windows| || exists g :: 0 <= g < |l.windows| && |books.value.0[g]| != |l.sizes| then None
      else
        var values := ReadItems(t, factors.value.1[3..], AllShapes(books.value.0, l.sizes, l.windows));
        if values.None? then None
        else Some((Heard(gain, window, books.value.0, factors.value.0, values.value.0), values.value.1))
  }

  /** What the decoder has to know beforehand: the layout of a common window. */
  function Known(f: Ics, l: Layout): Option<Layout> {
    if f.Common? then Some(l) else None
  }

  /** The decoder gets back the whole channel: gain, window sequence, shape and layout, codebook of every band, scalefactor of
      every band that has one, and the values of every band in every window; and it leaves the rest of the stream. */
  lemma ChannelBack(t: Tables, c: Channel, l: Layout, f: Ics, swb: Swb, rest: Word)
    requires AreTables(t) && ChannelOk(c, l) && IcsOk(f, l, swb)
    ensures ReadChannel(t, WriteChannel(t, c, l, f, swb) + rest, Known(f, l), swb) ==
            Some((Heard(c.gain, f, AllBooks(c.groups), c.factors, AllKept(AllItems(c.groups))), rest))
  {
    hide WriteAllSections, WriteItems, AllItems, ReadBody, CountAll, AllBooks, AllKept, ToWord, GetBits, Pow2, WriteIcs, ReadIcs;
    hide Factors.WriteDifferences, Factors.Codable, Spectral.IsCode, PrefixFree, IcsOk, Books;
    BodyBack(t, c, l, f, rest);
    var body := WriteAllSections(l.long, c.groups)
      + (Factors.WriteDifferences(t.factors, c.gain, c.factors) + ([false, false, false] + WriteItems(t, AllItems(c.groups))));
    assert WriteChannel(t, c, l, f, swb) + rest == ToWord(c.gain, 8) + (WriteIcs(f, l, swb) + (body + rest));
    PowersOfTwo();
    GetBack(c.gain, 8, WriteIcs(f, l, swb) + (body + rest));
    if f.Common? {
      assert WriteIcs(f, l, swb) + (body + rest) == body + rest by { NoIcs(l, swb); }
    } else {
      IcsBack(f, l, swb, body + rest);
    }
  }

  lemma NoIcs(l: Layout, swb: Swb)
    ensures WriteIcs(Common, l, swb) == []
  {
  }

  lemma BodyBack(t: Tables, c: Channel, l: Layout, f: Ics, rest: Word)
    requires AreTables(t) && ChannelOk(c, l)
    ensures forall k | 0 <= k < |AllItems(c.groups)| :: ItemOk(AllItems(c.groups)[k])
    ensures ReadBody(t, WriteAllSections(l.long, c.groups)
              + (Factors.WriteDifferences(t.factors, c.gain, c.factors) + ([false, false, false] + WriteItems(t, AllItems(c.groups))))
              + rest, l, c.gain, f)
         == Some((Heard(c.gain, f, AllBooks(c.groups), c.factors, AllKept(AllItems(c.groups))), rest))
  {
    hide WriteAllSections, ReadAllSections, WriteItems, ReadItems, AllItems, AllShapes, CountAll, Shaped;
    hide Factors.WriteDifferences, Factors.ReadDifferences, Factors.Codable, Spectral.IsCode, Books, PrefixFree;
    AllShaped(c.groups, l.sizes, l.windows);
    ShapedOk(AllItems(c.groups), AllShapes(AllBooks(c.groups), l.sizes, l.windows));
    var spectrum := WriteItems(t, AllItems(c.groups)) + rest;
    var tools := [false, false, false] + spectrum;
    var factors := Factors.WriteDifferences(t.factors, c.gain, c.factors) + tools;
    assert WriteAllSections(l.long, c.groups)
      + (Factors.WriteDifferences(t.factors, c.gain, c.factors) + ([false, false, false] + WriteItems(t, AllItems(c.groups))))
      + rest == WriteAllSections(l.long, c.groups) + factors;
    AllSectionsBack(l.long, c.groups, l.sizes, l.windows, factors);
    Factors.DifferencesBack(t.factors, c.gain, c.factors, tools);
    assert tools[..3] == [false, false, false] && tools[3..] == spectrum;
    ItemsBack(t, AllItems(c.groups), AllShapes(AllBooks(c.groups), l.sizes, l.windows), rest);
  }

  // ----- from the search to the decoder

  function FlatBooks(groups: seq<Group>): seq<nat> {
    if groups == [] then [] else Books(groups[0]) + FlatBooks(groups[1..])
  }

  lemma {:induction false} CountJoin(a: seq<nat>, b: seq<nat>)
    ensures Count(a + b) == Count(a) + Count(b)
  {
    if a == [] {
      assert a + b == b;
    } else {
      CountJoin(a[1..], b);
      assert (a + b)[1..] == a[1..] + b;
    }
  }

  lemma {:induction false} CountFlat(groups: seq<Group>)
    ensures CountAll(AllBooks(groups)) == Count(FlatBooks(groups))
  {
    if groups != [] {
      CountFlat(groups[1..]);
      CountJoin(Books(groups[0]), FlatBooks(groups[1..]));
      assert AllBooks(groups)[1..] == AllBooks(groups[1..]);
    }
  }

  /** The zero flags are those the section writer leaves: set exactly for codebook 0, in coding order. */
  ghost predicate Flagged(zeroes: seq<bool>, order: seq<nat>, books: seq<nat>) {
    |books| == |order| && forall k | 0 <= k < |order| :: order[k] < |zeroes| && zeroes[order[k]] == (books[k] == 0)
  }

  lemma {:induction false} CodedCount(sf: seq<int>, zeroes: seq<bool>, order: seq<nat>, books: seq<nat>, n: nat)
    requires Factors.IsOrder(order, |sf|) && |zeroes| == |sf| && Flagged(zeroes, order, books) && n <= |order|
    ensures |Factors.CodedFrom(sf, zeroes, order, n)| == Count(books[n..])
    decreases |order| - n
  {
    if n < |order| {
      CodedCount(sf, zeroes, order, books, n + 1);
      assert books[n..][1..] == books[n + 1..];
    }
  }

  /** Scalefactors within 60 of each other, as both searches leave them, make a channel that can be written and is read
      back whole. */
  lemma SearchedChannelBack(t: Tables, sf: seq<int>, zeroes: seq<bool>, order: seq<nat>, groups: seq<Group>, l: Layout,
                            f: Ics, swb: Swb, rest: Word)
    requires AreTables(t) && GroupsOk(groups, l.sizes, l.windows) && IcsOk(f, l, swb)
    requires Factors.IsOrder(order, |sf|) && |zeroes| == |sf| && Flagged(zeroes, order, FlatBooks(groups))
    requires Factors.Spread(sf, order) && forall k | 0 <= k < |order| :: 0 <= sf[order[k]] <= 255
    ensures 0 <= sf[0]
    ensures var c := Channel(sf[0], groups, Factors.CodedFrom(sf, zeroes, order, 0));
            && ChannelOk(c, l)
            && ReadChannel(t, WriteChannel(t, c, l, f, swb) + rest, Known(f, l), swb) ==
               Some((Heard(sf[0], f, AllBooks(groups), c.factors, AllKept(AllItems(groups))), rest))
  {
    hide AreTables, GroupsOk, Factors.Codable, Factors.Spread, CountAll, Count, FlatBooks, Flagged, ReadChannel, WriteChannel;
    hide AllItems, Factors.CodedFrom;
    assert sf[0] == sf[order[0]];
    Factors.SpreadCodable(sf, zeroes, order, 0, 0);
    CodedCount(sf, zeroes, order, FlatBooks(groups), 0);
    assert FlatBooks(groups)[0..] == FlatBooks(groups);
    CountFlat(groups);
    ChannelBack(t, Channel(sf[0], groups, Factors.CodedFrom(sf, zeroes, order, 0)), l, f, swb, rest);
  }

  lemma ShapedOk(items: seq<Item>, shapes: seq<Shape>)
    requires Shaped(items, shapes)
    ensures forall k | 0 <= k < |items| :: ItemOk(items[k])
  {
  }

  // ----- the loops that write the spectrum

  lemma {:induction false} WriteItemsJoin(t: Tables, a: seq<Item>, b: seq<Item>)
    requires AreTables(t) && (forall k | 0 <= k < |a| :: ItemOk(a[k])) && (forall k | 0 <= k < |b| :: ItemOk(b[k]))
    ensures WriteItems(t, a + b) == WriteItems(t, a) + WriteItems(t, b)
  {
    hide AreTables, WriteItem;
    if a == [] {
      assert a + b == b;
    } else {
      WriteItemsJoin(t, a[1..], b);
      assert (a + b)[1..] == a[1..] + b;
    }
  }

  lemma {:induction false} NothingWritten(t: Tables, items: seq<Item>)
    requires AreTables(t) && forall k | 0 <= k < |items| :: ItemOk(items[k]) && items[k].book == 0
    ensures WriteItems(t, items) == []
  {
    hide AreTables;
    if items != [] {
      NothingWritten(t, items[1..]);
    }
  }

  lemma OneItem(t: Tables, i: Item)
    requires AreTables(t) && ItemOk(i)
    ensures WriteItems(t, [i]) == WriteItem(t, i)
  {
    hide AreTables, WriteItem;
    assert [i][1..] == [];
  }

  method EncodeBandWindows(t: Tables, book: nat, windows: seq<seq<int>>) returns (out: Word)
    requires AreTables(t) && 0 < book < Sections.BOOKS
    requires forall w | 0 <= w < |windows| :: Spectral.Whole(book, |windows[w]|)
    ensures out == WriteItems(t, BandItems(book, windows))
  {
    hide Factors.IsCode, Spectral.IsCode, Spectral.WriteBand;
    out := [];
    for w := 0 to |windows|
      invariant out == WriteItems(t, BandItems(book, windows[..w]))
    {
      assert Spectral.IsCode(book, t.spectral[book]);
      var bits, n := Spectral.EncodeBand(book, t.spectral[book], windows[w]);
      OneItem(t, Item(book, windows[w]));
      WriteItemsJoin(t, BandItems(book, windows[..w]), [Item(book, windows[w])]);
      assert BandItems(book, windows[..w + 1]) == BandItems(book, windows[..w]) + [Item(book, windows[w])];
      out := out + bits;
    }
    assert windows[..|windows|] == windows;
  }

  lemma {:induction false} GroupItemsLast(books: seq<nat>, bands: seq<seq<seq<int>>>, book: nat, band: seq<seq<int>>)
    requires |books| == |bands|
    ensures GroupItems(books + [book], bands + [band]) == GroupItems(books, bands) + BandItems(book, band)
  {
    if books == [] {
      assert GroupItems([book][1..], [band][1..]) == [];
    } else {
      GroupItemsLast(books[1..], bands[1..], book, band);
      assert (books + [book])[1..] == books[1..] + [book] && (bands + [band])[1..] == bands[1..] + [band];
    }
  }

  /** The spectrum of one window group: no bits for a band without a codebook. */
  method EncodeSpectralCoeffs(t: Tables, g: Group, ghost sizes: seq<nat>, ghost windows: nat) returns (out: Word)
    requires AreTables(t) && GroupOk(g, sizes, windows)
    ensures Writes(t, out, GroupItems(Books(g), g.bands))
  {
    hide AreTables, Sections.Expand, BandItems, GroupItems, ItemOk, WriteItems;
    var books := Books(g);
    out := [];
    NoItems(t);
    for i := 0 to |books|
      invariant Writes(t, out, GroupItems(books[..i], g.bands[..i]))
    {
      BandItemsOk(g, sizes, windows, i);
      GroupItemsLast(books[..i], g.bands[..i], books[i], g.bands[i]);
      assert books[..i + 1] == books[..i] + [books[i]] && g.bands[..i + 1] == g.bands[..i] + [g.bands[i]];
      var items := BandItems(books[i], g.bands[i]);
      if books[i] == 0 {
        NothingWritten(t, items);
        WritesMore(t, out, GroupItems(books[..i], g.bands[..i]), [], items);
        assert out + [] == out;
      } else {
        var bits := EncodeBandWindows(t, books[i], g.bands[i]);
        WritesMore(t, out, GroupItems(books[..i], g.bands[..i]), bits, items);
        out := out + bits;
      }
    }
    assert books[..|books|] == books && g.bands[..|g.bands|] == g.bands;
  }

  /** These bits are what is written for these items. */
  ghost predicate Writes(t: Tables, out: Word, items: seq<Item>)
    requires AreTables(t)
  {
    (forall k | 0 <= k < |items| :: ItemOk(items[k])) && out == WriteItems(t, items)
  }

  lemma NoItems(t: Tables)
    requires AreTables(t)
    ensures GroupItems([], []) == [] && WriteItems(t, []) == []
  {
  }

  lemma WritesMore(t: Tables, out: Word, items: seq<Item>, bits: Word, more: seq<Item>)
    requires AreTables(t) && Writes(t, out, items) && Writes(t, bits, more)
    ensures Writes(t, out + bits, items + more)
  {
    hide AreTables;
    WriteItemsJoin(t, items, more);
  }

  lemma BandItemsOk(g: Group, sizes: seq<nat>, windows: nat, i: nat)
    requires GroupOk(g, sizes, windows) && i < |g.bands|
    ensures Books(g)[i] < Sections.BOOKS
    ensures forall k | 0 <= k < |BandItems(Books(g)[i], g.bands[i])| ::
              ItemOk(BandItems(Books(g)[i], g.bands[i])[k]) && BandItems(Books(g)[i], g.bands[i])[k].book == Books(g)[i]
    ensures Books(g)[i] > 0 ==> forall w | 0 <= w < |g.bands[i]| :: Spectral.Whole(Books(g)[i], |g.bands[i][w]|)
  {
    assert BandOk(Books(g)[i], g.bands[i], sizes[i], windows);
  }
}
