/** One channel of the AAC encoder from its scalefactors to the bitstream: sections, differences and spectrum in order. */
module AacEncoder {
  import opened PrefixCode
  import opened Wrappers
  import Sections = AacSections
  import Factors = AacScalefactors
  import Spectral = AacSpectral
  import Channel = AacChannel
  import Rate = AacRate

  const SLOTS: nat := 128

  /** The first window of a group. */
  function First(windows: seq<nat>, g: nat): nat
    requires g <= |windows|
  {
    Channel.SumOf(windows[..g])
  }

  /** Sixteen slots a window; a long window has them all. */
  ghost predicate LayoutOk(l: Channel.Layout) {
    && (forall g | 0 <= g < |l.windows| :: l.windows[g] > 0)
    && (forall i | 0 <= i < |l.sizes| :: Rate.AnyBook(l.sizes[i]))
    && if l.long then l.windows == [1] && |l.sizes| <= 51 && Channel.SumOf(l.sizes) <= 1024
       else Channel.SumOf(l.windows) == 8 && |l.sizes| <= 15 && Channel.SumOf(l.sizes) <= 128
  }

  lemma {:induction false} FirstFits(windows: seq<nat>, g: nat)
    requires g < |windows|
    ensures First(windows, g + 1) == First(windows, g) + windows[g] <= Channel.SumOf(windows)
    decreases |windows| - g
  {
    assert windows[..g + 1][..g] == windows[..g];
    if g + 1 < |windows| {
      FirstFits(windows, g + 1);
    } else {
      assert windows[..g + 1] == windows;
    }
  }

  lemma {:induction false} FirstsApart(windows: seq<nat>, g: nat, h: nat)
    requires g < h < |windows|
    ensures First(windows, g) + windows[g] <= First(windows, h)
    decreases h
  {
    FirstFits(windows, h - 1);
    if g < h - 1 {
      FirstsApart(windows, g, h - 1);
    }
  }

  /** A group's slots are inside the arrays, and no two groups share one. */
  lemma SlotsFit(l: Channel.Layout, g: nat, w: nat)
    requires LayoutOk(l) && g < |l.windows| && w < l.windows[g]
    ensures 16 * (First(l.windows, g) + w) + |l.sizes| <= SLOTS
    ensures forall h | 0 <= h < |l.windows| && h != g ::
              16 * First(l.windows, g) + |l.sizes| <= 16 * First(l.windows, h)
              || 16 * First(l.windows, h) + |l.sizes| <= 16 * First(l.windows, g)
  {
    FirstFits(l.windows, g);
    if l.long {
      assert l.windows[..0] == [];
    }
    forall h | 0 <= h < |l.windows| && h != g
      ensures 16 * First(l.windows, g) + |l.sizes| <= 16 * First(l.windows, h)
              || 16 * First(l.windows, h) + |l.sizes| <= 16 * First(l.windows, g)
    {
      if g < h {
        FirstsApart(l.windows, g, h);
      } else {
        FirstsApart(l.windows, h, g);
      }
    }
  }

  // ----- the values of a group, as the trellis and as the writer take them

  type Quant = (int, int, int) -> seq<int>

  ghost predicate QuantOk(quant: Quant, sizes: seq<nat>) {
    forall w, i, x | 0 <= i < |sizes| :: |quant(w, i, x)| == sizes[i]
  }

  /** At the index of each window. */
  function ChargedOf(quant: Quant, sf: seq<int>, l: Channel.Layout, g: nat): (b: seq<seq<seq<int>>>)
    requires LayoutOk(l) && |sf| == SLOTS && g < |l.windows|
    ensures |b| == |l.sizes|
  {
    var first := First(l.windows, g);
    seq(|l.sizes|, i requires 0 <= i < |l.sizes| =>
      seq(l.windows[g], w requires 0 <= w < l.windows[g] =>
        SlotsFit(l, g, w); quant(first + w, i, sf[16 * (first + w) + i])))
  }

  /** At the index of the first window. */
  function WrittenOf(quant: Quant, sf: seq<int>, l: Channel.Layout, g: nat): (b: seq<seq<seq<int>>>)
    requires LayoutOk(l) && |sf| == SLOTS && g < |l.windows|
    ensures |b| == |l.sizes|
  {
    var first := First(l.windows, g);
    SlotsFit(l, g, 0);
    seq(|l.sizes|, i requires 0 <= i < |l.sizes| =>
      seq(l.windows[g], w requires 0 <= w < l.windows[g] => quant(first + w, i, sf[16 * first + i])))
  }

  lemma ValuesOk(quant: Quant, sf: seq<int>, l: Channel.Layout, g: nat, i: nat)
    requires LayoutOk(l) && |sf| == SLOTS && g < |l.windows| && i < |l.sizes| && QuantOk(quant, l.sizes)
    ensures Rate.WindowsOk(ChargedOf(quant, sf, l, g)[i], l.sizes[i])
    ensures Rate.WindowsOk(WrittenOf(quant, sf, l, g)[i], l.sizes[i])
    ensures |ChargedOf(quant, sf, l, g)[i]| == |WrittenOf(quant, sf, l, g)[i]| == l.windows[g]
  {
    var charged, written := ChargedOf(quant, sf, l, g)[i], WrittenOf(quant, sf, l, g)[i];
    assert |charged| == |written| == l.windows[g];
    hide Rate.AnyBook, ChargedOf, WrittenOf, LayoutOk;
    forall w | 0 <= w < l.windows[g]
      ensures |charged[w]| == l.sizes[i] && |written[w]| == l.sizes[i]
    {
      ValueOk(quant, sf, l, g, i, w);
    }
  }

  lemma ValueOk(quant: Quant, sf: seq<int>, l: Channel.Layout, g: nat, i: nat, w: nat)
    requires LayoutOk(l) && |sf| == SLOTS && g < |l.windows| && i < |l.sizes| && QuantOk(quant, l.sizes) && w < l.windows[g]
    ensures |ChargedOf(quant, sf, l, g)[i]| == |WrittenOf(quant, sf, l, g)[i]| == l.windows[g]
    ensures |ChargedOf(quant, sf, l, g)[i][w]| == |WrittenOf(quant, sf, l, g)[i][w]| == l.sizes[i]
  {
    hide Rate.AnyBook;
    var first := First(l.windows, g);
    SlotsFit(l, g, 0);
    SlotsFit(l, g, w);
    hide LayoutOk, First;
    var x, y := sf[16 * (first + w) + i], sf[16 * first + i];
    assert |quant(first + w, i, x)| == l.sizes[i] && |quant(first + w, i, y)| == l.sizes[i];
    assert ChargedOf(quant, sf, l, g)[i][w] == quant(first + w, i, x);
    assert WrittenOf(quant, sf, l, g)[i][w] == quant(first + w, i, y);
  }

  /** Every window of a group has the indices of the first. */
  ghost predicate SameInGroups(sf: seq<int>, l: Channel.Layout)
    requires LayoutOk(l) && |sf| == SLOTS
  {
    forall g, w, i | 0 <= g < |l.windows| && 0 <= w < l.windows[g] && 0 <= i < |l.sizes| :: Agrees(sf, l, g, w, i)
  }

  ghost predicate Agrees(sf: seq<int>, l: Channel.Layout, g: nat, w: nat, i: nat)
    requires LayoutOk(l) && |sf| == SLOTS && g < |l.windows| && w < l.windows[g] && i < |l.sizes|
  {
    SlotsFit(l, g, w);
    SlotsFit(l, g, 0);
    sf[16 * (First(l.windows, g) + w) + i] == sf[16 * First(l.windows, g) + i]
  }

  /** What is charged for is then what is written. */
  lemma ChargedIsWritten(quant: Quant, sf: seq<int>, l: Channel.Layout, g: nat)
    requires LayoutOk(l) && |sf| == SLOTS && g < |l.windows| && SameInGroups(sf, l)
    ensures ChargedOf(quant, sf, l, g) == WrittenOf(quant, sf, l, g)
  {
    var a, b := ChargedOf(quant, sf, l, g), WrittenOf(quant, sf, l, g);
    forall i | 0 <= i < |l.sizes|
      ensures a[i] == b[i]
    {
      forall w | 0 <= w < l.windows[g]
        ensures a[i][w] == b[i][w]
      {
        SlotsFit(l, g, w);
        SlotsFit(l, g, 0);
        assert Agrees(sf, l, g, w, i);
      }
    }
  }

  /** The indices of one window of a group. */
  function WindowOf(a: seq<int>, l: Channel.Layout, g: nat, w: nat): (r: seq<int>)
    requires LayoutOk(l) && |a| == SLOTS && g < |l.windows| && w < l.windows[g]
    ensures |r| == |l.sizes| && 16 * (First(l.windows, g) + w) + |l.sizes| <= SLOTS
    ensures forall i | 0 <= i < |r| :: r[i] == a[16 * (First(l.windows, g) + w) + i]
  {
    SlotsFit(l, g, w);
    a[16 * (First(l.windows, g) + w)..16 * (First(l.windows, g) + w) + |l.sizes|]
  }

  function Cell(a: seq<int>, first: nat, w: nat, i: nat): int
    requires 16 * (first + w) + i < |a|
  {
    a[16 * (first + w) + i]
  }

  /** Of a group's first i columns, and so many windows of the next, the first window has been copied to the others. */
  ghost predicate CopiedTo(was: seq<int>, now: seq<int>, first: nat, windows: nat, n: nat, i: nat, done: nat)
    requires |was| == |now| == SLOTS && windows > 0 && 16 * (first + windows - 1) + n <= SLOTS
  {
    && (forall w, j | 0 <= w < windows && 0 <= j < n ::
          Cell(now, first, w, j) == if j < i || (j == i && w < done) then Cell(was, first, 0, j) else Cell(was, first, w, j))
    && forall k | 0 <= k < SLOTS && !(16 * first <= k < 16 * (first + windows - 1) + n) :: now[k] == was[k]
  }

  lemma CellCopied(was: seq<int>, now: seq<int>, first: nat, windows: nat, n: nat, i: nat, w: nat)
    requires |was| == |now| == SLOTS && windows > 0 && 16 * (first + windows - 1) + n <= SLOTS
    requires CopiedTo(was, now, first, windows, n, i, w) && 0 < w < windows && i < n <= 16
    ensures CopiedTo(was, now[16 * (first + w) + i := now[16 * first + i]], first, windows, n, i, w + 1)
  {
    var next := now[16 * (first + w) + i := now[16 * first + i]];
    assert Cell(now, first, 0, i) == Cell(was, first, 0, i);
    forall v, j | 0 <= v < windows && 0 <= j < n
      ensures Cell(next, first, v, j) == if j < i || (j == i && v < w + 1) then Cell(was, first, 0, j) else Cell(was, first, v, j)
    {
      assert Cell(next, first, v, j) == if v == w && j == i then Cell(was, first, 0, j) else Cell(now, first, v, j);
    }
  }

  lemma ColumnCopied(was: seq<int>, now: seq<int>, first: nat, windows: nat, n: nat, i: nat)
    requires |was| == |now| == SLOTS && windows > 0 && 16 * (first + windows - 1) + n <= SLOTS
    ensures CopiedTo(was, now, first, windows, n, i, windows) && i < n ==> CopiedTo(was, now, first, windows, n, i + 1, 1)
    ensures CopiedTo(was, was, first, windows, n, 0, 1)
  {
  }

  /** Copies the indices of the first window of one group. */
  method CopyGroup(l: Channel.Layout, sf: array<int>, g: nat)
    requires LayoutOk(l) && sf.Length == SLOTS && g < |l.windows|
    modifies sf
    ensures forall w | 0 <= w < l.windows[g] :: WindowOf(sf[..], l, g, w) == WindowOf(old(sf[..]), l, g, 0)
    ensures forall h, w | 0 <= h < |l.windows| && h != g && 0 <= w < l.windows[h] ::
              WindowOf(sf[..], l, h, w) == WindowOf(old(sf[..]), l, h, w)
  {
    hide CopiedTo, First, LayoutOk;
    ghost var was := sf[..];
    Bounds(l, g);
    var first, windows, n := First(l.windows, g), l.windows[g], |l.sizes|;
    ColumnCopied(was, was, first, windows, n, 0);
    for i := 0 to n
      invariant CopiedTo(was, sf[..], first, windows, n, i, 1)
    {
      for w := 1 to windows
        invariant CopiedTo(was, sf[..], first, windows, n, i, w)
      {
        CellCopied(was, sf[..], first, windows, n, i, w);
        ghost var next := sf[..][16 * (first + w) + i := sf[16 * first + i]];
        sf[16 * (first + w) + i] := sf[16 * first + i];
        assert sf[..] == next;
      }
      ColumnCopied(was, sf[..], first, windows, n, i);
    }
    GroupCopied(l, g, was, sf[..]);
  }

  lemma Bounds(l: Channel.Layout, g: nat)
    requires LayoutOk(l) && g < |l.windows|
    ensures l.windows[g] > 0 && 16 * (First(l.windows, g) + l.windows[g] - 1) + |l.sizes| <= SLOTS
    ensures l.windows[g] > 1 ==> |l.sizes| <= 16
  {
    SlotsFit(l, g, l.windows[g] - 1);
  }

  lemma GroupCopied(l: Channel.Layout, g: nat, was: seq<int>, now: seq<int>)
    requires LayoutOk(l) && |was| == |now| == SLOTS && g < |l.windows|
    requires l.windows[g] > 0 && 16 * (First(l.windows, g) + l.windows[g] - 1) + |l.sizes| <= SLOTS
    requires CopiedTo(was, now, First(l.windows, g), l.windows[g], |l.sizes|, |l.sizes|, 1)
    ensures forall w | 0 <= w < l.windows[g] :: WindowOf(now, l, g, w) == WindowOf(was, l, g, 0)
    ensures forall h, w | 0 <= h < |l.windows| && h != g && 0 <= w < l.windows[h] :: WindowOf(now, l, h, w) == WindowOf(was, l, h, w)
  {
    hide First;
    var first, n := First(l.windows, g), |l.sizes|;
    forall w | 0 <= w < l.windows[g]
      ensures WindowOf(now, l, g, w) == WindowOf(was, l, g, 0)
    {
      forall j | 0 <= j < n
        ensures WindowOf(now, l, g, w)[j] == WindowOf(was, l, g, 0)[j]
      {
        assert Cell(now, first, w, j) == Cell(was, first, 0, j);
      }
    }
    forall h, w | 0 <= h < |l.windows| && h != g && 0 <= w < l.windows[h]
      ensures WindowOf(now, l, h, w) == WindowOf(was, l, h, w)
    {
      if h < g {
        FirstsApart(l.windows, h, g);
        SlotsFit(l, h, w);
        GroupFits(l, g);
      } else {
        FirstsApart(l.windows, g, h);
      }
    }
  }

  /** The viterbi search's last step: the indices of a group's first window for all its windows. */
  method CopyInGroups(l: Channel.Layout, sf: array<int>)
    requires LayoutOk(l) && sf.Length == SLOTS
    modifies sf
    ensures SameInGroups(sf[..], l)
    ensures forall g | 0 <= g < |l.windows| && l.windows[g] > 0 :: WindowOf(sf[..], l, g, 0) == WindowOf(old(sf[..]), l, g, 0)
  {
    hide WindowOf, LayoutOk;
    ghost var was := sf[..];
    for g := 0 to |l.windows|
      invariant forall h, w | g <= h < |l.windows| && 0 <= w < l.windows[h] :: WindowOf(sf[..], l, h, w) == WindowOf(was, l, h, w)
      invariant forall h, w | 0 <= h < g && 0 <= w < l.windows[h] :: WindowOf(sf[..], l, h, w) == WindowOf(was, l, h, 0)
    {
      CopyGroup(l, sf, g);
    }
    AllAgree(was, sf[..], l);
  }

  lemma AllAgree(was: seq<int>, now: seq<int>, l: Channel.Layout)
    requires LayoutOk(l) && |was| == |now| == SLOTS
    requires forall h, w | 0 <= h < |l.windows| && 0 <= w < l.windows[h] :: WindowOf(now, l, h, w) == WindowOf(was, l, h, 0)
    ensures SameInGroups(now, l)
  {
    hide First;
    forall g, w, i | 0 <= g < |l.windows| && 0 <= w < l.windows[g] && 0 <= i < |l.sizes|
      ensures Agrees(now, l, g, w, i)
    {
      assert WindowOf(now, l, g, w) == WindowOf(was, l, g, 0) == WindowOf(now, l, g, 0);
      assert WindowOf(now, l, g, w)[i] == WindowOf(now, l, g, 0)[i];
    }
  }

  // ----- the sections of all groups

  /** The zero flags and least codebooks of a group's bands. */
  function Slice<T>(a: seq<T>, l: Channel.Layout, g: nat): (r: seq<T>)
    requires LayoutOk(l) && |a| == SLOTS && g < |l.windows|
    ensures |r| == |l.sizes| && 16 * First(l.windows, g) + |l.sizes| <= SLOTS
    ensures forall i | 0 <= i < |r| :: r[i] == a[16 * First(l.windows, g) + i]
  {
    SlotsFit(l, g, 0);
    a[16 * First(l.windows, g)..16 * First(l.windows, g) + |l.sizes|]
  }

  ghost predicate Least(bandType: seq<nat>) {
    forall i | 0 <= i < |bandType| :: bandType[i] < Sections.BOOKS
  }

  /** What the trellis is given for a group: the least codebooks and zero flags of its bands, and the values charged for. */
  function Trellis(t: Channel.Tables, l: Channel.Layout, quant: Quant, sf: seq<int>, least: seq<nat>, zero: seq<bool>, g: nat)
    : (tb: seq<Sections.Band>)
    requires Channel.AreTables(t) && LayoutOk(l) && QuantOk(quant, l.sizes) && g < |l.windows| && |sf| == SLOTS
    requires |least| == |zero| == |l.sizes| && Least(least)
    ensures |tb| == |l.sizes| && Sections.IsInput(tb, l.long)
  {
    GroupInOk(l, quant, sf, least, zero, g);
    Rate.TrellisBands(t, zero, least, ChargedOf(quant, sf, l, g), l.sizes, l.long)
  }

  lemma GroupInOk(l: Channel.Layout, quant: Quant, sf: seq<int>, least: seq<nat>, zero: seq<bool>, g: nat)
    requires LayoutOk(l) && QuantOk(quant, l.sizes) && g < |l.windows| && |sf| == SLOTS
    requires |least| == |zero| == |l.sizes| && Least(least)
    ensures Rate.GroupIn(zero, least, ChargedOf(quant, sf, l, g), l.sizes, l.long)
    ensures Rate.Values(Rate.Counts(ChargedOf(quant, sf, l, g)), l.sizes) <= 1024
  {
    hide Rate.WindowsOk;
    forall i | 0 <= i < |l.sizes|
      ensures Rate.WindowsOk(ChargedOf(quant, sf, l, g)[i], l.sizes[i]) && |ChargedOf(quant, sf, l, g)[i]| == l.windows[g]
    {
      ValuesOk(quant, sf, l, g, i);
    }
    var counts := Rate.Counts(ChargedOf(quant, sf, l, g));
    ValuesAre(counts, l.sizes, l.windows[g]);
    FirstFits(l.windows, g);
    AtMost(l.windows[g], Channel.SumOf(l.sizes), l.long);
  }

  lemma AtMost(k: nat, n: nat, long: bool)
    requires if long then k == 1 && n <= 1024 else k <= 8 && n <= 128
    ensures k * n <= 1024
  {
    if !long {
      assert k * n <= 8 * n;
    }
  }

  lemma NeverFails(t: Channel.Tables, l: Channel.Layout, quant: Quant, sf: seq<int>, least: seq<nat>, zero: seq<bool>, g: nat)
    requires Channel.AreTables(t) && LayoutOk(l) && QuantOk(quant, l.sizes) && g < |l.windows| && |sf| == SLOTS
    requires |least| == |zero| == |l.sizes| && Least(least) && Spectral.ShortWords(t.spectral[11])
    ensures var tb := Trellis(t, l, quant, sf, least, zero, g);
            Sections.Good(tb, l.long, |tb|, Sections.BestBook(tb, l.long))
  {
    hide Sections.Good, Sections.BestBook, Sections.Trace, Sections.At, Rate.GroupIn, Rate.Values;
    GroupInOk(l, quant, sf, least, zero, g);
    Rate.AlwaysSectioned(t, zero, least, ChargedOf(quant, sf, l, g), l.sizes, l.long);
  }

  lemma {:induction false} ValuesAre(counts: seq<nat>, sizes: seq<nat>, k: nat)
    requires |counts| == |sizes| && forall i | 0 <= i < |counts| :: counts[i] == k
    ensures Rate.Values(counts, sizes) == k * Channel.SumOf(sizes)
  {
    if sizes != [] {
      var n := |sizes| - 1;
      ValuesAre(counts[..n], sizes[..n], k);
      assert k * (Channel.SumOf(sizes[..n]) + sizes[n]) == k * Channel.SumOf(sizes[..n]) + k * sizes[n];
    }
  }

  /** These sections are the cheapest way back through the trellis. */
  ghost predicate Sectioned(tb: seq<Sections.Band>, long: bool, sections: seq<Sections.Section>)
    requires Sections.IsInput(tb, long)
  {
    && Sections.Good(tb, long, |tb|, Sections.BestBook(tb, long))
    && Sections.Proper(sections)
    && Sections.Expand(sections) == Sections.Trace(tb, long, |tb|, Sections.BestBook(tb, long))
  }

  /** With the same indices in all windows of a group, as CopyInGroups leaves them, what the writer spends on the group is the
      cost its sections were chosen for, and what the trellis does not count. */
  lemma GroupRate(t: Channel.Tables, l: Channel.Layout, quant: Quant, sf: seq<int>, least: seq<nat>, zero: seq<bool>, g: nat,
                  sections: seq<Sections.Section>)
    requires Channel.AreTables(t) && Spectral.ShortWords(t.spectral[11]) && LayoutOk(l) && QuantOk(quant, l.sizes)
    requires g < |l.windows| && |sf| == SLOTS && |least| == |zero| == |l.sizes| > 0 && Least(least) && SameInGroups(sf, l)
    requires Sectioned(Trellis(t, l, quant, sf, least, zero, g), l.long, sections)
    ensures Rate.GroupIn(zero, least, WrittenOf(quant, sf, l, g), l.sizes, l.long)
    ensures var books, bands := Sections.Expand(sections), WrittenOf(quant, sf, l, g);
            && |books| == |bands| && (forall i | 0 <= i < |books| :: books[i] < Sections.BOOKS)
            && (forall k | 0 <= k < |Channel.GroupItems(books, bands)| :: Channel.ItemOk(Channel.GroupItems(books, bands)[k]))
            && |Sections.WriteSections(l.long, sections)| + |Channel.WriteItems(t, Channel.GroupItems(books, bands))|
               == Rate.Cost(t, zero, least, bands, l.sizes, l.long)
                  + Rate.Uncounted(t, zero, least, bands, l.sizes, l.long, sections)
  {
    hide Channel.AreTables, Spectral.ShortWords, LayoutOk, QuantOk, SameInGroups, Rate.GroupIn, Rate.Uncounted, Rate.Cost, WrittenOf;
    hide Sections.Good, Sections.BestBook, Sections.Trace, Sections.WriteSections, Channel.WriteItems, Channel.GroupItems, ChargedOf;
    hide Channel.ItemOk, Rate.TrellisBands, Sections.Expand, Sections.Proper, Rate.Values;
    GroupInOk(l, quant, sf, least, zero, g);
    ChargedIsWritten(quant, sf, l, g);
    Rate.RateIsWritten(t, zero, least, WrittenOf(quant, sf, l, g), l.sizes, l.long, sections);
  }

  /** The band types and zero flags of a group are those of its sections. */
  ghost predicate Recorded(bandType: seq<nat>, zeroes: seq<bool>, l: Channel.Layout, g: nat, sections: seq<Sections.Section>)
    requires LayoutOk(l) && |bandType| == |zeroes| == SLOTS && g < |l.windows|
  {
    Slice(bandType, l, g) == Sections.Expand(sections) && Slice(zeroes, l, g) == Sections.Flags(Sections.Expand(sections))
  }

  function WriteAll(long: bool, all: seq<seq<Sections.Section>>): Word {
    if all == [] then [] else WriteAll(long, all[..|all| - 1]) + Sections.WriteSections(long, all[|all| - 1])
  }

  /** Sections one group; the section trellis never fails. */
  method EncodeGroupInfo(t: Channel.Tables, l: Channel.Layout, quant: Quant, sf: array<int>, bandType: array<nat>,
                         zeroes: array<bool>, g: nat) returns (out: Word, sections: seq<Sections.Section>)
    requires Channel.AreTables(t) && Spectral.ShortWords(t.spectral[11]) && LayoutOk(l) && QuantOk(quant, l.sizes)
    requires sf.Length == bandType.Length == zeroes.Length == SLOTS && g < |l.windows| && Least(Slice(bandType[..], l, g))
    modifies bandType, zeroes
    ensures out == Sections.WriteSections(l.long, sections)
    ensures Sectioned(Trellis(t, l, quant, sf[..], old(Slice(bandType[..], l, g)), old(Slice(zeroes[..], l, g)), g),
                      l.long, sections)
    ensures Recorded(bandType[..], zeroes[..], l, g, sections)
    ensures forall h | 0 <= h < |l.windows| && h != g ::
              Slice(bandType[..], l, h) == old(Slice(bandType[..], l, h)) && Slice(zeroes[..], l, h) == old(Slice(zeroes[..], l, h))
  {
    hide Sections.Good, Sections.Trace, Sections.BestBook, Sections.Proper, Sections.Expand, Sections.IsInput, Sections.Flags;
    hide Sections.WriteSections, Trellis, First, QuantOk, Channel.AreTables, Spectral.ShortWords, LayoutOk, Least;
    ghost var types, flags := bandType[..], zeroes[..];
    var bands := Trellis(t, l, quant, sf[..], Slice(bandType[..], l, g), Slice(zeroes[..], l, g), g);
    NeverFails(t, l, quant, sf[..], Slice(types, l, g), Slice(flags, l, g), g);
    var ok;
    ok, out, sections := Sections.EncodeBandInfo(bands, l.long, 16 * First(l.windows, g), bandType, zeroes);
    OthersKept(l, g, types, bandType[..]);
    OthersKept(l, g, flags, zeroes[..]);
  }

  /** Sections every group. */
  method EncodeBandInfos(t: Channel.Tables, l: Channel.Layout, quant: Quant, sf: array<int>, bandType: array<nat>,
                         zeroes: array<bool>) returns (out: Word, all: seq<seq<Sections.Section>>)
    requires Channel.AreTables(t) && Spectral.ShortWords(t.spectral[11]) && LayoutOk(l) && QuantOk(quant, l.sizes)
    requires sf.Length == bandType.Length == zeroes.Length == SLOTS && Least(bandType[..])
    modifies bandType, zeroes
    ensures |all| == |l.windows| && out == WriteAll(l.long, all)
    ensures forall g | 0 <= g < |all| ::
              && Sectioned(Trellis(t, l, quant, sf[..], Slice(old(bandType[..]), l, g), Slice(old(zeroes[..]), l, g), g),
                           l.long, all[g])
              && Recorded(bandType[..], zeroes[..], l, g, all[g])
  {
    hide Sections.IsInput, Sections.WriteSections, Sections.Expand, Sections.Flags, Sectioned, Trellis, First, QuantOk;
    hide Channel.AreTables, Spectral.ShortWords, LayoutOk, Slice;
    ghost var types, flags := bandType[..], zeroes[..];
    out, all := [], [];
    for g := 0 to |l.windows|
      invariant |all| == g && out == WriteAll(l.long, all)
      invariant forall h | 0 <= h < g ::
                  && Sectioned(Trellis(t, l, quant, sf[..], Slice(types, l, h), Slice(flags, l, h), h), l.long, all[h])
                  && Recorded(bandType[..], zeroes[..], l, h, all[h])
      invariant forall h | g <= h < |l.windows| ::
                  Slice(bandType[..], l, h) == Slice(types, l, h) && Slice(zeroes[..], l, h) == Slice(flags, l, h)
    {
      var bits, sections := EncodeGroupInfo(t, l, quant, sf, bandType, zeroes, g);
      assert (all + [sections])[..g] == all;
      out, all := out + bits, all + [sections];
    }
  }

  // ----- the bands in coding order

  /** The slots of the bands of the first g groups, in coding order. */
  function OrderTo(l: Channel.Layout, g: nat): seq<nat>
    requires g <= |l.windows|
  {
    if g == 0 then [] else OrderTo(l, g - 1) + seq(|l.sizes|, i => 16 * First(l.windows, g - 1) + i)
  }

  function Order(l: Channel.Layout): seq<nat> {
    OrderTo(l, |l.windows|)
  }

  lemma OrderUnfold(l: Channel.Layout, g: nat)
    requires 0 < g <= |l.windows|
    ensures OrderTo(l, g) == OrderTo(l, g - 1) + seq(|l.sizes|, i => 16 * First(l.windows, g - 1) + i)
  {
  }

  lemma NoOrderYet(l: Channel.Layout)
    ensures OrderTo(l, 0) == [] && First(l.windows, 0) == 0
  {
    assert l.windows[..0] == [];
  }

  lemma GroupFits(l: Channel.Layout, g: nat)
    requires LayoutOk(l) && g < |l.windows|
    ensures l.windows[g] > 0 && 16 * First(l.windows, g) + |l.sizes| <= SLOTS
    ensures g > 0 ==> 16 * First(l.windows, g - 1) + |l.sizes| <= 16 * First(l.windows, g)
  {
    SlotsFit(l, g, 0);
    if g > 0 {
      FirstsApart(l.windows, g - 1, g);
    }
  }

  lemma {:induction false} OrderIncreases(l: Channel.Layout, g: nat)
    requires LayoutOk(l) && 0 < g <= |l.windows|
    ensures forall k | 0 <= k < |OrderTo(l, g)| :: OrderTo(l, g)[k] < 16 * First(l.windows, g - 1) + |l.sizes| <= SLOTS
    ensures forall k, n | 0 <= k < n < |OrderTo(l, g)| :: OrderTo(l, g)[k] < OrderTo(l, g)[n]
    ensures l.sizes != [] ==> OrderTo(l, g) != [] && OrderTo(l, g)[0] == 0
  {
    hide LayoutOk, First, OrderTo;
    GroupFits(l, g - 1);
    OrderUnfold(l, g);
    NoOrderYet(l);
    if g > 1 {
      OrderIncreases(l, g - 1);
    }
  }

  lemma OrderIs(l: Channel.Layout)
    requires LayoutOk(l)
    ensures l.sizes != [] ==> Factors.IsOrder(Order(l), SLOTS)
    ensures l.sizes == [] ==> Order(l) == []
  {
    if l.windows != [] {
      OrderIncreases(l, |l.windows|);
    }
    if l.sizes == [] {
      NoOrder(l, |l.windows|);
    }
  }

  lemma {:induction false} NoOrder(l: Channel.Layout, g: nat)
    requires l.sizes == [] && g <= |l.windows|
    ensures OrderTo(l, g) == []
  {
    if g > 0 {
      NoOrder(l, g - 1);
    }
  }

  // ----- the groups

  function Groups(all: seq<seq<Sections.Section>>, quant: Quant, sf: seq<int>, l: Channel.Layout): (r: seq<Channel.Group>)
    requires LayoutOk(l) && |sf| == SLOTS && |all| == |l.windows|
    ensures |r| == |all|
  {
    seq(|all|, g requires 0 <= g < |all| => Channel.Group(all[g], WrittenOf(quant, sf, l, g)))
  }

  lemma {:induction false} ExpandBooks(sections: seq<Sections.Section>)
    requires Sections.Proper(sections)
    ensures forall i | 0 <= i < |Sections.Expand(sections)| :: Sections.Expand(sections)[i] < Sections.BOOKS
  {
    if sections != [] {
      ExpandBooks(sections[1..]);
    }
  }

  lemma GroupIsOk(all: seq<seq<Sections.Section>>, quant: Quant, sf: seq<int>, l: Channel.Layout, g: nat)
    requires LayoutOk(l) && |sf| == SLOTS && |all| == |l.windows| && g < |all| && QuantOk(quant, l.sizes)
    requires Sections.Proper(all[g]) && |Sections.Expand(all[g])| == |l.sizes|
    ensures Channel.GroupOk(Groups(all, quant, sf, l)[g], l.sizes, l.windows[g])
  {
    hide Sections.Expand, WrittenOf;
    ExpandBooks(all[g]);
    var books, bands := Sections.Expand(all[g]), WrittenOf(quant, sf, l, g);
    forall i | 0 <= i < |bands|
      ensures Channel.BandOk(books[i], bands[i], l.sizes[i], l.windows[g])
    {
      ValuesOk(quant, sf, l, g, i);
      Rate.AnyBookIs(l.sizes[i], books[i]);
    }
  }

  lemma {:induction false} AllSectionsJoin(long: bool, groups: seq<Channel.Group>, g: Channel.Group)
    ensures Channel.WriteAllSections(long, groups + [g])
         == Channel.WriteAllSections(long, groups) + Sections.WriteSections(long, g.sections)
    ensures Channel.FlatBooks(groups + [g]) == Channel.FlatBooks(groups) + Channel.Books(g)
  {
    hide Sections.WriteSections, Channel.Books, Channel.WriteAllSections, Channel.FlatBooks;
    var all := groups + [g];
    FirstGroup(long, all);
    if groups == [] {
      assert all[1..] == [];
      NoGroups(long);
    } else {
      AllSectionsJoin(long, groups[1..], g);
      FirstGroup(long, groups);
      assert all[1..] == groups[1..] + [g];
    }
  }

  lemma FirstGroup(long: bool, groups: seq<Channel.Group>)
    requires groups != []
    ensures Channel.WriteAllSections(long, groups)
         == Sections.WriteSections(long, groups[0].sections) + Channel.WriteAllSections(long, groups[1..])
    ensures Channel.FlatBooks(groups) == Channel.Books(groups[0]) + Channel.FlatBooks(groups[1..])
  {
    hide Sections.WriteSections, Channel.Books;
  }

  lemma {:induction false} SectionsWritten(long: bool, all: seq<seq<Sections.Section>>, groups: seq<Channel.Group>)
    requires |all| == |groups| && forall g | 0 <= g < |all| :: groups[g].sections == all[g]
    ensures WriteAll(long, all) == Channel.WriteAllSections(long, groups)
  {
    hide Sections.WriteSections, Channel.WriteAllSections;
    if all == [] {
      NoGroups(long);
    } else {
      var n := |all| - 1;
      SectionsWritten(long, all[..n], groups[..n]);
      AllSectionsJoin(long, groups[..n], groups[n]);
      assert groups[..n] + [groups[n]] == groups;
    }
  }

  lemma NoGroups(long: bool)
    ensures Channel.WriteAllSections(long, []) == [] && Channel.FlatBooks([]) == []
  {
  }

  /** The flags the section writer leaves are set, in coding order, exactly for codebook 0. */
  lemma {:induction false} FlagsRecorded(bandType: seq<nat>, zeroes: seq<bool>, l: Channel.Layout,
                                         all: seq<seq<Sections.Section>>, groups: seq<Channel.Group>, g: nat)
    requires LayoutOk(l) && |bandType| == |zeroes| == SLOTS && g <= |l.windows| == |all| == |groups|
    requires forall h | 0 <= h < |all| :: groups[h].sections == all[h] && Recorded(bandType, zeroes, l, h, all[h])
    ensures Channel.Flagged(zeroes, OrderTo(l, g), Channel.FlatBooks(groups[..g]))
  {
    hide Sections.Expand, Channel.FlatBooks, First, LayoutOk, OrderTo, Sections.Flags, Recorded, Channel.WriteAllSections;
    if g == 0 {
      NoGroups(l.long);
      NoOrderYet(l);
      assert groups[..0] == [];
    } else {
      var n := g - 1;
      FlagsRecorded(bandType, zeroes, l, all, groups, n);
      AllSectionsJoin(l.long, groups[..n], groups[n]);
      assert groups[..n] + [groups[n]] == groups[..g];
      OrderUnfold(l, g);
      var flat, order := Channel.FlatBooks(groups[..n]), OrderTo(l, n);
      var books := Sections.Expand(all[n]);
      FlagsOf(bandType, zeroes, l, n, all[n]);
      forall k | 0 <= k < |OrderTo(l, g)|
        ensures OrderTo(l, g)[k] < SLOTS && zeroes[OrderTo(l, g)[k]] == ((flat + books)[k] == 0)
      {
        if k >= |order| {
          assert OrderTo(l, g)[k] == 16 * First(l.windows, n) + (k - |order|);
        }
      }
    }
  }

  lemma FlagsOf(bandType: seq<nat>, zeroes: seq<bool>, l: Channel.Layout, g: nat, sections: seq<Sections.Section>)
    requires LayoutOk(l) && |bandType| == |zeroes| == SLOTS && g < |l.windows| && Recorded(bandType, zeroes, l, g, sections)
    ensures |Sections.Expand(sections)| == |l.sizes| && 16 * First(l.windows, g) + |l.sizes| <= SLOTS
    ensures forall i | 0 <= i < |l.sizes| :: zeroes[16 * First(l.windows, g) + i] == (Sections.Expand(sections)[i] == 0)
  {
    hide Sections.Expand, First, LayoutOk;
    var books := Sections.Expand(sections);
    assert Slice(bandType, l, g) == books;
    forall i | 0 <= i < |l.sizes|
      ensures zeroes[16 * First(l.windows, g) + i] == (books[i] == 0)
    {
      assert Slice(zeroes, l, g)[i] == Sections.Flags(books)[i];
    }
  }

  lemma OthersKept<T>(l: Channel.Layout, g: nat, before: seq<T>, after: seq<T>)
    requires LayoutOk(l) && g < |l.windows| && |before| == |after| == SLOTS
    requires forall i | 0 <= i < SLOTS && !(16 * First(l.windows, g) <= i < 16 * First(l.windows, g) + |l.sizes|) ::
               after[i] == before[i]
    ensures forall h | 0 <= h < |l.windows| && h != g :: Slice(after, l, h) == Slice(before, l, h)
  {
    hide First;
    SlotsFit(l, g, 0);
    forall h | 0 <= h < |l.windows| && h != g
      ensures Slice(after, l, h) == Slice(before, l, h)
    {
      SlotsFit(l, h, 0);
    }
  }

  // ----- the spectrum

  lemma {:induction false} AllItemsJoin(groups: seq<Channel.Group>, g: Channel.Group)
    requires |Channel.Books(g)| == |g.bands| && forall h | 0 <= h < |groups| :: |Channel.Books(groups[h])| == |groups[h].bands|
    ensures Channel.AllItems(groups + [g]) == Channel.AllItems(groups) + Channel.GroupItems(Channel.Books(g), g.bands)
  {
    hide Channel.Books, Channel.GroupItems;
    if groups == [] {
      assert (groups + [g])[1..] == [];
    } else {
      AllItemsJoin(groups[1..], g);
      assert (groups + [g])[1..] == groups[1..] + [g];
    }
  }

  lemma BooksMatch(groups: seq<Channel.Group>, l: Channel.Layout)
    requires Channel.GroupsOk(groups, l.sizes, l.windows)
    ensures forall g | 0 <= g < |groups| :: |Channel.Books(groups[g])| == |groups[g].bands|
  {
    forall g | 0 <= g < |groups|
      ensures |Channel.Books(groups[g])| == |groups[g].bands|
    {
      assert Channel.GroupOk(groups[g], l.sizes, l.windows[g]);
    }
  }

  lemma NothingYet(t: Channel.Tables)
    requires Channel.AreTables(t)
    ensures Channel.Writes(t, [], Channel.AllItems([]))
  {
  }

  /** Writes the spectrum of every group. */
  method EncodeSpectrum(t: Channel.Tables, groups: seq<Channel.Group>, ghost l: Channel.Layout) returns (out: Word)
    requires Channel.AreTables(t) && Channel.GroupsOk(groups, l.sizes, l.windows)
    ensures forall g | 0 <= g < |groups| :: |Channel.Books(groups[g])| == |groups[g].bands|
    ensures Channel.Writes(t, out, Channel.AllItems(groups))
  {
    hide Channel.AreTables, Channel.Writes, Channel.Books, Channel.AllItems, Channel.GroupOk, Channel.GroupItems;
    BooksMatch(groups, l);
    NothingYet(t);
    out := [];
    for g := 0 to |groups|
      invariant Channel.Writes(t, out, Channel.AllItems(groups[..g]))
    {
      var bits := Channel.EncodeSpectralCoeffs(t, groups[g], l.sizes, l.windows[g]);
      Channel.WritesMore(t, out, Channel.AllItems(groups[..g]), bits,
                         Channel.GroupItems(Channel.Books(groups[g]), groups[g].bands));
      AllItemsJoin(groups[..g], groups[g]);
      assert groups[..g + 1] == groups[..g] + [groups[g]];
      out := out + bits;
    }
    assert groups[..|groups|] == groups;
  }

  // ----- the channel

  /** The scalefactors of the bands that have a codebook; none where there are no bands at all. */
  function Coded(sf: seq<int>, zeroes: seq<bool>, l: Channel.Layout): seq<int>
    requires LayoutOk(l) && |sf| == |zeroes| == SLOTS
  {
    OrderIs(l);
    if l.sizes == [] then [] else Factors.CodedFrom(sf, zeroes, Order(l), 0)
  }

  /** Bytes within 60 of each other, as both searches leave them. */
  ghost predicate FactorsOk(sf: seq<int>, l: Channel.Layout)
    requires |sf| == SLOTS
  {
    && 0 <= sf[0] <= 255 && Factors.Spread(sf, Order(l))
    && forall k | 0 <= k < |Order(l)| :: 0 <= sf[Order(l)[k]] <= 255
  }

  lemma CodedOk(t: Channel.Tables, l: Channel.Layout, sf: seq<int>, zeroes: seq<bool>, groups: seq<Channel.Group>)
    requires Channel.AreTables(t) && LayoutOk(l) && |sf| == |zeroes| == SLOTS && FactorsOk(sf, l)
    requires Channel.GroupsOk(groups, l.sizes, l.windows) && Channel.Flagged(zeroes, Order(l), Channel.FlatBooks(groups))
    ensures 0 <= sf[0]
    ensures Channel.ChannelOk(Channel.Channel(sf[0], groups, Coded(sf, zeroes, l)), l)
  {
    hide Channel.AreTables, Channel.GroupsOk, LayoutOk, Order, Channel.FlatBooks, Channel.CountAll, Channel.Count;
    OrderIs(l);
    Channel.CountFlat(groups);
    if l.sizes == [] {
      assert Channel.FlatBooks(groups) == [];
      NoneCounted();
    } else {
      Factors.SpreadCodable(sf, zeroes, Order(l), 0, 0);
      Channel.CodedCount(sf, zeroes, Order(l), Channel.FlatBooks(groups), 0);
      assert Channel.FlatBooks(groups)[0..] == Channel.FlatBooks(groups);
    }
  }

  lemma NoneCounted()
    ensures Channel.Count([]) == 0
  {
  }

  /** The channel meant: every group in the sections of its cheapest way back through the trellis, its values at the indices
      of its first window, and the scalefactors of the bands that got a codebook. */
  ghost predicate Encoded(t: Channel.Tables, l: Channel.Layout, quant: Quant, sf: seq<int>, least: seq<nat>, zero: seq<bool>,
                          zeroes: seq<bool>, c: Channel.Channel)
    requires Channel.AreTables(t) && LayoutOk(l) && QuantOk(quant, l.sizes)
    requires |sf| == |least| == |zero| == |zeroes| == SLOTS && Least(least)
  {
    && c.gain == sf[0] && |c.groups| == |l.windows|
    && (forall g | 0 <= g < |c.groups| ::
          && Sectioned(Trellis(t, l, quant, sf, Slice(least, l, g), Slice(zero, l, g), g), l.long, c.groups[g].sections)
          && c.groups[g].bands == WrittenOf(quant, sf, l, g))
    && Channel.Flagged(zeroes, Order(l), Channel.FlatBooks(c.groups)) && c.factors == Coded(sf, zeroes, l)
  }

  /** A channel whose sections are all found and recorded can be written. */
  lemma GroupsAreOk(t: Channel.Tables, l: Channel.Layout, quant: Quant, sf: seq<int>, bandType: seq<nat>, zeroes: seq<bool>,
                    all: seq<seq<Sections.Section>>)
    requires LayoutOk(l) && QuantOk(quant, l.sizes) && |sf| == |bandType| == |zeroes| == SLOTS && |all| == |l.windows|
    requires forall g | 0 <= g < |all| :: Sections.Proper(all[g]) && Recorded(bandType, zeroes, l, g, all[g])
    ensures Channel.GroupsOk(Groups(all, quant, sf, l), l.sizes, l.windows)
    ensures Channel.Flagged(zeroes, Order(l), Channel.FlatBooks(Groups(all, quant, sf, l)))
    ensures WriteAll(l.long, all) == Channel.WriteAllSections(l.long, Groups(all, quant, sf, l))
  {
    hide LayoutOk, QuantOk, Sections.Proper, Sections.Expand, Sections.Flags, Channel.GroupOk, WrittenOf, OrderTo;
    hide Channel.FlatBooks, WriteAll, Channel.WriteAllSections;
    var groups := Groups(all, quant, sf, l);
    forall g | 0 <= g < |all|
      ensures Channel.GroupOk(groups[g], l.sizes, l.windows[g])
    {
      assert Recorded(bandType, zeroes, l, g, all[g]);
      GroupIsOk(all, quant, sf, l, g);
    }
    FlagsRecorded(bandType, zeroes, l, all, groups, |l.windows|);
    assert groups[..|l.windows|] == groups;
    SectionsWritten(l.long, all, groups);
  }

  /** Whatever follows these bits, the decoder reads this channel from them: gain, codebooks, scalefactors and values. */
  ghost predicate ReadBack(t: Channel.Tables, l: Channel.Layout, f: Channel.Ics, swb: Channel.Swb, out: Word, c: Channel.Channel)
    requires Channel.AreTables(t) && Channel.ChannelOk(c, l)
  {
    BooksMatch(c.groups, l);
    forall rest: Word ::
      Channel.ReadChannel(t, out + rest, Channel.Known(f, l), swb) ==
      Some((Channel.Heard(c.gain, f, Channel.AllBooks(c.groups), c.factors, Channel.AllKept(Channel.AllItems(c.groups))), rest))
  }

  lemma WrittenBack(t: Channel.Tables, c: Channel.Channel, l: Channel.Layout, f: Channel.Ics, swb: Channel.Swb)
    requires Channel.AreTables(t) && Channel.ChannelOk(c, l) && Channel.IcsOk(f, l, swb)
    ensures ReadBack(t, l, f, swb, Channel.WriteChannel(t, c, l, f, swb), c)
  {
    hide Channel.AreTables, Channel.IcsOk, Channel.ReadChannel, Channel.WriteChannel, Channel.AllBooks, Channel.AllKept, Channel.AllItems;
    BooksMatch(c.groups, l);
    forall rest: Word
      ensures Channel.ReadChannel(t, Channel.WriteChannel(t, c, l, f, swb) + rest, Channel.Known(f, l), swb) ==
              Some((Channel.Heard(c.gain, f, Channel.AllBooks(c.groups), c.factors, Channel.AllKept(Channel.AllItems(c.groups))), rest))
    {
      Channel.ChannelBack(t, c, l, f, swb, rest);
    }
  }

  lemma Parts(t: Channel.Tables, l: Channel.Layout, swb: Channel.Swb, start: int)
    requires Channel.AreTables(t) && LayoutOk(l)
    ensures Factors.IsCode(t.factors) && forall g | 0 <= g < |l.windows| :: l.windows[g] > 0
    ensures Channel.WriteIcs(Channel.Common, l, swb) == [] && Factors.WriteDifferences(t.factors, start, []) == []
  {
  }

  /** One channel: first scalefactor, window information unless it is common, sections, differences, no pulses, no temporal
      noise shaping, no gain control, and the spectrum; and the decoder reads all of it back. */
  method EncodeIndividualChannel(t: Channel.Tables, l: Channel.Layout, f: Channel.Ics, swb: Channel.Swb, quant: Quant,
                                 sf: array<int>, bandType: array<nat>, zeroes: array<bool>)
    returns (out: Word, c: Channel.Channel)
    requires Channel.AreTables(t) && Spectral.ShortWords(t.spectral[11]) && LayoutOk(l) && QuantOk(quant, l.sizes)
    requires sf.Length == bandType.Length == zeroes.Length == SLOTS && Least(bandType[..])
    requires Channel.IcsOk(f, l, swb) && FactorsOk(sf[..], l)
    modifies bandType, zeroes
    ensures Channel.ChannelOk(c, l) && out == Channel.WriteChannel(t, c, l, f, swb)
    ensures Encoded(t, l, quant, sf[..], old(bandType[..]), old(zeroes[..]), zeroes[..], c)
    ensures ReadBack(t, l, f, swb, out, c)
  {
    hide Channel.AreTables, Spectral.ShortWords, LayoutOk, QuantOk, Least, Channel.IcsOk, Channel.WriteIcs, ToWord, Trellis;
    hide Channel.AllItems, Channel.GroupOk, Channel.ReadChannel, Sections.IsInput, Order, WrittenOf, Factors.Codable;
    hide Sections.Good, Sections.Trace, Sections.BestBook, Sections.Expand, Sections.Proper, Slice, Factors.Spread;
    hide Channel.WriteAllSections, WriteAll, Factors.WriteDifferences, Channel.WriteItems, Factors.CodedFrom, Channel.FlatBooks;
    hide PrefixFree, Channel.AllBooks, Channel.CountAll, Channel.AllKept, Recorded;
    out := ToWord(sf[0], 8);
    var info: Word := [];
    Parts(t, l, swb, sf[0]);
    if f.Own? {
      info := Channel.PutIcsInfo(f, l, swb, Channel.GroupLens(l.windows));
    }
    var books, all := EncodeBandInfos(t, l, quant, sf, bandType, zeroes);
    GroupsAreOk(t, l, quant, sf[..], bandType[..], zeroes[..], all);
    var groups := Groups(all, quant, sf[..], l);
    OrderIs(l);
    CodedOk(t, l, sf[..], zeroes[..], groups);
    var differences: Word, tooBig := [], false;
    if l.sizes != [] {
      differences, tooBig := Factors.EncodeScaleFactors(sf, zeroes[..], Order(l), t.factors);
    }
    var spectrum := EncodeSpectrum(t, groups, l);
    c := Channel.Channel(sf[0], groups, Coded(sf[..], zeroes[..], l));
    out := out + (info + (books + (differences + ([false, false, false] + spectrum))));
    WrittenBack(t, c, l, f, swb);
  }

  // ----- from the search to the decoder

  /** The bands coded are among those searched. */
  lemma {:induction false} OrderWithin(l: Channel.Layout, all: Channel.Layout, g: nat)
    requires l.windows == all.windows && |l.sizes| <= |all.sizes| && g <= |l.windows|
    ensures forall x | x in OrderTo(l, g) :: x in OrderTo(all, g)
  {
    hide First;
    if g > 0 {
      OrderWithin(l, all, g - 1);
      forall x | x in OrderTo(l, g)
        ensures x in OrderTo(all, g)
      {
        var last := seq(|all.sizes|, i => 16 * First(l.windows, g - 1) + i);
        if x !in OrderTo(l, g - 1) {
          var i :| 0 <= i < |l.sizes| && x == 16 * First(l.windows, g - 1) + i;
          assert last[i] == x;
        }
      }
    }
  }

  /** What a search leaves for all bands is enough for those that are coded. */
  lemma SearchedOk(l: Channel.Layout, all: Channel.Layout, sf: seq<int>)
    requires l.windows == all.windows && |l.sizes| <= |all.sizes| && |sf| == SLOTS && LayoutOk(all) && all.sizes != []
    requires Factors.Spread(sf, Order(all)) && forall k | 0 <= k < |Order(all)| :: 60 <= sf[Order(all)[k]] <= 219
    ensures FactorsOk(sf, l)
  {
    hide LayoutOk, OrderTo;
    OrderIs(all);
    OrderWithin(l, all, |l.windows|);
    var o, p := Order(l), Order(all);
    assert sf[0] == sf[p[0]];
    forall k | 0 <= k < |o|
      ensures o[k] < SLOTS && 0 <= sf[o[k]] <= 255
    {
      assert o[k] in p;
    }
    forall k, n | 0 <= k < |o| && 0 <= n < |o|
      ensures -Factors.MAX_DIFF <= sf[o[k]] - sf[o[n]] <= Factors.MAX_DIFF
    {
      assert o[k] in p && o[n] in p;
    }
  }

  /** The two-loop search and the writer in turn: for every signal and target, the bits written are those of the channel the
      section trellis chose at the scalefactors found, and the decoder reads all of it back. In between, the zero flags may
      change, and bands at the end may be dropped. */
  method SearchAndEncode(t: Channel.Tables, all: Channel.Layout, l: Channel.Layout, f: Channel.Ics, swb: Channel.Swb, quant: Quant,
                         s: Factors.Signal, sfBits: seq<nat>, target: nat, silent: seq<bool>,
                         sf: array<int>, bandType: array<nat>, zeroes: array<bool>)
    returns (out: Word, c: Channel.Channel, ghost types: seq<nat>, ghost rounds: seq<Factors.Round>)
    requires Channel.AreTables(t) && Spectral.ShortWords(t.spectral[11]) && LayoutOk(l) && LayoutOk(all) && QuantOk(quant, l.sizes)
    requires l.windows == all.windows && l.sizes <= all.sizes && all.sizes != [] && Channel.IcsOk(f, l, swb)
    requires sf.Length == bandType.Length == zeroes.Length == |silent| == SLOTS && |sfBits| == 2 * Factors.MAX_DIFF + 1
    requires Factors.IsOrder(Order(all), SLOTS) && forall k | 0 <= k < |Order(all)| :: 140 <= sf[Order(all)[k]] <= 199
    requires Least(bandType[..]) && forall i, x :: s.book(i, x) < Sections.BOOKS
    modifies sf, bandType, zeroes
    ensures Least(types) && |types| == SLOTS
    ensures forall k | 0 <= k < |Order(all)| ::
              60 <= sf[Order(all)[k]] <= 219 && types[Order(all)[k]] == s.book(Order(all)[k], sf[Order(all)[k]])
    ensures Factors.Searched(Factors.Job(silent, Order(all), s, sfBits, target), old(sf[..]), rounds)
    ensures sf[..] == rounds[|rounds| - 1].result
    ensures Encoded(t, l, quant, sf[..], types, old(zeroes[..]), zeroes[..], c)
    ensures Channel.ChannelOk(c, l) && out == Channel.WriteChannel(t, c, l, f, swb)
    ensures ReadBack(t, l, f, swb, out, c)
  {
    hide Channel.AreTables, Spectral.ShortWords, LayoutOk, QuantOk, Channel.IcsOk, Channel.WriteChannel, Channel.ChannelOk;
    hide Channel.AllItems, Channel.ReadChannel, Order, Factors.Spread, Encoded, Channel.AllBooks, Channel.AllKept, Factors.Searched;
    rounds := Factors.TwoLoopSearch(sf, bandType, silent, Order(all), s, sfBits, target);
    types := bandType[..];
    SearchedOk(l, all, sf[..]);
    out, c := EncodeIndividualChannel(t, l, f, swb, quant, sf, bandType, zeroes);
  }
}
