/** The section trellis against the writer: what it charges for the data of a window group, and what is written. */
module AacRate {
  import opened PrefixCode
  import opened Wrappers
  import Sections = AacSections
  import Spectral = AacSpectral
  import Channel = AacChannel
  import Quantiser = AacQuantiser
  import Cheapest = AacCheapest

  /** A band size every codebook can carry. */
  predicate AnyBook(n: nat) {
    Spectral.Whole(1, n) && Spectral.Whole(5, n)
  }

  lemma {:induction false} SameVectors(a: nat, b: nat, n: nat)
    requires Spectral.Dim(a) == Spectral.Dim(b) && Spectral.Whole(a, n)
    ensures Spectral.Whole(b, n)
    decreases n
  {
    if n > 0 {
      SameVectors(a, b, n - Spectral.Dim(a));
    }
  }

  lemma AnyBookIs(n: nat, cb: nat)
    requires AnyBook(n)
    ensures Spectral.Whole(cb, n)
  {
    SameVectors(if cb < 5 then 1 else 5, cb, n);
  }

  // ----- what the trellis charges

  /** The values of a band in each window of its group. */
  predicate WindowsOk(windows: seq<seq<int>>, size: nat) {
    AnyBook(size) && forall w | 0 <= w < |windows| :: |windows[w]| == size
  }

  /** The rate of a band in codebook cb, added up over the windows. */
  function GroupBits(t: Channel.Tables, cb: nat, windows: seq<seq<int>>, size: nat): nat
    requires Channel.AreTables(t) && cb < Sections.BOOKS && WindowsOk(windows, size)
  {
    if cb == 0 || windows == [] then 0
    else
      var n := |windows| - 1;
      AnyBookIs(size, cb);
      assert Spectral.IsCode(cb, t.spectral[cb]);
      GroupBits(t, cb, windows[..n], size) + Spectral.BandCharge(cb, t.spectral[cb], windows[n])
  }

  function TrellisBand(t: Channel.Tables, zero: bool, least: nat, windows: seq<seq<int>>, size: nat): Sections.Band
    requires Channel.AreTables(t) && WindowsOk(windows, size)
  {
    if zero then Sections.Zero
    else Sections.Coded(least, seq(Sections.BOOKS, cb requires 0 <= cb < Sections.BOOKS => GroupBits(t, cb, windows, size)))
  }

  /** The bands of one window group: zero flags, least codebooks, and the values charged for. */
  ghost predicate GroupIn(zero: seq<bool>, least: seq<nat>, bands: seq<seq<seq<int>>>, sizes: seq<nat>, long: bool) {
    && |zero| == |least| == |bands| == |sizes| <= (if long then 63 else 15)
    && forall i | 0 <= i < |bands| :: WindowsOk(bands[i], sizes[i]) && least[i] < Sections.BOOKS
  }

  function TrellisBands(t: Channel.Tables, zero: seq<bool>, least: seq<nat>, bands: seq<seq<seq<int>>>, sizes: seq<nat>,
                        long: bool): (r: seq<Sections.Band>)
    requires Channel.AreTables(t) && GroupIn(zero, least, bands, sizes, long)
    ensures |r| == |bands| && Sections.IsInput(r, long)
  {
    seq(|bands|, i requires 0 <= i < |bands| => TrellisBand(t, zero[i], least[i], bands[i], sizes[i]))
  }

  // ----- what is written

  lemma {:induction false} BandIsWritten(t: Channel.Tables, cb: nat, windows: seq<seq<int>>, size: nat)
    requires Channel.AreTables(t) && cb < Sections.BOOKS && WindowsOk(windows, size)
    ensures forall k | 0 <= k < |windows| :: Channel.ItemOk(Channel.BandItems(cb, windows)[k])
    ensures |Channel.WriteItems(t, Channel.BandItems(cb, windows))| == GroupBits(t, cb, windows, size)
  {
    hide Spectral.WriteBand, Spectral.BandCharge, Spectral.Whole, Spectral.Charge;
    var items := Channel.BandItems(cb, windows);
    AnyBookIs(size, cb);
    if cb == 0 {
      Channel.NothingWritten(t, items);
    } else if windows == [] {
      assert items == [];
    } else {
      var n := |windows| - 1;
      BandIsWritten(t, cb, windows[..n], size);
      var last := Channel.Item(cb, windows[n]);
      assert items == Channel.BandItems(cb, windows[..n]) + [last];
      Channel.WriteItemsJoin(t, Channel.BandItems(cb, windows[..n]), [last]);
      Channel.OneItem(t, last);
      assert Spectral.IsCode(cb, t.spectral[cb]);
      Spectral.BandChargeIsWritten(cb, t.spectral[cb], windows[n]);
    }
  }

  /** The rate of a group in a given assignment of codebooks. */
  function Total(t: Channel.Tables, books: seq<nat>, bands: seq<seq<seq<int>>>, sizes: seq<nat>): nat
    requires Channel.AreTables(t) && |books| == |bands| == |sizes|
    requires forall i | 0 <= i < |bands| :: WindowsOk(bands[i], sizes[i]) && books[i] < Sections.BOOKS
  {
    if books == [] then 0
    else
      var n := |books| - 1;
      Total(t, books[..n], bands[..n], sizes[..n]) + GroupBits(t, books[n], bands[n], sizes[n])
  }

  /** What the writer spends on the data of a group is the rate of its values. */
  lemma {:induction false} TotalIsWritten(t: Channel.Tables, books: seq<nat>, bands: seq<seq<seq<int>>>, sizes: seq<nat>)
    requires Channel.AreTables(t) && |books| == |bands| == |sizes|
    requires forall i | 0 <= i < |bands| :: WindowsOk(bands[i], sizes[i]) && books[i] < Sections.BOOKS
    ensures forall k | 0 <= k < |Channel.GroupItems(books, bands)| :: Channel.ItemOk(Channel.GroupItems(books, bands)[k])
    ensures |Channel.WriteItems(t, Channel.GroupItems(books, bands))| == Total(t, books, bands, sizes)
  {
    hide Channel.AreTables, GroupBits, Channel.BandItems, Channel.GroupItems, WindowsOk, Channel.ItemOk, Channel.WriteItems;
    if books == [] {
      Channel.NoItems(t);
    } else {
      var n := |books| - 1;
      TotalIsWritten(t, books[..n], bands[..n], sizes[..n]);
      BandIsWritten(t, books[n], bands[n], sizes[n]);
      Channel.GroupItemsLast(books[..n], bands[..n], books[n], bands[n]);
      assert books == books[..n] + [books[n]] && bands == bands[..n] + [bands[n]];
      Channel.WriteItemsJoin(t, Channel.GroupItems(books[..n], bands[..n]), Channel.BandItems(books[n], bands[n]));
    }
  }

  /** The rate of the bands that are flagged as zero, in the codebooks they are swept into. */
  function ZeroData(t: Channel.Tables, zero: seq<bool>, books: seq<nat>, bands: seq<seq<seq<int>>>, sizes: seq<nat>): nat
    requires Channel.AreTables(t) && |zero| == |books| == |bands| == |sizes|
    requires forall i | 0 <= i < |bands| :: WindowsOk(bands[i], sizes[i]) && books[i] < Sections.BOOKS
  {
    if books == [] then 0
    else
      var n := |books| - 1;
      ZeroData(t, zero[..n], books[..n], bands[..n], sizes[..n])
        + if zero[n] then GroupBits(t, books[n], bands[n], sizes[n]) else 0
  }

  /** What the trellis counts as data is the rate of the values it was given, but for the zero bands. */
  lemma {:induction false} DataIsTotal(t: Channel.Tables, zero: seq<bool>, least: seq<nat>, bands: seq<seq<seq<int>>>,
                                       sizes: seq<nat>, long: bool, books: seq<nat>)
    requires Channel.AreTables(t) && GroupIn(zero, least, bands, sizes, long) && |books| <= |bands|
    requires forall i | 0 <= i < |books| :: books[i] < Sections.BOOKS
    ensures Sections.DataBits(TrellisBands(t, zero, least, bands, sizes, long), books)
              + ZeroData(t, zero[..|books|], books, bands[..|books|], sizes[..|books|])
         == Total(t, books, bands[..|books|], sizes[..|books|])
    decreases |books|
  {
    hide Channel.AreTables, GroupBits, WindowsOk;
    if books != [] {
      var n := |books| - 1;
      DataIsTotal(t, zero, least, bands, sizes, long, books[..n]);
      assert bands[..n + 1][..n] == bands[..n] && sizes[..n + 1][..n] == sizes[..n] && zero[..n + 1][..n] == zero[..n];
      assert TrellisBands(t, zero, least, bands, sizes, long)[n] == TrellisBand(t, zero[n], least[n], bands[n], sizes[n]);
    }
  }

  // ----- the sentinel is never reached

  /** How many values a group has. */
  function Values(windows: seq<nat>, sizes: seq<nat>): nat
    requires |windows| == |sizes|
  {
    if sizes == [] then 0
    else var n := |sizes| - 1; Values(windows[..n], sizes[..n]) + windows[n] * sizes[n]
  }

  function Counts(bands: seq<seq<seq<int>>>): (r: seq<nat>)
    ensures |r| == |bands|
  {
    seq(|bands|, i requires 0 <= i < |bands| => |bands[i]|)
  }

  lemma {:induction false} GroupBitsBound(t: Channel.Tables, windows: seq<seq<int>>, size: nat)
    requires Channel.AreTables(t) && WindowsOk(windows, size) && Spectral.ShortWords(t.spectral[11])
    ensures GroupBits(t, 11, windows, size) <= 28 * (|windows| * size)
  {
    hide Spectral.BandCharge, Spectral.ShortWords;
    if windows != [] {
      var n := |windows| - 1;
      GroupBitsBound(t, windows[..n], size);
      AnyBookIs(size, 11);
      assert Spectral.IsCode(11, t.spectral[11]);
      Spectral.BandChargeBound(t.spectral[11], windows[n]);
      assert |windows| * size == n * size + size;
    }
  }

  lemma {:induction false} BoundIsSmall(t: Channel.Tables, zero: seq<bool>, least: seq<nat>, bands: seq<seq<seq<int>>>,
                                        sizes: seq<nat>, long: bool, k: nat)
    requires Channel.AreTables(t) && GroupIn(zero, least, bands, sizes, long) && Spectral.ShortWords(t.spectral[11])
    requires k <= |bands|
    ensures Sections.EscapeBound(TrellisBands(t, zero, least, bands, sizes, long), long, k)
         <= Sections.RunBits(long) + 4 + 28 * Values(Counts(bands)[..k], sizes[..k]) + Sections.RunBits(long) * k
  {
    hide Channel.AreTables, Spectral.ShortWords, WindowsOk, GroupBits;
    if k > 0 {
      var n := k - 1;
      BoundIsSmall(t, zero, least, bands, sizes, long, n);
      GroupBitsBound(t, bands[n], sizes[n]);
      assert Counts(bands)[..k][..n] == Counts(bands)[..n] && sizes[..k][..n] == sizes[..n];
      assert TrellisBands(t, zero, least, bands, sizes, long)[n] == TrellisBand(t, zero[n], least[n], bands[n], sizes[n]);
    }
  }

  /** A group of at most 1024 values is always sectioned: with code words of at most 12 bits in the escape codebook, its
      cost stays below the sentinel, whatever the values and the codebooks the bands need. */
  lemma AlwaysSectioned(t: Channel.Tables, zero: seq<bool>, least: seq<nat>, bands: seq<seq<seq<int>>>, sizes: seq<nat>, long: bool)
    requires Channel.AreTables(t) && GroupIn(zero, least, bands, sizes, long) && Spectral.ShortWords(t.spectral[11])
    requires Values(Counts(bands), sizes) <= 1024
    ensures var tb := TrellisBands(t, zero, least, bands, sizes, long);
            && Sections.Good(tb, long, |tb|, Sections.BestBook(tb, long))
            && Sections.At(tb, long, |tb|, Sections.BestBook(tb, long)).cost < Sections.SENTINEL
            && forall i | 0 <= i < |tb| && tb[i].Coded? ::
                 Sections.Trace(tb, long, |tb|, Sections.BestBook(tb, long))[i] >= tb[i].least
  {
    hide Sections.Good, Sections.Trace, Sections.At, Sections.BestBook, Channel.AreTables, Spectral.ShortWords, GroupIn;
    hide Sections.EscapeBound, TrellisBands;
    var tb := TrellisBands(t, zero, least, bands, sizes, long);
    Sizes(zero, least, bands, sizes, long);
    BoundIsSmall(t, zero, least, bands, sizes, long, |bands|);
    assert Counts(bands)[..|bands|] == Counts(bands) && sizes[..|bands|] == sizes;
    Sections.BelowSentinel(tb, long);
    Sections.BestIsBelow(tb, long);
  }

  lemma Sizes(zero: seq<bool>, least: seq<nat>, bands: seq<seq<seq<int>>>, sizes: seq<nat>, long: bool)
    requires GroupIn(zero, least, bands, sizes, long)
    ensures |bands| <= 63 && |sizes| == |bands|
  {
  }

  // ----- the rate charged and the bits written

  /** The final cost of a group. */
  ghost function Cost(t: Channel.Tables, zero: seq<bool>, least: seq<nat>, bands: seq<seq<seq<int>>>, sizes: seq<nat>, long: bool): nat
    requires Channel.AreTables(t) && GroupIn(zero, least, bands, sizes, long)
  {
    var tb := TrellisBands(t, zero, least, bands, sizes, long);
    Sections.At(tb, long, |tb|, Sections.BestBook(tb, long)).cost
  }

  /** The codebooks chosen. */
  ghost function Chosen(t: Channel.Tables, zero: seq<bool>, least: seq<nat>, bands: seq<seq<seq<int>>>, sizes: seq<nat>, long: bool)
    : (b: seq<nat>)
    requires Channel.AreTables(t) && GroupIn(zero, least, bands, sizes, long)
    requires Spectral.ShortWords(t.spectral[11]) && Values(Counts(bands), sizes) <= 1024
    ensures |b| == |bands| && forall i | 0 <= i < |b| :: b[i] < Sections.BOOKS && (!zero[i] ==> least[i] <= b[i])
  {
    AlwaysSectioned(t, zero, least, bands, sizes, long);
    var tb := TrellisBands(t, zero, least, bands, sizes, long);
    assert forall i | 0 <= i < |bands| && !zero[i] :: tb[i].Coded? && tb[i].least == least[i];
    Sections.Trace(tb, long, |tb|, Sections.BestBook(tb, long))
  }

  /** What the writer spends and the trellis does not count: one length field for every section of exactly 62 bands in long
      windows or 14 in short ones, the length fields that zero bands add, and the data of zero bands in the codebooks they are
      swept into. */
  ghost function Uncounted(t: Channel.Tables, zero: seq<bool>, least: seq<nat>, bands: seq<seq<seq<int>>>, sizes: seq<nat>,
                           long: bool, sections: seq<Sections.Section>): nat
    requires Channel.AreTables(t) && GroupIn(zero, least, bands, sizes, long)
    requires |Sections.Expand(sections)| == |bands|
    requires forall i | 0 <= i < |bands| :: Sections.Expand(sections)[i] < Sections.BOOKS
  {
    var books := Sections.Expand(sections);
    Sizes(zero, least, bands, sizes, long);
    Sections.RunBits(long) * Sections.OfLength(sections, 2 * Sections.RunEsc(long))
      + Sections.ZeroFields(TrellisBands(t, zero, least, bands, sizes, long), long, books)
      + ZeroData(t, zero, books, bands, sizes)
  }

  /** The sections and the values that were charged for cost the writer the final cost and what the trellis does not count. */
  lemma RateIsWritten(t: Channel.Tables, zero: seq<bool>, least: seq<nat>, bands: seq<seq<seq<int>>>, sizes: seq<nat>, long: bool,
                      sections: seq<Sections.Section>)
    requires Channel.AreTables(t) && GroupIn(zero, least, bands, sizes, long) && bands != []
    requires Spectral.ShortWords(t.spectral[11]) && Values(Counts(bands), sizes) <= 1024
    requires Sections.Proper(sections) && Sections.Expand(sections) == Chosen(t, zero, least, bands, sizes, long)
    ensures var items := Channel.GroupItems(Sections.Expand(sections), bands);
            && (forall k | 0 <= k < |items| :: Channel.ItemOk(items[k]))
            && |Sections.WriteSections(long, sections)| + |Channel.WriteItems(t, items)|
               == Cost(t, zero, least, bands, sizes, long) + Uncounted(t, zero, least, bands, sizes, long, sections)
  {
    hide Channel.AreTables, GroupBits, WindowsOk, Channel.GroupItems, Channel.ItemOk, Channel.WriteItems, Total, ZeroData;
    hide Sections.Good, Sections.Trace, Sections.At, Sections.BestBook, Sections.DataBits, Sections.Expand, Sections.LongRuns;
    hide Sections.OfLength, Sections.RunEsc, Sections.RunBits, Sections.WriteSections, Values, Spectral.ShortWords, Sections.ZeroFields;
    var books := Sections.Expand(sections);
    var tb := TrellisBands(t, zero, least, bands, sizes, long);
    AlwaysSectioned(t, zero, least, bands, sizes, long);
    Sections.TrellisRate(tb, long, sections);
    Sections.LongRunsCounted(long, sections);
    DataIsTotal(t, zero, least, bands, sizes, long, books);
    assert bands[..|books|] == bands && sizes[..|books|] == sizes && zero[..|books|] == zero;
    TotalIsWritten(t, books, bands, sizes);
  }

  lemma {:induction false} GroupBitsPositive(t: Channel.Tables, cb: nat, windows: seq<seq<int>>, size: nat)
    requires Channel.AreTables(t) && 0 < cb < Sections.BOOKS && WindowsOk(windows, size)
    ensures windows != [] && size > 0 ==> GroupBits(t, cb, windows, size) > 0
  {
    hide Spectral.Charge, Spectral.Whole;
    if windows != [] && size > 0 {
      var n := |windows| - 1;
      AnyBookIs(size, cb);
      assert Spectral.IsCode(cb, t.spectral[cb]);
      Spectral.BandChargePositive(cb, t.spectral[cb], windows[n]);
    }
  }

  /** A zero band costs nothing exactly when it gets codebook 0. */
  lemma {:induction false} ZeroDataIff(t: Channel.Tables, zero: seq<bool>, books: seq<nat>, bands: seq<seq<seq<int>>>, sizes: seq<nat>)
    requires Channel.AreTables(t) && |zero| == |books| == |bands| == |sizes|
    requires forall i | 0 <= i < |bands| :: WindowsOk(bands[i], sizes[i]) && books[i] < Sections.BOOKS
    requires forall i | 0 <= i < |bands| :: bands[i] != [] && sizes[i] > 0
    ensures ZeroData(t, zero, books, bands, sizes) == 0 <==> forall i | 0 <= i < |zero| && zero[i] :: books[i] == 0
  {
    hide Channel.AreTables, WindowsOk;
    if books != [] {
      var n := |books| - 1;
      ZeroDataIff(t, zero[..n], books[..n], bands[..n], sizes[..n]);
      if books[n] > 0 {
        GroupBitsPositive(t, books[n], bands[n], sizes[n]);
      }
    }
  }

  function NoZeros(n: nat): (z: seq<bool>)
    ensures |z| == n
  {
    seq(n, _ => false)
  }

  lemma NoZeroFields(bands: seq<Sections.Band>, long: bool, t: seq<nat>)
    requires |t| <= |bands| <= (if long then 63 else 15) && forall i | 0 <= i < |bands| :: bands[i].Coded?
    ensures Sections.ZeroFields(bands, long, t) == 0
  {
  }

  lemma {:induction false} NoZeroData(t: Channel.Tables, books: seq<nat>, bands: seq<seq<seq<int>>>, sizes: seq<nat>)
    requires Channel.AreTables(t) && |books| == |bands| == |sizes|
    requires forall i | 0 <= i < |bands| :: WindowsOk(bands[i], sizes[i]) && books[i] < Sections.BOOKS
    ensures ZeroData(t, NoZeros(|bands|), books, bands, sizes) == 0
  {
    hide Channel.AreTables, WindowsOk, GroupBits;
    if books != [] {
      var n := |books| - 1;
      NoZeroData(t, books[..n], bands[..n], sizes[..n]);
      assert NoZeros(|bands|)[..n] == NoZeros(n);
    }
  }

  /** Without zero bands only the long sections are not counted. */
  lemma NoneUncounted(t: Channel.Tables, least: seq<nat>, bands: seq<seq<seq<int>>>, sizes: seq<nat>, long: bool,
                      sections: seq<Sections.Section>)
    requires Channel.AreTables(t) && GroupIn(NoZeros(|sizes|), least, bands, sizes, long)
    requires |Sections.Expand(sections)| == |bands|
    requires forall i | 0 <= i < |bands| :: Sections.Expand(sections)[i] < Sections.BOOKS
    ensures Uncounted(t, NoZeros(|sizes|), least, bands, sizes, long, sections)
         == Sections.RunBits(long) * Sections.OfLength(sections, 2 * Sections.RunEsc(long))
  {
    hide Channel.AreTables, WindowsOk, GroupBits, Sections.Expand, Sections.OfLength, ZeroData, Sections.ZeroFields;
    var books := Sections.Expand(sections);
    NoZeroData(t, books, bands, sizes);
    var tb := TrellisBands(t, NoZeros(|sizes|), least, bands, sizes, long);
    forall i | 0 <= i < |tb|
      ensures tb[i].Coded?
    {
      assert tb[i] == TrellisBand(t, NoZeros(|sizes|)[i], least[i], bands[i], sizes[i]);
    }
    NoZeroFields(tb, long, books);
  }

  // ----- no other sections are cheaper

  /** What the writer spends on a group without zero bands, sections and values. */
  lemma WrittenIsBits(t: Channel.Tables, least: seq<nat>, bands: seq<seq<seq<int>>>, sizes: seq<nat>, long: bool,
                      sections: seq<Sections.Section>)
    requires Channel.AreTables(t) && GroupIn(NoZeros(|sizes|), least, bands, sizes, long)
    requires Sections.Proper(sections) && |Sections.Expand(sections)| == |bands|
    requires forall i | 0 <= i < |bands| :: Sections.Expand(sections)[i] < Sections.BOOKS
    ensures var items := Channel.GroupItems(Sections.Expand(sections), bands);
            && (forall k | 0 <= k < |items| :: Channel.ItemOk(items[k]))
            && |Sections.WriteSections(long, sections)| + |Channel.WriteItems(t, items)|
               == Cheapest.Bits(TrellisBands(t, NoZeros(|sizes|), least, bands, sizes, long), long, Sections.Expand(sections))
  {
    hide Channel.AreTables, GroupBits, WindowsOk, Channel.GroupItems, Channel.ItemOk, Channel.WriteItems, Total, ZeroData;
    hide Sections.DataBits, Sections.HeaderBits, Sections.Expand, Sections.WriteSections, TrellisBands;
    var books := Sections.Expand(sections);
    Sections.HeaderIsLength(long, sections);
    DataIsTotal(t, NoZeros(|sizes|), least, bands, sizes, long, books);
    NoZeroData(t, books, bands, sizes);
    assert bands[..|books|] == bands && sizes[..|books|] == sizes && NoZeros(|sizes|)[..|books|] == NoZeros(|bands|);
    TotalIsWritten(t, books, bands, sizes);
  }

  /** In a group without zero bands, and with fewer bands than a length field counts, whatever other sections carry the values, the
      writer would not spend fewer bits on them and the values than on those chosen. */
  lemma CheapestWritten(t: Channel.Tables, least: seq<nat>, bands: seq<seq<seq<int>>>, sizes: seq<nat>, long: bool,
                        sections: seq<Sections.Section>, others: seq<Sections.Section>)
    requires Channel.AreTables(t) && GroupIn(NoZeros(|sizes|), least, bands, sizes, long)
    requires 0 < |bands| < Sections.RunEsc(long)
    requires Spectral.ShortWords(t.spectral[11]) && Values(Counts(bands), sizes) <= 1024
    requires Sections.Proper(sections) && Sections.Expand(sections) == Chosen(t, NoZeros(|sizes|), least, bands, sizes, long)
    requires Sections.Proper(others) && |Sections.Expand(others)| == |bands|
    requires forall i | 0 <= i < |bands| :: least[i] <= Sections.Expand(others)[i] < Sections.BOOKS
    ensures var items, otherItems := Channel.GroupItems(Sections.Expand(sections), bands),
                                     Channel.GroupItems(Sections.Expand(others), bands);
            && (forall k | 0 <= k < |items| :: Channel.ItemOk(items[k]))
            && (forall k | 0 <= k < |otherItems| :: Channel.ItemOk(otherItems[k]))
            && |Sections.WriteSections(long, sections)| + |Channel.WriteItems(t, items)|
               <= |Sections.WriteSections(long, others)| + |Channel.WriteItems(t, otherItems)|
  {
    hide Channel.AreTables, WindowsOk, Channel.GroupItems, Channel.ItemOk, Channel.WriteItems, Values, Spectral.ShortWords;
    hide Sections.Good, Sections.Trace, Sections.BestBook, Sections.Expand, Sections.WriteSections, Sections.Proper, Cheapest.Bits;
    hide Sections.At;
    var zero := NoZeros(|sizes|);
    var tb := TrellisBands(t, zero, least, bands, sizes, long);
    AlwaysSectioned(t, zero, least, bands, sizes, long);
    WrittenIsBits(t, least, bands, sizes, long, sections);
    WrittenIsBits(t, least, bands, sizes, long, others);
    forall i | 0 <= i < |tb|
      ensures tb[i].Coded? ==> tb[i].least <= Sections.Expand(others)[i]
    {
      assert tb[i] == TrellisBand(t, zero[i], least[i], bands[i], sizes[i]);
    }
    Cheapest.CheapestOfAll(tb, long, Sections.Expand(others));
  }

  // ----- the scalefactors charged for and those written with

  /** The coefficients of every window of a group, band by band. */
  type Signal = seq<seq<seq<real>>>

  ghost predicate SignalOk(s: Signal, windows: nat, sizes: seq<nat>) {
    |s| == windows && forall w | 0 <= w < windows :: WindowOk(s[w], sizes)
  }

  ghost predicate WindowOk(window: seq<seq<real>>, sizes: seq<nat>) {
    |window| == |sizes| && forall i | 0 <= i < |sizes| :: |window[i]| == sizes[i]
  }

  /** sf has the scalefactor indices of each window of the group, band by band. */
  ghost predicate FactorsOk(sf: seq<seq<int>>, sizes: seq<nat>) {
    sf != [] && forall w | 0 <= w < |sf| :: |sf[w]| == |sizes|
  }

  /** The values of a band of a window at an index. */
  ghost function ValuesAt(step: Quantiser.Steps, cs: seq<real>, x: int): (v: seq<int>)
    requires Quantiser.Falling(step)
    ensures |v| == |cs|
  {
    assert Quantiser.Falls(step, x, x + 1);
    Quantiser.QuantiseBand(cs, step(x))
  }

  /** The trellis takes each window at its own scalefactors. */
  ghost function Charged(step: Quantiser.Steps, s: Signal, sf: seq<seq<int>>, sizes: seq<nat>): (b: seq<seq<seq<int>>>)
    requires Quantiser.Falling(step) && FactorsOk(sf, sizes) && SignalOk(s, |sf|, sizes)
    ensures |b| == |sizes|
  {
    seq(|sizes|, i requires 0 <= i < |sizes| => seq(|sf|, w requires 0 <= w < |sf| =>
      assert WindowOk(s[w], sizes); ValuesAt(step, s[w][i], sf[w][i])))
  }

  /** The writer takes every window at the scalefactors of the first. */
  ghost function Written(step: Quantiser.Steps, s: Signal, sf: seq<seq<int>>, sizes: seq<nat>): (b: seq<seq<seq<int>>>)
    requires Quantiser.Falling(step) && FactorsOk(sf, sizes) && SignalOk(s, |sf|, sizes)
    ensures |b| == |sizes|
  {
    seq(|sizes|, i requires 0 <= i < |sizes| => seq(|sf|, w requires 0 <= w < |sf| =>
      assert WindowOk(s[w], sizes); ValuesAt(step, s[w][i], sf[0][i])))
  }

  lemma ChargedAt(step: Quantiser.Steps, s: Signal, sf: seq<seq<int>>, sizes: seq<nat>, i: nat, w: nat)
    requires Quantiser.Falling(step) && FactorsOk(sf, sizes) && SignalOk(s, |sf|, sizes) && i < |sizes| && w < |sf|
    ensures WindowOk(s[w], sizes) && |Charged(step, s, sf, sizes)[i]| == |Written(step, s, sf, sizes)[i]| == |sf|
    ensures Charged(step, s, sf, sizes)[i][w] == ValuesAt(step, s[w][i], sf[w][i])
    ensures Written(step, s, sf, sizes)[i][w] == ValuesAt(step, s[w][i], sf[0][i])
  {
    hide ValuesAt;
  }

  /** The largest size among the coefficients of a band in all windows. */
  ghost function GroupPeak(s: Signal, sizes: seq<nat>, i: nat): (a: real)
    requires (forall w | 0 <= w < |s| :: WindowOk(s[w], sizes)) && i < |sizes|
    ensures a >= 0.0
  {
    if s == [] then 0.0
    else
      assert WindowOk(s[|s| - 1], sizes);
      Quantiser.Larger(GroupPeak(s[..|s| - 1], sizes, i), Quantiser.Peak(s[|s| - 1][i]))
  }

  /** The codebook a band needs, as the two-loop search finds it: for the largest coefficient at the first window's index. */
  ghost function Least(step: Quantiser.Steps, s: Signal, sf: seq<seq<int>>, sizes: seq<nat>): (b: seq<nat>)
    requires Quantiser.Falling(step) && FactorsOk(sf, sizes) && SignalOk(s, |sf|, sizes)
    ensures |b| == |sizes| && forall i | 0 <= i < |b| :: b[i] < Sections.BOOKS
  {
    seq(|sizes|, i requires 0 <= i < |sizes| =>
      assert Quantiser.Falls(step, sf[0][i], sf[0][i] + 1);
      Quantiser.MinBook(Quantiser.Magnitude(GroupPeak(s, sizes, i), step(sf[0][i]))))
  }

  lemma {:induction false} GroupPeakBounds(s: Signal, sizes: seq<nat>, i: nat, w: nat)
    requires (forall v | 0 <= v < |s| :: WindowOk(s[v], sizes)) && i < |sizes| && w < |s|
    ensures WindowOk(s[w], sizes) && Quantiser.Peak(s[w][i]) <= GroupPeak(s, sizes, i)
  {
    hide Quantiser.Peak;
    if w < |s| - 1 {
      GroupPeakBounds(s[..|s| - 1], sizes, i, w);
    }
  }

  lemma {:induction false} GroupPeakReached(s: Signal, sizes: seq<nat>, i: nat) returns (w: nat)
    requires s != [] && (forall v | 0 <= v < |s| :: WindowOk(s[v], sizes)) && i < |sizes|
    ensures w < |s| && WindowOk(s[w], sizes) && Quantiser.Peak(s[w][i]) == GroupPeak(s, sizes, i)
  {
    hide Quantiser.Peak;
    var n := |s| - 1;
    assert WindowOk(s[n], sizes);
    if n > 0 && GroupPeak(s[..n], sizes, i) > Quantiser.Peak(s[n][i]) {
      w := GroupPeakReached(s[..n], sizes, i);
    } else {
      w := n;
    }
  }

  /** A codebook's table has a word for each of these values. */
  predicate Carries(cb: nat, v: seq<int>) {
    forall k | 0 <= k < |v| :: Spectral.Abs(v[k]) <= if cb == 0 then 0 else Spectral.MaxVal(cb)
  }

  lemma MinBookIs(m: nat, cb: nat)
    requires cb < 11
    ensures Quantiser.MinBook(m) <= cb <==> m <= if cb == 0 then 0 else Spectral.MaxVal(cb)
  {
  }

  /** The codebook found for a band is the first that carries every value written of it, in whatever window. */
  lemma LeastIff(step: Quantiser.Steps, s: Signal, sf: seq<seq<int>>, sizes: seq<nat>, i: nat, cb: nat)
    requires Quantiser.Falling(step) && FactorsOk(sf, sizes) && SignalOk(s, |sf|, sizes) && i < |sizes| && sizes[i] > 0
    requires cb < 11
    ensures Least(step, s, sf, sizes)[i] <= cb
            <==> |Written(step, s, sf, sizes)[i]| == |sf|
                 && forall w | 0 <= w < |sf| :: Carries(cb, Written(step, s, sf, sizes)[i][w])
  {
    hide Written, Quantiser.Peak, Quantiser.MinBook, Quantiser.Magnitude, Quantiser.Quantised, Quantiser.Size, GroupPeak;
    assert Quantiser.Falls(step, sf[0][i], sf[0][i] + 1);
    var q, written := step(sf[0][i]), Written(step, s, sf, sizes)[i];
    var m := Quantiser.Magnitude(GroupPeak(s, sizes, i), q);
    MinBookIs(m, cb);
    ChargedAt(step, s, sf, sizes, i, 0);
    if Least(step, s, sf, sizes)[i] <= cb {
      forall w | 0 <= w < |sf|
        ensures Carries(cb, written[w])
      {
        ChargedAt(step, s, sf, sizes, i, w);
        GroupPeakBounds(s, sizes, i, w);
        ValuesWithin(step, s[w][i], sf[0][i], GroupPeak(s, sizes, i));
      }
    }
    if forall w | 0 <= w < |sf| :: Carries(cb, written[w]) {
      var w := GroupPeakReached(s, sizes, i);
      ChargedAt(step, s, sf, sizes, i, w);
      var k := Quantiser.PeakReached(s[w][i]);
      Quantiser.QuantisedSize(s[w][i][k], q);
      assert Carries(cb, written[w]);
      assert Spectral.Abs(written[w][k]) == m;
    }
  }

  lemma ValuesWithin(step: Quantiser.Steps, cs: seq<real>, x: int, a: real)
    requires Quantiser.Falling(step) && Quantiser.Peak(cs) <= a
    ensures step(x) > 0.0 && forall k | 0 <= k < |cs| :: Spectral.Abs(ValuesAt(step, cs, x)[k]) <= Quantiser.Magnitude(a, step(x))
  {
    assert Quantiser.Falls(step, x, x + 1);
    hide Quantiser.Quantised, Quantiser.Size, Quantiser.Peak, Quantiser.Magnitude, Quantiser.Falling;
    forall k | 0 <= k < |cs|
      ensures Spectral.Abs(ValuesAt(step, cs, x)[k]) <= Quantiser.Magnitude(a, step(x))
    {
      Quantiser.PeakBounds(cs, k);
      Quantiser.MagnitudeFalls(Quantiser.Size(cs[k]), a, step(x), step(x));
      Quantiser.QuantisedSize(cs[k], step(x));
    }
  }

  /** A window group as it occurs: at most 1024 values, in bands any codebook can carry. */
  ghost predicate Real(sf: seq<seq<int>>, sizes: seq<nat>, long: bool) {
    && FactorsOk(sf, sizes) && 0 < |sizes| <= (if long then 63 else 15)
    && (forall i | 0 <= i < |sizes| :: AnyBook(sizes[i]) && sizes[i] > 0)
    && Values(seq(|sizes|, _ => |sf|), sizes) <= 1024
  }

  lemma ChargedIn(step: Quantiser.Steps, s: Signal, sf: seq<seq<int>>, sizes: seq<nat>, long: bool)
    requires Quantiser.Falling(step) && Real(sf, sizes, long) && SignalOk(s, |sf|, sizes)
    ensures GroupIn(NoZeros(|sizes|), Least(step, s, sf, sizes), Charged(step, s, sf, sizes), sizes, long)
    ensures GroupIn(NoZeros(|sizes|), Least(step, s, sf, sizes), Written(step, s, sf, sizes), sizes, long)
    ensures Values(Counts(Charged(step, s, sf, sizes)), sizes) <= 1024
  {
    hide AnyBook, Values, Charged, Written, Least, ValuesAt, Quantiser.Falling;
    var charged, written := Charged(step, s, sf, sizes), Written(step, s, sf, sizes);
    forall i | 0 <= i < |sizes|
      ensures WindowsOk(charged[i], sizes[i]) && WindowsOk(written[i], sizes[i]) && |charged[i]| == |sf|
    {
      ChargedAt(step, s, sf, sizes, i, 0);
      forall w | 0 <= w < |sf|
        ensures |charged[i][w]| == sizes[i] && |written[i][w]| == sizes[i]
      {
        ChargedAt(step, s, sf, sizes, i, w);
      }
    }
    assert Counts(charged) == seq(|sizes|, _ => |sf|);
  }

  /** The cost the trellis minimised is what the writer then spends, long sections aside. */
  ghost predicate RateRight(t: Channel.Tables, step: Quantiser.Steps, s: Signal, sf: seq<seq<int>>, sizes: seq<nat>, long: bool)
    requires Channel.AreTables(t) && Spectral.ShortWords(t.spectral[11])
    requires Quantiser.Falling(step) && Real(sf, sizes, long) && SignalOk(s, |sf|, sizes)
  {
    ChargedIn(step, s, sf, sizes, long);
    var least, charged := Least(step, s, sf, sizes), Charged(step, s, sf, sizes);
    var books := Chosen(t, NoZeros(|sizes|), least, charged, sizes, long);
    var sections := Sections.SectionsOf(books);
    var items := Channel.GroupItems(books, Written(step, s, sf, sizes));
    && (forall k | 0 <= k < |items| :: Channel.ItemOk(items[k]))
    && |Sections.WriteSections(long, sections)| + |Channel.WriteItems(t, items)|
       == Cost(t, NoZeros(|sizes|), least, charged, sizes, long)
          + Sections.RunBits(long) * Sections.OfLength(sections, 2 * Sections.RunEsc(long))
  }

  /** That is so exactly when the values written cost as much as those charged. */
  lemma RateRightIs(t: Channel.Tables, step: Quantiser.Steps, s: Signal, sf: seq<seq<int>>, sizes: seq<nat>, long: bool)
    requires Channel.AreTables(t) && Spectral.ShortWords(t.spectral[11])
    requires Quantiser.Falling(step) && Real(sf, sizes, long) && SignalOk(s, |sf|, sizes)
    ensures GroupIn(NoZeros(|sizes|), Least(step, s, sf, sizes), Charged(step, s, sf, sizes), sizes, long)
    ensures GroupIn(NoZeros(|sizes|), Least(step, s, sf, sizes), Written(step, s, sf, sizes), sizes, long)
    ensures Values(Counts(Charged(step, s, sf, sizes)), sizes) <= 1024
    ensures var books := Chosen(t, NoZeros(|sizes|), Least(step, s, sf, sizes), Charged(step, s, sf, sizes), sizes, long);
            RateRight(t, step, s, sf, sizes, long)
            <==> Total(t, books, Written(step, s, sf, sizes), sizes) == Total(t, books, Charged(step, s, sf, sizes), sizes)
  {
    hide Channel.AreTables, WindowsOk, Channel.GroupItems, Channel.ItemOk, Channel.WriteItems, Total, Chosen, Cost;
    hide Sections.Expand, Sections.OfLength, Sections.RunEsc, Sections.RunBits, Sections.WriteSections, Sections.SectionsOf;
    hide Values, Spectral.ShortWords, Charged, Written, Least, Sections.Proper, SignalOk, Quantiser.Falling;
    ChargedIn(step, s, sf, sizes, long);
    var least, charged, written := Least(step, s, sf, sizes), Charged(step, s, sf, sizes), Written(step, s, sf, sizes);
    var books := Chosen(t, NoZeros(|sizes|), least, charged, sizes, long);
    Sections.SectionsOfExpand(books);
    RateIsWritten(t, NoZeros(|sizes|), least, charged, sizes, long, Sections.SectionsOf(books));
    NoneUncounted(t, least, charged, sizes, long, Sections.SectionsOf(books));
    TotalIsWritten(t, books, charged, sizes);
    TotalIsWritten(t, books, written, sizes);
  }

  // ----- when the indices differ

  lemma {:induction false} GroupBitsUpdate(t: Channel.Tables, windows: seq<seq<int>>, size: nat, w: nat, v: seq<int>)
    requires Channel.AreTables(t) && WindowsOk(windows, size) && w < |windows| && |v| == size
    ensures WindowsOk(windows[w := v], size) && Spectral.Whole(11, size)
    ensures Spectral.IsCode(11, t.spectral[11])
    ensures GroupBits(t, 11, windows[w := v], size) + Spectral.BandCharge(11, t.spectral[11], windows[w])
         == GroupBits(t, 11, windows, size) + Spectral.BandCharge(11, t.spectral[11], v)
  {
    hide AnyBook, Spectral.BandCharge, Spectral.Whole;
    AnyBookIs(size, 11);
    var n := |windows| - 1;
    if w < n {
      GroupBitsUpdate(t, windows[..n], size, w, v);
      assert windows[w := v][..n] == windows[..n][w := v];
    } else {
      assert windows[w := v][..n] == windows[..n];
    }
  }

  lemma {:induction false} TotalUpdate(t: Channel.Tables, books: seq<nat>, bands: seq<seq<seq<int>>>, sizes: seq<nat>,
                                       i: nat, windows: seq<seq<int>>)
    requires Channel.AreTables(t) && |books| == |bands| == |sizes| && i < |bands|
    requires forall i | 0 <= i < |bands| :: WindowsOk(bands[i], sizes[i]) && books[i] < Sections.BOOKS
    requires WindowsOk(windows, sizes[i])
    ensures Total(t, books, bands[i := windows], sizes) + GroupBits(t, books[i], bands[i], sizes[i])
         == Total(t, books, bands, sizes) + GroupBits(t, books[i], windows, sizes[i])
  {
    hide Channel.AreTables, WindowsOk, GroupBits;
    var n := |books| - 1;
    if i < n {
      TotalUpdate(t, books[..n], bands[..n], sizes[..n], i, windows);
      assert bands[i := windows][..n] == bands[..n][i := windows];
    } else {
      assert bands[i := windows][..n] == bands[..n];
    }
  }

  /** n coefficients of one size. */
  function Flat(a: real, n: nat): (cs: seq<real>)
    ensures |cs| == n && forall k | 0 <= k < n :: cs[k] == a
  {
    seq(n, _ => a)
  }

  /** Silence, but for coefficients of one size all over band i of window w. */
  ghost function Loud(windows: nat, sizes: seq<nat>, w: nat, i: nat, a: real): (s: Signal)
    ensures SignalOk(s, windows, sizes)
    ensures forall v, j | 0 <= v < windows && 0 <= j < |sizes| ::
              WindowOk(s[v], sizes) && s[v][j] == Flat(if v == w && j == i then a else 0.0, sizes[j])
  {
    var s: Signal := seq(windows, v requires 0 <= v < windows => LoudWindow(sizes, v == w, i, a));
    assert forall v | 0 <= v < windows :: s[v] == LoudWindow(sizes, v == w, i, a);
    s
  }

  ghost function LoudWindow(sizes: seq<nat>, loud: bool, i: nat, a: real): (window: seq<seq<real>>)
    ensures WindowOk(window, sizes)
    ensures forall j | 0 <= j < |sizes| :: window[j] == Flat(if loud && j == i then a else 0.0, sizes[j])
  {
    seq(|sizes|, j requires 0 <= j < |sizes| => Flat(if loud && j == i then a else 0.0, sizes[j]))
  }

  /** Its largest coefficient in that band. */
  lemma {:induction false} LoudPeak(s: Signal, sizes: seq<nat>, w: nat, i: nat, a: real)
    requires (forall v | 0 <= v < |s| :: WindowOk(s[v], sizes)) && i < |sizes| && sizes[i] > 0 && a >= 0.0
    requires forall v | 0 <= v < |s| :: WindowOk(s[v], sizes) && s[v][i] == Flat(if v == w then a else 0.0, sizes[i])
    ensures GroupPeak(s, sizes, i) == if w < |s| then a else 0.0
  {
    hide Quantiser.Peak, Flat;
    if s != [] {
      var n := |s| - 1;
      LoudPeak(s[..n], sizes, w, i, a);
      assert WindowOk(s[n], sizes);
      Quantiser.PeakOfEqual(s[n][i], if n == w then a else 0.0);
    }
  }

  lemma FlatValues(step: Quantiser.Steps, a: real, n: nat, x: int)
    requires Quantiser.Falling(step) && a >= 0.0
    ensures step(x) > 0.0
    ensures ValuesAt(step, Flat(a, n), x) == Spectral.Equal(Quantiser.Magnitude(a, step(x)), n)
    ensures a == 0.0 ==> ValuesAt(step, Flat(a, n), x) == Spectral.Equal(0, n)
  {
    assert Quantiser.Falls(step, x, x + 1);
    Quantiser.Cut(0.0, step(x), 1);
  }

  /** What is charged for a loud band and what is written: its window's values at either index; the rest is silent. */
  lemma LoudValues(step: Quantiser.Steps, sf: seq<seq<int>>, sizes: seq<nat>, w: nat, i: nat, a: real)
    requires Quantiser.Falling(step) && FactorsOk(sf, sizes) && w < |sf| && i < |sizes| && a >= 0.0
    ensures step(sf[0][i]) > 0.0 && step(sf[w][i]) > 0.0
    ensures var s := Loud(|sf|, sizes, w, i, a);
            var charged, written := Charged(step, s, sf, sizes), Written(step, s, sf, sizes);
            && |written[i]| == |sf|
            && written[i][w] == Spectral.Equal(Quantiser.Magnitude(a, step(sf[0][i])), sizes[i])
            && charged == written[i := written[i][w := Spectral.Equal(Quantiser.Magnitude(a, step(sf[w][i])), sizes[i])]]
  {
    hide Charged, Written, ValuesAt, Loud, Flat, Quantiser.Falling, Quantiser.Magnitude;
    var s := Loud(|sf|, sizes, w, i, a);
    var charged, written := Charged(step, s, sf, sizes), Written(step, s, sf, sizes);
    FlatValues(step, a, sizes[i], sf[0][i]);
    FlatValues(step, a, sizes[i], sf[w][i]);
    ChargedAt(step, s, sf, sizes, i, w);
    var other := written[i := written[i][w := charged[i][w]]];
    forall j | 0 <= j < |sizes|
      ensures charged[j] == other[j]
    {
      ChargedAt(step, s, sf, sizes, j, 0);
      forall v | 0 <= v < |sf|
        ensures charged[j][v] == other[j][v]
      {
        ChargedAt(step, s, sf, sizes, j, v);
        if v != w || j != i {
          FlatValues(step, 0.0, sizes[j], sf[v][j]);
          FlatValues(step, 0.0, sizes[j], sf[0][j]);
        }
      }
    }
  }

  /** A loud band that needs the escape codebook is charged right exactly when its values at the two indices cost the same. */
  lemma LoudTotals(t: Channel.Tables, step: Quantiser.Steps, sf: seq<seq<int>>, sizes: seq<nat>, long: bool, w: nat, i: nat, a: real)
    requires Channel.AreTables(t) && Spectral.ShortWords(t.spectral[11]) && Quantiser.Falling(step) && Real(sf, sizes, long)
    requires w < |sf| && i < |sizes| && a >= 0.0
    ensures step(sf[0][i]) > 0.0 && step(sf[w][i]) > 0.0
    ensures Spectral.Whole(11, sizes[i]) && Spectral.IsCode(11, t.spectral[11])
    ensures Quantiser.Magnitude(a, step(sf[0][i])) >= 13 ==>
              (RateRight(t, step, Loud(|sf|, sizes, w, i, a), sf, sizes, long)
               <==> Spectral.BandCharge(11, t.spectral[11], Spectral.Equal(Quantiser.Magnitude(a, step(sf[w][i])), sizes[i]))
                    == Spectral.BandCharge(11, t.spectral[11], Spectral.Equal(Quantiser.Magnitude(a, step(sf[0][i])), sizes[i])))
  {
    hide Channel.AreTables, Spectral.BandCharge, Spectral.ShortWords, RateRight, Values, GroupBits, Total, Spectral.Whole;
    hide Charged, Written, Loud, Quantiser.Falling, Quantiser.Magnitude, Spectral.Equal, AnyBook;
    var s := Loud(|sf|, sizes, w, i, a);
    LoudValues(step, sf, sizes, w, i, a);
    LoudPeak(s, sizes, w, i, a);
    var least, charged, written := Least(step, s, sf, sizes), Charged(step, s, sf, sizes), Written(step, s, sf, sizes);
    RateRightIs(t, step, s, sf, sizes, long);
    var books := Chosen(t, NoZeros(|sizes|), least, charged, sizes, long);
    var one := Spectral.Equal(Quantiser.Magnitude(a, step(sf[w][i])), sizes[i]);
    GroupBitsUpdate(t, written[i], sizes[i], w, one);
    TotalUpdate(t, books, written, sizes, i, charged[i]);
    if Quantiser.Magnitude(a, step(sf[0][i])) >= 13 {
      assert least[i] == 11;
      assert books[i] == 11;
    }
  }

  /** A window whose index is not the first window's: a band of coefficients of one size, with values of at least 32 at one of
      the two indices and below 32 at the other, is charged otherwise than it is written. */
  lemma Mischarged(t: Channel.Tables, step: Quantiser.Steps, sf: seq<seq<int>>, sizes: seq<nat>, long: bool, w: nat, i: nat)
    returns (s: Signal)
    requires Channel.AreTables(t) && Spectral.ShortWords(t.spectral[11]) && Quantiser.Falling(step) && Real(sf, sizes, long)
    requires w < |sf| && i < |sizes| && sf[w][i] != sf[0][i]
    ensures SignalOk(s, |sf|, sizes) && !RateRight(t, step, s, sf, sizes, long)
  {
    hide Spectral.BandCharge, Spectral.ShortWords, RateRight, Values, AnyBook, SignalOk, Loud;
    hide Quantiser.Magnitude, Quantiser.Between;
    var x, y := sf[0][i], sf[w][i];
    assert if x < y then Quantiser.Falls(step, x, y) else Quantiser.Falls(step, y, x);
    var a := Quantiser.Between(step(if x < y then x else y), step(if x < y then y else x));
    Quantiser.BetweenIs(step(if x < y then x else y), step(if x < y then y else x));
    s := Loud(|sf|, sizes, w, i, a);
    LoudTotals(t, step, sf, sizes, long, w, i, a);
    var u, v := Quantiser.Magnitude(a, step(x)), Quantiser.Magnitude(a, step(y));
    Spectral.LongerEscapes(t.spectral[11], if x < y then u else v, if x < y then v else u, sizes[i]);
  }

  /** The rate the trellis minimises is the rate the writer spends, for every signal, exactly when all windows of the group
      have the scalefactor indices of the first. */
  lemma RateRightIff(t: Channel.Tables, step: Quantiser.Steps, sf: seq<seq<int>>, sizes: seq<nat>, long: bool)
    requires Channel.AreTables(t) && Spectral.ShortWords(t.spectral[11]) && Quantiser.Falling(step) && Real(sf, sizes, long)
    ensures (forall s: Signal | SignalOk(s, |sf|, sizes) :: RateRight(t, step, s, sf, sizes, long))
            <==> (forall w, i | 0 <= w < |sf| && 0 <= i < |sizes| :: sf[w][i] == sf[0][i])
  {
    hide Channel.AreTables, Spectral.ShortWords, RateRight, Values, AnyBook, SignalOk, Quantiser.Falling, Charged, Written, Least;
    if forall w, i | 0 <= w < |sf| && 0 <= i < |sizes| :: sf[w][i] == sf[0][i] {
      forall s: Signal | SignalOk(s, |sf|, sizes)
        ensures RateRight(t, step, s, sf, sizes, long)
      {
        RateRightIs(t, step, s, sf, sizes, long);
        SameValues(step, s, sf, sizes);
      }
    } else {
      var w, i :| 0 <= w < |sf| && 0 <= i < |sizes| && sf[w][i] != sf[0][i];
      var s := Mischarged(t, step, sf, sizes, long, w, i);
    }
  }

  lemma SameValues(step: Quantiser.Steps, s: Signal, sf: seq<seq<int>>, sizes: seq<nat>)
    requires Quantiser.Falling(step) && FactorsOk(sf, sizes) && SignalOk(s, |sf|, sizes)
    requires forall w, i | 0 <= w < |sf| && 0 <= i < |sizes| :: sf[w][i] == sf[0][i]
    ensures Charged(step, s, sf, sizes) == Written(step, s, sf, sizes)
  {
    hide ValuesAt, Charged, Written, Quantiser.Falling, SignalOk;
    var charged, written := Charged(step, s, sf, sizes), Written(step, s, sf, sizes);
    forall i | 0 <= i < |sizes|
      ensures charged[i] == written[i]
    {
      ChargedAt(step, s, sf, sizes, i, 0);
      forall w | 0 <= w < |sf|
        ensures charged[i][w] == written[i][w]
      {
        ChargedAt(step, s, sf, sizes, i, w);
      }
    }
  }

  /** With the steps as they are: two windows of one band of four coefficients, at indices 140 and 141, the first silent; the
      second is charged at values of 28 and written at values of 32. */
  lemma TwoWindowsMischarged(t: Channel.Tables, step: Quantiser.Steps, r: real) returns (s: Signal)
    requires Channel.AreTables(t) && Spectral.ShortWords(t.spectral[11]) && Quantiser.IsStep(step, r)
    ensures Real([[140], [141]], [4], false) && SignalOk(s, 2, [4]) && Quantiser.Falling(step)
    ensures Charged(step, s, [[140], [141]], [4]) == [[Spectral.Equal(0, 4), Spectral.Equal(28, 4)]]
    ensures Written(step, s, [[140], [141]], [4]) == [[Spectral.Equal(0, 4), Spectral.Equal(32, 4)]]
    ensures !RateRight(t, step, s, [[140], [141]], [4], false)
  {
    hide Spectral.ShortWords, RateRight, Quantiser.IsStep, Quantiser.Falling, Charged, Written, Spectral.Equal;
    hide Loud, Quantiser.Magnitude, Spectral.BandCharge, Values;
    var sizes: seq<nat> := [4];
    var sf := [[140], [141]];
    TwoWindowsReal();
    Quantiser.IsStepFalls(step, r);
    Quantiser.AtLoud(step, r, 140);
    var a := 31.5946 / step(140);
    s := Loud(2, sizes, 1, 0, a);
    LoudValues(step, sf, sizes, 1, 0, a);
    LoudTotals(t, step, sf, sizes, false, 1, 0, a);
    Spectral.LongerEscapes(t.spectral[11], 32, 28, 4);
    var written := Written(step, s, sf, sizes);
    ChargedAt(step, s, sf, sizes, 0, 0);
    FlatValues(step, 0.0, 4, 140);
    assert written[0] == [Spectral.Equal(0, 4), Spectral.Equal(32, 4)];
    assert Charged(step, s, sf, sizes)[0] == [Spectral.Equal(0, 4), Spectral.Equal(28, 4)];
  }

  lemma TwoWindowsReal()
    ensures Real([[140], [141]], [4], false)
  {
    assert Spectral.Whole(5, 2) && Spectral.Whole(5, 4) && AnyBook(4);
    var windows, sizes: seq<nat> := seq(1, _ => 2), [4];
    assert Values([], []) == 0 && windows[..0] == [] && sizes[..0] == [] && Values(windows, sizes) == 8;
  }
}
