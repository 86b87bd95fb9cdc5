/** Sectioning of AAC scalefactor bands by codebook: the rate trellis, its backtrack, the section writer, and the reader. */
module AacSections {
  import opened PrefixCode
  import opened Wrappers

  const BOOKS: nat := 12
  const SENTINEL: nat := 61450

  /** A band to code needs a codebook of at least the given number; bits gives the size of its data in each codebook. */
  datatype Band =
    | Zero
    | Coded(least: nat, bits: seq<nat>)
  {
    /** The size of the data of the band in codebook cb. */
    function Data(cb: nat): nat {
      if Coded? && cb < |bits| then bits[cb] else 0
    }
  }

  /** Width of a section length field: 5 bits in long windows, 3 in short ones. */
  function RunBits(long: bool): nat {
    if long then 5 else 3
  }

  function RunEsc(long: bool): (e: nat)
    ensures e > 0
  {
    if long then 31 else 7
  }

  /** The table of bits charged for a run. */
  function RunValueBits(long: bool, run: nat): nat
    requires run <= if long then 63 else 15
  {
    if long then
      if run <= 30 then 5 else if run <= 62 then 10 else 15
    else
      if run <= 6 then 3 else if run <= 14 then 6 else 9
  }

  ghost predicate IsInput(bands: seq<Band>, long: bool) {
    && |bands| <= (if long then 63 else 15)
    && forall k | 0 <= k < |bands| && bands[k].Coded? :: bands[k].least < BOOKS && |bands[k].bits| == BOOKS
  }

  // ----- the trellis

  datatype Cell = Cell(cost: nat, prev: int, run: nat)

  /** One column of the trellis, and the cheapest codebook after the last coded band. */
  datatype Stage = Stage(cells: seq<Cell>, minrd: Option<nat>, mincb: nat)

  function Start(long: bool): (s: Stage)
    ensures |s.cells| == BOOKS
  {
    Stage(seq(BOOKS, _ => Cell(RunBits(long) + 4, -1, 0)), None, 0)
  }

  function StayCost(c: Cell, bits: nat, long: bool): nat
    requires c.run + 1 <= if long then 63 else 15
  {
    c.cost + bits + if RunValueBits(long, c.run) != RunValueBits(long, c.run + 1) then RunBits(long) else 0
  }

  /** Codebook cb for one more coded band: stay in the section, or open a new one after the cheapest codebook so far. */
  function CodedCell(s: Stage, least: nat, bits: nat, long: bool, cb: nat): (c: Cell)
    requires |s.cells| == BOOKS && cb < BOOKS && s.cells[cb].run + 1 <= if long then 63 else 15
    ensures c.run <= s.cells[cb].run + 1
  {
    if cb < least then Cell(SENTINEL, -1, 0)
    else
      var stay := StayCost(s.cells[cb], bits, long);
      if s.minrd.Some? && s.minrd.value + bits + RunBits(long) + 4 < stay
      then Cell(s.minrd.value + bits + RunBits(long) + 4, s.mincb, 1)
      else Cell(stay, cb, s.cells[cb].run + 1)
  }

  /** The first cheapest cell among least..n-1. */
  function Cheapest(cells: seq<Cell>, least: nat, n: nat): (r: int)
    requires least <= n <= |cells|
    ensures if n == least then r == -1 else least <= r < n
    ensures r >= 0 ==> forall i | least <= i < n :: cells[r].cost <= cells[i].cost && (i < r ==> cells[r].cost < cells[i].cost)
  {
    if n == least then -1
    else
      var r := Cheapest(cells, least, n - 1);
      if r == -1 || cells[n - 1].cost < cells[r].cost then n - 1 else r
  }

  ghost predicate Runs(s: Stage, k: nat) {
    |s.cells| == BOOKS && forall cb | 0 <= cb < BOOKS :: s.cells[cb].run <= k
  }

  function Next(s: Stage, band: Band, long: bool): (r: Stage)
    requires |s.cells| == BOOKS && (forall cb | 0 <= cb < BOOKS :: s.cells[cb].run + 1 <= if long then 63 else 15)
    requires band.Coded? ==> band.least < BOOKS
    ensures |r.cells| == BOOKS && forall cb | 0 <= cb < BOOKS :: r.cells[cb].run <= s.cells[cb].run + 1
  {
    match band
    case Zero =>
      Stage(seq(BOOKS, cb requires 0 <= cb < BOOKS => Cell(s.cells[cb].cost, cb, s.cells[cb].run + 1)), s.minrd, s.mincb)
    case Coded(least, _) =>
      var cells := seq(BOOKS, cb requires 0 <= cb < BOOKS => CodedCell(s, least, band.Data(cb), long, cb));
      var c := Cheapest(cells, least, BOOKS);
      assert forall cb | 0 <= cb < BOOKS :: cells[cb] == CodedCell(s, least, band.Data(cb), long, cb);
      Stage(cells, Some(cells[c].cost), c)
  }

  /** The column after the first k bands. */
  function Column(bands: seq<Band>, long: bool, k: nat): (s: Stage)
    requires IsInput(bands, long) && k <= |bands|
    ensures Runs(s, k)
  {
    if k == 0 then Start(long) else Next(Column(bands, long, k - 1), bands[k - 1], long)
  }

  function At(bands: seq<Band>, long: bool, k: nat, cb: nat): Cell
    requires IsInput(bands, long) && k <= |bands| && cb < BOOKS
  {
    Column(bands, long, k).cells[cb]
  }

  /** The cheapest codebook so far is one whose cell still has that cost. */
  lemma {:induction false} MinIsACell(bands: seq<Band>, long: bool, k: nat)
    requires IsInput(bands, long) && k <= |bands|
    ensures var s := Column(bands, long, k);
            s.mincb < BOOKS && (s.minrd.Some? ==> k > 0 && s.minrd.value == s.cells[s.mincb].cost)
  {
    hide Next, Runs;
    if k > 0 {
      MinIsACell(bands, long, k - 1);
      assert Runs(Column(bands, long, k - 1), k - 1);
      NextMin(Column(bands, long, k - 1), bands[k - 1], long, k - 1);
    }
  }

  lemma NextMin(s: Stage, band: Band, long: bool, k: nat)
    requires Runs(s, k) && k + 1 <= (if long then 63 else 15) && (band.Coded? ==> band.least < BOOKS) && s.mincb < BOOKS
    requires s.minrd.Some? ==> s.minrd.value == s.cells[s.mincb].cost
    ensures var r := Next(s, band, long); r.mincb < BOOKS && (r.minrd.Some? ==> r.minrd.value == r.cells[r.mincb].cost)
  {
    hide CodedCell, Cheapest;
  }

  lemma ColumnStep(bands: seq<Band>, long: bool, k: nat, cb: nat)
    requires IsInput(bands, long) && 0 < k <= |bands| && cb < BOOKS
    ensures var s, c, p := Column(bands, long, k - 1), At(bands, long, k, cb), At(bands, long, k - 1, cb);
            && p.run + 1 <= (if long then 63 else 15)
            && (bands[k - 1].Zero? ==> c == Cell(p.cost, cb, p.run + 1))
            && (bands[k - 1].Coded? ==> c == CodedCell(s, bands[k - 1].least, bands[k - 1].Data(cb), long, cb))
  {
    assert Runs(Column(bands, long, k - 1), k - 1);
  }

  lemma FirstCell(bands: seq<Band>, long: bool, cb: nat)
    requires IsInput(bands, long) && cb < BOOKS
    ensures At(bands, long, 0, cb) == Cell(RunBits(long) + 4, -1, 0)
  {
  }

  /** Opening a new section always changes the codebook. */
  lemma OpeningChanges(bands: seq<Band>, long: bool, k: nat, cb: nat)
    requires IsInput(bands, long) && 0 < k <= |bands| && cb < BOOKS
    ensures var c, p := At(bands, long, k, cb), At(bands, long, k - 1, cb);
            || (c.prev == -1 && c.run == 0 && c.cost == SENTINEL && bands[k - 1].Coded? && cb < bands[k - 1].least)
            || (c.prev == cb && c.run == p.run + 1 && (bands[k - 1].Coded? ==> cb >= bands[k - 1].least))
            || (0 <= c.prev < BOOKS && c.prev != cb && c.run == 1 && bands[k - 1].Coded? && cb >= bands[k - 1].least)
  {
    hide IsInput, Column;
    ColumnStep(bands, long, k, cb);
    MinIsACell(bands, long, k - 1);
  }

  // ----- reading the trellis back

  /** The steps back from a cell never meet the sentinel. */
  predicate Good(bands: seq<Band>, long: bool, k: nat, cb: int)
    requires IsInput(bands, long) && k <= |bands|
  {
    0 <= cb < BOOKS && (k == 0 || Good(bands, long, k - 1, At(bands, long, k, cb).prev))
  }

  /** The codebook of each of the first k bands, on the way back from a cell. */
  function Trace(bands: seq<Band>, long: bool, k: nat, cb: int): (t: seq<nat>)
    requires IsInput(bands, long) && k <= |bands| && Good(bands, long, k, cb)
    ensures |t| == k && (k > 0 ==> t[k - 1] == cb) && forall i | 0 <= i < k :: t[i] < BOOKS
  {
    if k == 0 then [] else Trace(bands, long, k - 1, At(bands, long, k, cb).prev) + [cb]
  }

  /** A cell cheaper than the sentinel never leads back to one. */
  lemma {:induction false} CheapIsGood(bands: seq<Band>, long: bool, k: nat, cb: nat)
    requires IsInput(bands, long) && k <= |bands| && cb < BOOKS && At(bands, long, k, cb).cost < SENTINEL
    ensures Good(bands, long, k, cb)
    decreases k
  {
    hide IsInput, Column;
    if k > 0 {
      ColumnStep(bands, long, k, cb);
      MinIsACell(bands, long, k - 1);
      OpeningChanges(bands, long, k, cb);
      CheapIsGood(bands, long, k - 1, At(bands, long, k, cb).prev);
    }
  }

  /** The length of the last run of equal codebooks. */
  function LastRun(t: seq<nat>): (r: nat)
    ensures r <= |t| && (t != [] ==> r > 0)
  {
    if |t| == 0 then 0
    else if |t| == 1 || t[|t| - 1] != t[|t| - 2] then 1
    else LastRun(t[..|t| - 1]) + 1
  }

  /** The run field of a cell is the length of the section the bands end with. */
  lemma {:induction false} RunIsLastRun(bands: seq<Band>, long: bool, k: nat, cb: nat)
    requires IsInput(bands, long) && k <= |bands| && Good(bands, long, k, cb)
    ensures At(bands, long, k, cb).run == LastRun(Trace(bands, long, k, cb))
    decreases k
  {
    hide IsInput, Column;
    if k > 0 {
      OpeningChanges(bands, long, k, cb);
      var p := At(bands, long, k, cb).prev;
      RunIsLastRun(bands, long, k - 1, p);
      assert Trace(bands, long, k, cb)[..k - 1] == Trace(bands, long, k - 1, p);
    } else {
      FirstCell(bands, long, cb);
    }
  }

  /** No coded band gets a codebook below the one it needs. */
  lemma {:induction false} TraceRespects(bands: seq<Band>, long: bool, k: nat, cb: nat)
    requires IsInput(bands, long) && k <= |bands| && Good(bands, long, k, cb)
    ensures forall i | 0 <= i < k && bands[i].Coded? :: Trace(bands, long, k, cb)[i] >= bands[i].least
    decreases k
  {
    hide IsInput, Column;
    if k > 0 {
      OpeningChanges(bands, long, k, cb);
      TraceRespects(bands, long, k - 1, At(bands, long, k, cb).prev);
    }
  }

  // ----- what the cells charge

  /** The charge of a codebook assignment, band by band, as the trellis adds it up. */
  function Charge(bands: seq<Band>, long: bool, t: seq<nat>): nat
    requires IsInput(bands, long) && |t| <= |bands|
  {
    if t == [] then RunBits(long) + 4
    else
      var n := |t| - 1;
      Charge(bands, long, t[..n]) + Surcharge(bands[n], long, t[..n], t[n])
  }

  /** The charge of one more band. */
  function Surcharge(band: Band, long: bool, t: seq<nat>, cb: nat): nat
    requires |t| + 1 <= if long then 63 else 15
  {
    if band.Zero? then 0
    else
      band.Data(cb) +
      if t != [] && cb != t[|t| - 1] then RunBits(long) + 4
      else if RunValueBits(long, LastRun(t)) != RunValueBits(long, LastRun(t) + 1) then RunBits(long)
      else 0
  }

  lemma {:induction false} CostIsCharge(bands: seq<Band>, long: bool, k: nat, cb: nat)
    requires IsInput(bands, long) && k <= |bands| && Good(bands, long, k, cb)
    ensures At(bands, long, k, cb).cost == Charge(bands, long, Trace(bands, long, k, cb))
    decreases k
  {
    hide IsInput, Column, LastRun, RunValueBits, Surcharge;
    if k > 0 {
      var p := At(bands, long, k, cb).prev;
      CostIsCharge(bands, long, k - 1, p);
      CellSurcharge(bands, long, k, cb);
      assert Trace(bands, long, k, cb)[..k - 1] == Trace(bands, long, k - 1, p);
    } else {
      FirstCell(bands, long, cb);
    }
  }

  lemma CodedSurcharge(s: Stage, band: Band, long: bool, t: seq<nat>, cb: nat)
    requires band.Coded? && |s.cells| == BOOKS && cb < BOOKS && s.mincb < BOOKS && cb >= band.least
    requires s.cells[cb].run + 1 <= (if long then 63 else 15) && |t| + 1 <= if long then 63 else 15
    requires s.minrd.Some? ==> s.minrd.value == s.cells[s.mincb].cost && t != []
    requires var p := CodedCell(s, band.least, band.Data(cb), long, cb).prev;
             0 <= p < BOOKS && LastRun(t) == s.cells[p].run && (t != [] ==> t[|t| - 1] == p)
    ensures var c := CodedCell(s, band.least, band.Data(cb), long, cb);
            c.cost == s.cells[c.prev].cost + Surcharge(band, long, t, cb)
  {
    hide LastRun, RunValueBits;
  }

  lemma CellSurcharge(bands: seq<Band>, long: bool, k: nat, cb: nat)
    requires IsInput(bands, long) && 0 < k <= |bands| && cb < BOOKS && Good(bands, long, k, cb)
    ensures var p := At(bands, long, k, cb).prev;
            && 0 <= p < BOOKS && Good(bands, long, k - 1, p) && k <= (if long then 63 else 15)
            && At(bands, long, k, cb).cost ==
               At(bands, long, k - 1, p).cost + Surcharge(bands[k - 1], long, Trace(bands, long, k - 1, p), cb)
  {
    hide IsInput, Column, At, LastRun, RunValueBits, Good, Trace, CodedCell, Surcharge;
    GoodStep(bands, long, k, cb);
    ColumnStep(bands, long, k, cb);
    OpeningChanges(bands, long, k, cb);
    MinIsACell(bands, long, k - 1);
    var p := At(bands, long, k, cb).prev;
    RunIsLastRun(bands, long, k - 1, p);
    AtIsCell(bands, long, k - 1, p);
    AtIsCell(bands, long, k - 1, cb);
    var t := Trace(bands, long, k - 1, p);
    if bands[k - 1].Coded? {
      CodedSurcharge(Column(bands, long, k - 1), bands[k - 1], long, t, cb);
    } else {
      ZeroSurcharge(long, t, cb);
    }
  }

  lemma GoodStep(bands: seq<Band>, long: bool, k: nat, cb: nat)
    requires IsInput(bands, long) && 0 < k <= |bands| && cb < BOOKS && Good(bands, long, k, cb)
    ensures 0 <= At(bands, long, k, cb).prev < BOOKS && Good(bands, long, k - 1, At(bands, long, k, cb).prev)
    ensures k <= if long then 63 else 15
  {
  }

  lemma ZeroSurcharge(long: bool, t: seq<nat>, cb: nat)
    requires |t| + 1 <= if long then 63 else 15
    ensures Surcharge(Zero, long, t, cb) == 0
  {
  }

  lemma AtIsCell(bands: seq<Band>, long: bool, k: nat, cb: nat)
    requires IsInput(bands, long) && k <= |bands| && cb < BOOKS
    ensures At(bands, long, k, cb) == Column(bands, long, k).cells[cb]
  {
  }

  // ----- what is written for an assignment

  /** The bits of the section headers: 4 for each codebook, and one length field more for every full escape in a run. */
  function HeaderBits(long: bool, t: seq<nat>): nat {
    if t == [] then 0
    else
      var n := |t| - 1;
      HeaderBits(long, t[..n]) +
      if n == 0 || t[n] != t[n - 1] then 4 + RunBits(long)
      else if (LastRun(t[..n]) + 1) % RunEsc(long) == 0 then RunBits(long)
      else 0
  }

  /** The bits of the data of the bands in their codebooks. */
  function DataBits(bands: seq<Band>, t: seq<nat>): nat
    requires |t| <= |bands|
  {
    if t == [] then 0 else DataBits(bands, t[..|t| - 1]) + bands[|t| - 1].Data(t[|t| - 1])
  }

  /** The number of sections of exactly twice the escape length: 62 bands in long windows, 14 in short ones. */
  function LongRuns(long: bool, t: seq<nat>): int {
    if t == [] then 0
    else
      var n := |t| - 1;
      var r := LastRun(t[..n]);
      if n == 0 || t[n] != t[n - 1] then LongRuns(long, t[..n])
      else LongRuns(long, t[..n]) - (if r == 2 * RunEsc(long) then 1 else 0) + if r + 1 == 2 * RunEsc(long) then 1 else 0
  }

  lemma {:induction false} LongRunsBound(long: bool, t: seq<nat>)
    ensures LongRuns(long, t) >= if t != [] && LastRun(t) == 2 * RunEsc(long) then 1 else 0
    ensures |t| < 2 * RunEsc(long) ==> LongRuns(long, t) == 0
  {
    if t != [] {
      LongRunsBound(long, t[..|t| - 1]);
    }
  }

  /** The length fields that zero bands add to the section they join, which are not charged for. */
  function ZeroFields(bands: seq<Band>, long: bool, t: seq<nat>): nat
    requires |t| <= |bands| <= if long then 63 else 15
  {
    if t == [] then 0
    else
      var n := |t| - 1;
      var r := LastRun(t[..n]);
      ZeroFields(bands, long, t[..n])
        + if n > 0 && bands[n].Zero? && RunValueBits(long, r) != RunValueBits(long, r + 1) then RunBits(long) else 0
  }

  /** A zero band goes with the band before it. */
  ghost predicate ZerosJoin(bands: seq<Band>, t: seq<nat>)
    requires |t| <= |bands|
  {
    forall n | 0 < n < |t| && bands[n].Zero? :: t[n] == t[n - 1]
  }

  lemma {:induction false} TraceJoins(bands: seq<Band>, long: bool, k: nat, cb: nat)
    requires IsInput(bands, long) && k <= |bands| && Good(bands, long, k, cb)
    ensures ZerosJoin(bands, Trace(bands, long, k, cb))
    decreases k
  {
    hide IsInput, Column;
    if k > 0 {
      ColumnStep(bands, long, k, cb);
      TraceJoins(bands, long, k - 1, At(bands, long, k, cb).prev);
    }
  }

  function HeaderStep(long: bool, u: seq<nat>, cb: nat): nat {
    if u == [] || cb != u[|u| - 1] then 4 + RunBits(long)
    else if (LastRun(u) + 1) % RunEsc(long) == 0 then RunBits(long)
    else 0
  }

  function LongStep(long: bool, u: seq<nat>, cb: nat): int {
    if u == [] || cb != u[|u| - 1] then 0
    else (if LastRun(u) + 1 == 2 * RunEsc(long) then 1 else 0) - if LastRun(u) == 2 * RunEsc(long) then 1 else 0
  }

  function ZeroStep(band: Band, long: bool, u: seq<nat>): nat
    requires |u| + 1 <= if long then 63 else 15
  {
    if u != [] && band.Zero? && RunValueBits(long, LastRun(u)) != RunValueBits(long, LastRun(u) + 1) then RunBits(long) else 0
  }

  lemma LastUnfolds(bands: seq<Band>, long: bool, t: seq<nat>)
    requires IsInput(bands, long) && 0 < |t| <= |bands|
    ensures var n := |t| - 1;
            var u := t[..n];
            && HeaderBits(long, t) == HeaderBits(long, u) + HeaderStep(long, u, t[n])
            && DataBits(bands, t) == DataBits(bands, u) + bands[n].Data(t[n])
            && Charge(bands, long, t) == Charge(bands, long, u) + Surcharge(bands[n], long, u, t[n])
            && LongRuns(long, t) == LongRuns(long, u) + LongStep(long, u, t[n])
            && ZeroFields(bands, long, t) == ZeroFields(bands, long, u) + ZeroStep(bands[n], long, u)
  {
    hide LastRun, Surcharge, RunValueBits, RunEsc, RunBits;
  }

  lemma StepBalances(band: Band, long: bool, u: seq<nat>, cb: nat)
    requires u != [] && |u| + 1 <= (if long then 63 else 15) && (band.Zero? ==> cb == u[|u| - 1])
    ensures HeaderStep(long, u, cb) + band.Data(cb)
         == Surcharge(band, long, u, cb) + RunBits(long) * LongStep(long, u, cb) + ZeroStep(band, long, u)
  {
    hide LastRun, RunValueBits, RunEsc, RunBits;
    if cb == u[|u| - 1] {
      StepIsWritten(long, LastRun(u));
    }
  }

  /** The header bits written, and the data bits of the coded bands, are the bits charged, but for two things: one length field
      for every section of exactly twice the escape length, which the table of run bits charges one field short, and the
      length fields that zero bands add. */
  lemma {:induction false} ChargeIsWritten(bands: seq<Band>, long: bool, t: seq<nat>)
    requires IsInput(bands, long) && 0 < |t| <= |bands| && ZerosJoin(bands, t)
    ensures HeaderBits(long, t) + DataBits(bands, t)
         == Charge(bands, long, t) + RunBits(long) * LongRuns(long, t) + ZeroFields(bands, long, t)
    decreases |t|
  {
    var n := |t| - 1;
    var u := t[..n];
    LastUnfolds(bands, long, t);
    if n == 0 {
      assert u == [];
    } else {
      hide HeaderBits, DataBits, Charge, LongRuns, ZeroFields, HeaderStep, LongStep, ZeroStep, Surcharge, RunBits;
      assert ZerosJoin(bands, u);
      ChargeIsWritten(bands, long, u);
      assert t[n - 1] == u[n - 1];
      InputBound(bands, long);
      StepBalances(bands[n], long, u, t[n]);
      Distribute(RunBits(long), LongRuns(long, u), LongStep(long, u, t[n]));
    }
  }

  lemma InputBound(bands: seq<Band>, long: bool)
    requires IsInput(bands, long)
    ensures |bands| <= if long then 63 else 15
  {
  }

  lemma Distribute(p: int, a: int, b: int)
    ensures p * (a + b) == p * a + p * b
  {
  }

  lemma StepIsWritten(long: bool, r: nat)
    requires 0 < r && r + 1 <= if long then 63 else 15
    ensures (if (r + 1) % RunEsc(long) == 0 then RunBits(long) else 0) ==
            (if RunValueBits(long, r) != RunValueBits(long, r + 1) then RunBits(long) else 0) +
            RunBits(long) * ((if r + 1 == 2 * RunEsc(long) then 1 else 0) - if r == 2 * RunEsc(long) then 1 else 0)
  {
  }

  // ----- the section data in the bitstream

  datatype Section = Section(book: nat, run: nat)

  function Repeat(book: nat, run: nat): seq<nat> {
    seq(run, _ => book)
  }

  /** The codebook of every band, section by section. */
  function Expand(sections: seq<Section>): seq<nat> {
    if sections == [] then [] else Repeat(sections[0].book, sections[0].run) + Expand(sections[1..])
  }

  /** A run: the escape value as often as it fits, then the rest. */
  function WriteRun(long: bool, run: nat): Word {
    if run >= RunEsc(long) then ToWord(RunEsc(long), RunBits(long)) + WriteRun(long, run - RunEsc(long))
    else ToWord(run, RunBits(long))
  }

  function WriteSections(long: bool, sections: seq<Section>): Word {
    if sections == [] then []
    else ToWord(sections[0].book, 4) + WriteRun(long, sections[0].run) + WriteSections(long, sections[1..])
  }

  /** Section length fields, added to an 8-bit end position until one is not the escape. */
  function ReadRun(long: bool, stream: Word, end: nat): (r: Option<(nat, Word)>)
    ensures r.Some? ==> |r.value.1| < |stream|
    decreases |stream|
  {
    var f := GetBits(stream, RunBits(long));
    if f.None? then None
    else if f.value.0 == RunEsc(long) then ReadRun(long, f.value.1, (end + f.value.0) % 256)
    else Some(((end + f.value.0) % 256, f.value.1))
  }

  /** The decoder's reading of the codebooks of bands k..max-1; None on a reserved codebook or an overlong section. */
  function ReadSections(long: bool, stream: Word, k: nat, max: nat): Option<(seq<nat>, Word)>
    decreases |stream|
  {
    if k >= max then Some(([], stream))
    else
      var book := GetBits(stream, 4);
      if book.None? || book.value.0 == 12 then None
      else
        var end := ReadRun(long, book.value.1, k);
        if end.None? || end.value.0 > max then None
        else
          var upto := if end.value.0 > k then end.value.0 else k;
          var rest := ReadSections(long, end.value.1, upto, max);
          if rest.None? then None
          else Some((Repeat(book.value.0, upto - k) + rest.value.0, rest.value.1))
  }

  lemma EscFits(long: bool)
    ensures 0 < RunEsc(long) && Pow2(RunBits(long)) == RunEsc(long) + 1 && Pow2(4) == 16
  {
    assert Pow2(3) == 8 && Pow2(5) == 32;
  }

  lemma {:induction false} RunBack(long: bool, run: nat, end: nat, rest: Word)
    requires end + run < 256
    ensures ReadRun(long, WriteRun(long, run) + rest, end) == Some((end + run, rest))
    decreases run
  {
    hide ToWord, Value, GetBits, Pow2;
    EscFits(long);
    if run >= RunEsc(long) {
      var tail := WriteRun(long, run - RunEsc(long));
      assert WriteRun(long, run) + rest == ToWord(RunEsc(long), RunBits(long)) + (tail + rest);
      GetBack(RunEsc(long), RunBits(long), tail + rest);
      RunBack(long, run - RunEsc(long), end + RunEsc(long), rest);
    } else {
      GetBack(run, RunBits(long), rest);
    }
  }

  /** Reading written sections gives back the codebook of every band. */
  lemma {:induction false} SectionsBack(long: bool, sections: seq<Section>, k: nat, max: nat, rest: Word)
    requires forall i | 0 <= i < |sections| :: sections[i].book < BOOKS && sections[i].run > 0
    requires k + |Expand(sections)| == max < 256
    ensures ReadSections(long, WriteSections(long, sections) + rest, k, max) == Some((Expand(sections), rest))
    decreases |sections|
  {
    hide ToWord, Value, GetBits, Pow2, WriteRun, ReadRun;
    EscFits(long);
    if sections == [] {
      assert WriteSections(long, sections) + rest == rest;
    } else {
      var s, tail := sections[0], WriteSections(long, sections[1..]);
      var body := WriteRun(long, s.run) + (tail + rest);
      assert WriteSections(long, sections) + rest == ToWord(s.book, 4) + body;
      GetBack(s.book, 4, body);
      RunBack(long, s.run, k, tail + rest);
      assert k + s.run + |Expand(sections[1..])| == max;
      SectionsBack(long, sections[1..], k + s.run, max, rest);
    }
  }

  /** Every section has at least one band and differs from its neighbour. */
  ghost predicate Proper(sections: seq<Section>) {
    && (forall i | 0 <= i < |sections| :: sections[i].book < BOOKS && sections[i].run > 0)
    && forall i | 0 <= i < |sections| - 1 :: sections[i].book != sections[i + 1].book
  }

  lemma {:induction false} HeaderOfRepeat(long: bool, t: seq<nat>, book: nat, r: nat)
    requires r > 0 && (t != [] ==> t[|t| - 1] != book)
    ensures HeaderBits(long, t + Repeat(book, r)) == HeaderBits(long, t) + 4 + RunBits(long) * (r / RunEsc(long) + 1)
    ensures LastRun(t + Repeat(book, r)) == r
  {
    hide RunBits, RunEsc;
    var u := t + Repeat(book, r);
    assert u[..|u| - 1] == t + Repeat(book, r - 1);
    if r == 1 {
      OneField(long);
      assert t + Repeat(book, 0) == t;
    } else {
      HeaderOfRepeat(long, t, book, r - 1);
      NextField(long, r - 1);
    }
  }

  lemma OneField(long: bool)
    ensures 1 / RunEsc(long) == 0 && RunBits(long) * (0 + 1) == RunBits(long)
  {
  }

  /** A run one band longer takes one field more when it reaches a multiple of the escape. */
  lemma NextField(long: bool, r: nat)
    ensures RunBits(long) * ((r + 1) / RunEsc(long) + 1) ==
            RunBits(long) * (r / RunEsc(long) + 1) + if (r + 1) % RunEsc(long) == 0 then RunBits(long) else 0
  {
    NextQuotient(r, RunEsc(long));
  }

  lemma NextQuotient(r: nat, d: nat)
    requires d == 31 || d == 7
    ensures (r + 1) / d == r / d + if (r + 1) % d == 0 then 1 else 0
  {
  }

  lemma {:induction false} RunLength(long: bool, run: nat)
    ensures |WriteRun(long, run)| == RunBits(long) * (run / RunEsc(long) + 1)
  {
    if run >= RunEsc(long) {
      RunLength(long, run - RunEsc(long));
      assert (run - RunEsc(long)) / RunEsc(long) == run / RunEsc(long) - 1;
    }
  }

  lemma {:induction false} WriteLast(long: bool, sections: seq<Section>, last: Section)
    ensures WriteSections(long, sections + [last]) == WriteSections(long, sections) + (ToWord(last.book, 4) + WriteRun(long, last.run))
    ensures Expand(sections + [last]) == Expand(sections) + Repeat(last.book, last.run)
  {
    if sections == [] {
      assert [last][1..] == [];
      assert sections + [last] == [last];
    } else {
      hide ToWord, WriteRun;
      WriteLast(long, sections[1..], last);
      assert (sections + [last])[1..] == sections[1..] + [last];
    }
  }

  lemma NoSections(long: bool)
    ensures WriteSections(long, []) == [] && Expand([]) == [] && HeaderBits(long, []) == 0
  {
  }

  /** The length of the section data is the header bits of the assignment. */
  lemma {:induction false} HeaderIsLength(long: bool, sections: seq<Section>)
    requires Proper(sections)
    ensures |WriteSections(long, sections)| == HeaderBits(long, Expand(sections))
    ensures sections != [] ==> Expand(sections) != [] && Expand(sections)[|Expand(sections)| - 1] == sections[|sections| - 1].book
  {
    hide WriteSections, Expand, HeaderBits, WriteRun, ToWord, LastRun, RunBits, RunEsc;
    if sections != [] {
      var n := |sections| - 1;
      var last := sections[n];
      assert sections == sections[..n] + [last];
      HeaderIsLength(long, sections[..n]);
      WriteLast(long, sections[..n], last);
      NoSections(long);
      assert n == 0 ==> sections[..n] == [];
      RunLength(long, last.run);
      HeaderOfRepeat(long, Expand(sections[..n]), last.book, last.run);
    } else {
      NoSections(long);
    }
  }

  /** The sections of exactly so many bands. */
  function OfLength(sections: seq<Section>, run: nat): nat {
    if sections == [] then 0
    else OfLength(sections[..|sections| - 1], run) + if sections[|sections| - 1].run == run then 1 else 0
  }

  lemma {:induction false} LongRunsOfRepeat(long: bool, t: seq<nat>, book: nat, r: nat)
    requires r > 0 && (t != [] ==> t[|t| - 1] != book)
    ensures LongRuns(long, t + Repeat(book, r)) == LongRuns(long, t) + if r == 2 * RunEsc(long) then 1 else 0
    ensures LastRun(t + Repeat(book, r)) == r
  {
    var u := t + Repeat(book, r);
    assert u[..|u| - 1] == t + Repeat(book, r - 1);
    if r == 1 {
      assert t + Repeat(book, 0) == t;
    } else {
      LongRunsOfRepeat(long, t, book, r - 1);
    }
  }

  /** The trellis falls short by one length field for every section of exactly twice the escape length. */
  lemma {:induction false} LongRunsCounted(long: bool, sections: seq<Section>)
    requires Proper(sections)
    ensures LongRuns(long, Expand(sections)) == OfLength(sections, 2 * RunEsc(long))
    ensures sections != [] ==> Expand(sections) != [] && Expand(sections)[|Expand(sections)| - 1] == sections[|sections| - 1].book
  {
    hide WriteSections, Expand, LongRuns, LastRun, RunEsc;
    if sections != [] {
      var n := |sections| - 1;
      var last := sections[n];
      assert sections == sections[..n] + [last];
      LongRunsCounted(long, sections[..n]);
      WriteLast(long, sections[..n], last);
      NoSections(long);
      assert n == 0 ==> sections[..n] == [];
      LongRunsOfRepeat(long, Expand(sections[..n]), last.book, last.run);
    } else {
      NoRuns(long);
    }
  }

  lemma NoRuns(long: bool)
    ensures Expand([]) == [] && LongRuns(long, []) == 0
  {
  }

  function LastSection(t: seq<nat>): (r: Section)
    requires t != []
    ensures 0 < r.run <= |t| && r.book == t[|t| - 1]
  {
    Section(t[|t| - 1], LastRun(t))
  }

  /** What comes before the last section. */
  function Front(t: seq<nat>): (u: seq<nat>)
    requires t != []
    ensures |u| < |t|
  {
    t[..|t| - LastRun(t)]
  }

  /** The sections of an assignment, each as long as it can be. */
  function SectionsOf(t: seq<nat>): seq<Section>
    decreases |t|
  {
    if t == [] then [] else SectionsOf(Front(t)) + [LastSection(t)]
  }

  lemma {:induction false} LastRunIs(t: seq<nat>)
    requires t != []
    ensures var n := |t| - LastRun(t);
            t[n..] == Repeat(t[|t| - 1], LastRun(t)) && (n > 0 ==> t[n - 1] != t[|t| - 1])
  {
    hide LastRun;
    LastRunStep(t);
    var u := t[..|t| - 1];
    if |t| > 1 && t[|t| - 1] == t[|t| - 2] {
      LastRunIs(u);
      var n := |u| - LastRun(u);
      assert t[n..] == u[n..] + [t[|t| - 1]];
      assert n > 0 ==> u[n - 1] == t[n - 1];
    } else {
      assert t[|u|..] == [t[|u|]];
    }
  }

  lemma LastRunStep(t: seq<nat>)
    requires t != []
    ensures LastRun(t) == if |t| == 1 || t[|t| - 1] != t[|t| - 2] then 1 else LastRun(t[..|t| - 1]) + 1
  {
  }

  lemma FrontIs(t: seq<nat>)
    requires t != []
    ensures t == Front(t) + Repeat(LastSection(t).book, LastSection(t).run)
    ensures Front(t) != [] ==> Front(t)[|Front(t)| - 1] != LastSection(t).book
  {
    hide LastRun, Repeat;
    LastRunIs(t);
  }

  lemma {:induction false} SectionsOfExpand(t: seq<nat>)
    requires forall i | 0 <= i < |t| :: t[i] < BOOKS
    ensures Proper(SectionsOf(t)) && Expand(SectionsOf(t)) == t
    ensures t != [] ==> SectionsOf(t) != [] && SectionsOf(t)[|SectionsOf(t)| - 1].book == t[|t| - 1]
    decreases |t|
  {
    hide LastRun, Expand, Proper, Front, LastSection, Repeat;
    if t == [] {
      NoSections(true);
      NoneProper();
    } else {
      FrontIs(t);
      FrontBooks(t);
      SectionsOfExpand(Front(t));
      WriteLast(true, SectionsOf(Front(t)), LastSection(t));
      ProperJoin(SectionsOf(Front(t)), LastSection(t));
    }
  }

  lemma FrontBooks(t: seq<nat>)
    requires t != [] && forall i | 0 <= i < |t| :: t[i] < BOOKS
    ensures forall i | 0 <= i < |Front(t)| :: Front(t)[i] < BOOKS
  {
    hide LastRun;
  }

  lemma NoneProper()
    ensures Proper([])
  {
  }

  lemma ProperJoin(sections: seq<Section>, last: Section)
    requires Proper(sections) && last.book < BOOKS && last.run > 0
    requires sections != [] ==> sections[|sections| - 1].book != last.book
    ensures Proper(sections + [last])
  {
  }

  // ----- the backtrack, section by section

  /** Before the section of r bands in codebook cb that ends at k, the way back goes on from codebook p. */
  ghost predicate Follows(bands: seq<Band>, long: bool, k: nat, cb: nat, r: nat, p: nat)
    requires IsInput(bands, long) && r <= k <= |bands|
  {
    && (Good(bands, long, k, cb) <==> Good(bands, long, k - r, p))
    && (Good(bands, long, k, cb) ==>
          Trace(bands, long, k, cb) == Trace(bands, long, k - r, p) + Repeat(cb, r) && (k > r ==> p != cb))
  }

  lemma {:induction false} SectionBack(bands: seq<Band>, long: bool, k: nat, cb: nat) returns (r: nat, p: nat)
    requires IsInput(bands, long) && k <= |bands| && cb < BOOKS && At(bands, long, k, cb).run > 0
    ensures 0 < r == At(bands, long, k, cb).run <= k
    ensures p == At(bands, long, k - r + 1, cb).prev && p < BOOKS
    ensures Follows(bands, long, k, cb, r, p)
    decreases k
  {
    hide IsInput, Column, At;
    if k == 0 {
      FirstCell(bands, long, cb);
    } else {
      OpeningChanges(bands, long, k, cb);
      r := At(bands, long, k, cb).run;
      p := At(bands, long, k, cb).prev;
      if r == 1 {
        assert Repeat(cb, 1) == [cb];
        if p == cb && k > 1 {
          NoRunIsBad(bands, long, k - 1, cb);
        }
      } else {
        var r', p' := SectionBack(bands, long, k - 1, cb);
        p := p';
        assert Repeat(cb, r) == Repeat(cb, r - 1) + [cb];
        if Good(bands, long, k, cb) {
          var t := Trace(bands, long, k - r, p);
          assert t + (Repeat(cb, r - 1) + [cb]) == (t + Repeat(cb, r - 1)) + [cb];
        }
      }
    }
  }

  lemma NoRunIsBad(bands: seq<Band>, long: bool, k: nat, cb: nat)
    requires IsInput(bands, long) && 0 < k <= |bands| && cb < BOOKS && At(bands, long, k, cb).run == 0
    ensures !Good(bands, long, k, cb)
  {
    OpeningChanges(bands, long, k, cb);
  }

  ghost predicate HoldsColumns(path: array2<Cell>, bands: seq<Band>, long: bool, n: nat)
    requires IsInput(bands, long) && n <= |bands| && path.Length0 > |bands| && path.Length1 == BOOKS
    reads path
  {
    forall k, cb | 0 <= k <= n && 0 <= cb < BOOKS :: path[k, cb] == At(bands, long, k, cb)
  }

  /** Columns up to k are filled, and column k + 1 below codebook n holds the given cells. */
  ghost predicate Filling(path: array2<Cell>, bands: seq<Band>, long: bool, k: nat, cells: seq<Cell>, n: nat)
    requires IsInput(bands, long) && k < |bands| && path.Length0 > |bands| && path.Length1 == BOOKS
    requires n <= BOOKS == |cells|
    reads path
  {
    HoldsColumns(path, bands, long, k) && forall c | 0 <= c < n :: path[k + 1, c] == cells[c]
  }

  /** Writes one cell of a coded band. */
  method FillCell(path: array2<Cell>, ghost bands: seq<Band>, bits: nat, long: bool, k: nat, cb: nat, ghost cells: seq<Cell>,
                  minrd: Option<nat>, mincb: nat)
    requires IsInput(bands, long) && k < |bands| && path.Length0 > |bands| && path.Length1 == BOOKS
    requires bands[k].Coded? && bits == bands[k].Data(cb) && bands[k].least <= cb < BOOKS == |cells|
    requires Filling(path, bands, long, k, cells, cb)
    requires minrd == Column(bands, long, k).minrd && mincb == Column(bands, long, k).mincb
    requires At(bands, long, k, cb).run + 1 <= if long then 63 else 15
    requires cells[cb] == CodedCell(Column(bands, long, k), bands[k].least, bits, long, cb)
    modifies path
    ensures Filling(path, bands, long, k, cells, cb + 1)
  {
    hide RunValueBits, Column;
    AtIsCell(bands, long, k, cb);
    var here := path[k, cb];
    assert here == At(bands, long, k, cb);
    var stay := here.cost + bits;
    if RunValueBits(long, here.run) != RunValueBits(long, here.run + 1) {
      stay := stay + RunBits(long);
    }
    if minrd.Some? && minrd.value + bits + RunBits(long) + 4 < stay {
      path[k + 1, cb] := Cell(minrd.value + bits + RunBits(long) + 4, mincb, 1);
    } else {
      path[k + 1, cb] := Cell(stay, cb, here.run + 1);
    }
  }

  /** The cells of the next column, as the recurrence gives them. */
  lemma NextCells(bands: seq<Band>, long: bool, k: nat) returns (cells: seq<Cell>)
    requires IsInput(bands, long) && k < |bands|
    ensures |cells| == BOOKS && cells == Column(bands, long, k + 1).cells
    ensures forall cb | 0 <= cb < BOOKS :: cells[cb] == At(bands, long, k + 1, cb) && At(bands, long, k, cb).run <= k
    ensures bands[k].Zero? ==> Column(bands, long, k + 1).minrd == Column(bands, long, k).minrd
                               && Column(bands, long, k + 1).mincb == Column(bands, long, k).mincb
                               && forall cb | 0 <= cb < BOOKS ::
                                    cells[cb] == Cell(At(bands, long, k, cb).cost, cb, At(bands, long, k, cb).run + 1)
    ensures bands[k].Coded? ==>
              var c := Cheapest(cells, bands[k].least, BOOKS);
              Column(bands, long, k + 1).minrd == Some(cells[c].cost) && Column(bands, long, k + 1).mincb == c
    ensures bands[k].Coded? ==> forall cb | 0 <= cb < BOOKS ::
              cells[cb] == CodedCell(Column(bands, long, k), bands[k].least, bands[k].Data(cb), long, cb)
  {
    cells := Column(bands, long, k + 1).cells;
    assert Column(bands, long, k + 1) == Next(Column(bands, long, k), bands[k], long);
    assert Runs(Column(bands, long, k), k);
  }

  /** The column after a band with nothing to code. */
  method FillZero(path: array2<Cell>, ghost bands: seq<Band>, long: bool, k: nat, ghost cells: seq<Cell>)
    requires IsInput(bands, long) && k < |bands| && path.Length0 > |bands| && path.Length1 == BOOKS == |cells|
    requires HoldsColumns(path, bands, long, k)
    requires forall cb | 0 <= cb < BOOKS ::
               cells[cb] == Cell(At(bands, long, k, cb).cost, cb, At(bands, long, k, cb).run + 1)
    modifies path
    ensures Filling(path, bands, long, k, cells, BOOKS)
  {
    hide At;
    for cb := 0 to BOOKS
      invariant Filling(path, bands, long, k, cells, cb)
    {
      assert path[k, cb] == At(bands, long, k, cb);
      path[k + 1, cb] := Cell(path[k, cb].cost, cb, path[k, cb].run + 1);
    }
  }

  /** The codebooks too small for a coded band. */
  method FillSentinels(path: array2<Cell>, bands: seq<Band>, long: bool, k: nat, ghost cells: seq<Cell>)
    requires IsInput(bands, long) && k < |bands| && path.Length0 > |bands| && path.Length1 == BOOKS == |cells|
    requires bands[k].Coded? && HoldsColumns(path, bands, long, k)
    requires forall cb | 0 <= cb < BOOKS :: At(bands, long, k, cb).run <= k &&
               cells[cb] == CodedCell(Column(bands, long, k), bands[k].least, bands[k].Data(cb), long, cb)
    modifies path
    ensures Filling(path, bands, long, k, cells, bands[k].least)
  {
    for cb := 0 to bands[k].least
      invariant Filling(path, bands, long, k, cells, cb)
    {
      path[k + 1, cb] := Cell(SENTINEL, -1, 0);
    }
  }

  /** The column after a coded band, with the cheapest codebook found on the way. */
  method FillCoded(path: array2<Cell>, bands: seq<Band>, long: bool, k: nat, ghost cells: seq<Cell>, minrd: Option<nat>, mincb: nat)
    returns (minrd': Option<nat>, mincb': nat)
    requires IsInput(bands, long) && k < |bands| && path.Length0 > |bands| && path.Length1 == BOOKS == |cells|
    requires bands[k].Coded? && HoldsColumns(path, bands, long, k)
    requires minrd == Column(bands, long, k).minrd && mincb == Column(bands, long, k).mincb
    requires forall cb | 0 <= cb < BOOKS :: At(bands, long, k, cb).run <= k &&
               cells[cb] == CodedCell(Column(bands, long, k), bands[k].least, bands[k].Data(cb), long, cb)
    modifies path
    ensures Filling(path, bands, long, k, cells, BOOKS)
    ensures mincb' == Cheapest(cells, bands[k].least, BOOKS) && minrd' == Some(cells[mincb'].cost)
  {
    hide CodedCell, Column, At, HoldsColumns, RunBits;
    var least, bits := bands[k].least, bands[k].bits;
    FillSentinels(path, bands, long, k, cells);
    minrd', mincb' := None, 0;
    for cb := least to BOOKS
      invariant Filling(path, bands, long, k, cells, cb)
      invariant cb == least ==> minrd' == None
      invariant cb > least ==> mincb' == Cheapest(cells, least, cb) && minrd' == Some(cells[mincb'].cost)
    {
      FillCell(path, bands, bits[cb], long, k, cb, cells, minrd, mincb);
      if minrd'.None? || path[k + 1, cb].cost < minrd'.value {
        minrd', mincb' := Some(path[k + 1, cb].cost), cb;
      }
    }
  }

  /** Fills one column of the trellis. */
  method FillColumn(path: array2<Cell>, bands: seq<Band>, long: bool, k: nat, minrd: Option<nat>, mincb: nat)
    returns (minrd': Option<nat>, mincb': nat)
    requires IsInput(bands, long) && k < |bands| && path.Length0 > |bands| && path.Length1 == BOOKS
    requires HoldsColumns(path, bands, long, k)
    requires minrd == Column(bands, long, k).minrd && mincb == Column(bands, long, k).mincb
    modifies path
    ensures HoldsColumns(path, bands, long, k + 1)
    ensures minrd' == Column(bands, long, k + 1).minrd && mincb' == Column(bands, long, k + 1).mincb
  {
    hide Column, At, CodedCell, Cheapest;
    ghost var cells := NextCells(bands, long, k);
    if bands[k].Zero? {
      FillZero(path, bands, long, k, cells);
      minrd', mincb' := minrd, mincb;
    } else {
      minrd', mincb' := FillCoded(path, bands, long, k, cells, minrd, mincb);
    }
    forall j, cb | 0 <= j <= k + 1 && 0 <= cb < BOOKS
      ensures path[j, cb] == At(bands, long, j, cb)
    {
      if j == k + 1 {
        assert path[k + 1, cb] == cells[cb];
      }
    }
  }

  /** The sections found so far continue, without a break, the way back from cell (ppos, idx). */
  ghost predicate Traced(bands: seq<Band>, long: bool, last: nat, ppos: nat, idx: nat, sections: seq<Section>)
    requires IsInput(bands, long) && ppos <= |bands|
  {
    && (Good(bands, long, |bands|, last) <==> Good(bands, long, ppos, idx))
    && (Good(bands, long, ppos, idx) ==>
          && Proper(sections) && (ppos > 0 && sections != [] ==> sections[0].book != idx)
          && Trace(bands, long, |bands|, last) == Trace(bands, long, ppos, idx) + Expand(sections))
  }

  lemma TracedNone(bands: seq<Band>, long: bool, last: nat)
    requires IsInput(bands, long) && last < BOOKS
    ensures Traced(bands, long, last, |bands|, last, [])
  {
    hide Good, Trace;
    NoSections(long);
  }

  lemma TracedMore(bands: seq<Band>, long: bool, last: nat, ppos: nat, idx: nat, sections: seq<Section>, r: nat, p: nat)
    requires IsInput(bands, long) && 0 < r <= ppos <= |bands| && idx < BOOKS
    requires Traced(bands, long, last, ppos, idx, sections) && Follows(bands, long, ppos, idx, r, p)
    ensures Traced(bands, long, last, ppos - r, p, [Section(idx, r)] + sections)
  {
    hide Good, Trace, Expand, Repeat;
    ExpandFirst(Section(idx, r), sections);
    if Good(bands, long, ppos, idx) {
      var t := Trace(bands, long, ppos - r, p);
      assert (t + Repeat(idx, r)) + Expand(sections) == t + (Repeat(idx, r) + Expand(sections));
    }
  }

  lemma TracedAll(bands: seq<Band>, long: bool, last: nat, idx: nat, sections: seq<Section>)
    requires IsInput(bands, long) && idx < BOOKS && Traced(bands, long, last, 0, idx, sections)
    ensures Good(bands, long, |bands|, last) && Proper(sections) && Expand(sections) == Trace(bands, long, |bands|, last)
  {
    NothingLeft(bands, long, idx);
    assert [] + Expand(sections) == Expand(sections);
  }

  /** Turns the linked cells into sections, last one first; stops without progress exactly when the way back is not good. */
  method Backtrack(path: array2<Cell>, bands: seq<Band>, long: bool, last: nat) returns (ok: bool, sections: seq<Section>)
    requires IsInput(bands, long) && path.Length0 > |bands| && path.Length1 == BOOKS && last < BOOKS
    requires HoldsColumns(path, bands, long, |bands|)
    ensures ok <==> Good(bands, long, |bands|, last)
    ensures ok ==> Proper(sections) && Expand(sections) == Trace(bands, long, |bands|, last)
  {
    hide Column, At, Good, Trace, Follows, Traced, Proper, Expand, IsInput;
    sections := [];
    var idx, ppos := last, |bands|;
    TracedNone(bands, long, last);
    while ppos > 0
      invariant 0 <= ppos <= |bands| && 0 <= idx < BOOKS
      invariant Traced(bands, long, last, ppos, idx, sections)
      decreases ppos
    {
      var cb, run := idx, path[ppos, idx].run;
      if run == 0 {
        BadEnd(bands, long, last, ppos, cb, sections);
        return false, [];
      }
      ghost var r, p := SectionBack(bands, long, ppos, cb);
      TracedMore(bands, long, last, ppos, cb, sections, r, p);
      idx := path[ppos - run + 1, cb].prev;
      sections := [Section(cb, run)] + sections;
      ppos := ppos - run;
    }
    TracedAll(bands, long, last, idx, sections);
    ok := true;
  }

  lemma BadEnd(bands: seq<Band>, long: bool, last: nat, ppos: nat, idx: nat, sections: seq<Section>)
    requires IsInput(bands, long) && 0 < ppos <= |bands| && idx < BOOKS && At(bands, long, ppos, idx).run == 0
    requires Traced(bands, long, last, ppos, idx, sections)
    ensures !Good(bands, long, |bands|, last)
  {
    NoRunIsBad(bands, long, ppos, idx);
  }

  lemma ExpandFirst(s: Section, sections: seq<Section>)
    ensures Expand([s] + sections) == Repeat(s.book, s.run) + Expand(sections)
  {
    assert ([s] + sections)[1..] == sections;
  }

  lemma NothingLeft(bands: seq<Band>, long: bool, cb: nat)
    requires IsInput(bands, long) && cb < BOOKS
    ensures Good(bands, long, 0, cb) && Trace(bands, long, 0, cb) == []
  {
  }

  // ----- the whole of codebook_trellis_rate

  /** The cheapest codebook after the last band. */
  function BestBook(bands: seq<Band>, long: bool): (cb: nat)
    requires IsInput(bands, long)
    ensures cb < BOOKS
  {
    Cheapest(Column(bands, long, |bands|).cells, 0, BOOKS)
  }

  /** The run-length coded codebook data of one window group: what is written, and what becomes of the band types and zero flags. */
  method EncodeBandInfo(bands: seq<Band>, long: bool, base: nat, bandType: array<nat>, zeroes: array<bool>)
    returns (ok: bool, out: Word, sections: seq<Section>)
    requires IsInput(bands, long) && base + |bands| <= bandType.Length == zeroes.Length
    modifies bandType, zeroes
    ensures ok <==> Good(bands, long, |bands|, BestBook(bands, long))
    ensures ok ==>
              var t := Trace(bands, long, |bands|, BestBook(bands, long));
              && Proper(sections) && Expand(sections) == t && out == WriteSections(long, sections)
              && bandType[base..base + |bands|] == t && zeroes[base..base + |bands|] == Flags(t)
    ensures forall i | 0 <= i < bandType.Length && (ok ==> !(base <= i < base + |bands|)) ::
              bandType[i] == old(bandType[i]) && zeroes[i] == old(zeroes[i])
  {
    hide Column, At, Good, Trace, Proper, Cheapest;
    var n := |bands|;
    var path := new Cell[n + 1, BOOKS]((_, _) => Cell(RunBits(long) + 4, -1, 0));
    var minrd, mincb := None, 0;
    StartColumn(path, bands, long);
    for k := 0 to n
      invariant HoldsColumns(path, bands, long, k)
      invariant minrd == Column(bands, long, k).minrd && mincb == Column(bands, long, k).mincb
      invariant forall i | 0 <= i < bandType.Length :: bandType[i] == old(bandType[i]) && zeroes[i] == old(zeroes[i])
    {
      minrd, mincb := FillColumn(path, bands, long, k, minrd, mincb);
    }
    var idx := FindCheapest(path, bands, long);
    ok, sections := Backtrack(path, bands, long, idx);
    out := [];
    if ok {
      out := WriteBandInfo(sections, long, base, bandType, zeroes);
    }
  }

  lemma StartColumn(path: array2<Cell>, bands: seq<Band>, long: bool)
    requires IsInput(bands, long) && path.Length0 > |bands| && path.Length1 == BOOKS
    requires forall c | 0 <= c < BOOKS :: path[0, c] == Cell(RunBits(long) + 4, -1, 0)
    ensures HoldsColumns(path, bands, long, 0)
    ensures Column(bands, long, 0).minrd == None && Column(bands, long, 0).mincb == 0
  {
  }

  method FindCheapest(path: array2<Cell>, bands: seq<Band>, long: bool) returns (idx: nat)
    requires IsInput(bands, long) && path.Length0 > |bands| && path.Length1 == BOOKS
    requires HoldsColumns(path, bands, long, |bands|)
    ensures idx == BestBook(bands, long)
  {
    hide Column;
    ghost var cells := Column(bands, long, |bands|).cells;
    assert forall c | 0 <= c < BOOKS :: path[|bands|, c] == cells[c];
    idx := 0;
    assert idx == Cheapest(cells, 0, 1);
    for cb := 1 to BOOKS
      invariant idx == Cheapest(cells, 0, cb)
    {
      if path[|bands|, cb].cost < path[|bands|, idx].cost {
        idx := cb;
      }
    }
  }

  /** Codebook 0 codes nothing. */
  function Flags(t: seq<nat>): seq<bool> {
    seq(|t|, i requires 0 <= i < |t| => t[i] == 0)
  }

  lemma FlagsAppend(t: seq<nat>, u: seq<nat>)
    ensures Flags(t + u) == Flags(t) + Flags(u)
  {
  }

  /** Writes one section and records its codebook. */
  method WriteSection(section: Section, long: bool, base: nat, bandType: array<nat>, zeroes: array<bool>) returns (out: Word)
    requires base + section.run <= bandType.Length == zeroes.Length
    modifies bandType, zeroes
    ensures out == ToWord(section.book, 4) + WriteRun(long, section.run)
    ensures bandType[base..base + section.run] == Repeat(section.book, section.run)
    ensures zeroes[base..base + section.run] == Flags(Repeat(section.book, section.run))
    ensures forall i | 0 <= i < bandType.Length && !(base <= i < base + section.run) ::
              bandType[i] == old(bandType[i]) && zeroes[i] == old(zeroes[i])
  {
    hide ToWord;
    var cb, count := section.book, section.run;
    out := ToWord(cb, 4);
    for j := 0 to count
      invariant forall i | base <= i < base + j :: bandType[i] == cb && (zeroes[i] <==> cb == 0)
      invariant forall i | 0 <= i < bandType.Length && !(base <= i < base + j) ::
                  bandType[i] == old(bandType[i]) && zeroes[i] == old(zeroes[i])
    {
      bandType[base + j] := cb;
      zeroes[base + j] := cb == 0;
    }
    while count >= RunEsc(long)
      invariant 0 <= count
      invariant out + WriteRun(long, count) == ToWord(cb, 4) + WriteRun(long, section.run)
    {
      out := out + ToWord(RunEsc(long), RunBits(long));
      count := count - RunEsc(long);
    }
    out := out + ToWord(count, RunBits(long));
  }

  /** Writes the sections, first one first, and records their codebooks. */
  method WriteBandInfo(sections: seq<Section>, long: bool, base: nat, bandType: array<nat>, zeroes: array<bool>) returns (out: Word)
    requires base + |Expand(sections)| <= bandType.Length == zeroes.Length
    modifies bandType, zeroes
    ensures out == WriteSections(long, sections)
    ensures bandType[base..base + |Expand(sections)|] == Expand(sections)
    ensures zeroes[base..base + |Expand(sections)|] == Flags(Expand(sections))
    ensures forall i | 0 <= i < bandType.Length && !(base <= i < base + |Expand(sections)|) ::
              bandType[i] == old(bandType[i]) && zeroes[i] == old(zeroes[i])
    decreases |sections|
  {
    hide ToWord, WriteRun, Flags, Expand, Repeat, WriteSections;
    out := [];
    if sections == [] {
      NoSections(long);
      FlagsOfNone();
    } else {
      WriteFirst(long, sections);
      ghost var first, rest := Repeat(sections[0].book, sections[0].run), Expand(sections[1..]);
      FlagsAppend(first, rest);
      out := WriteSection(sections[0], long, base, bandType, zeroes);
      ghost var mid := base + sections[0].run;
      label Written:
      var tail := WriteBandInfo(sections[1..], long, base + sections[0].run, bandType, zeroes);
      assert bandType[base..mid] == old@Written(bandType[base..mid]) && zeroes[base..mid] == old@Written(zeroes[base..mid]);
      SliceJoin(bandType[..], base, mid, first, rest);
      SliceJoin(zeroes[..], base, mid, Flags(first), Flags(rest));
      out := out + tail;
    }
  }

  lemma SliceJoin<T>(s: seq<T>, a: nat, b: nat, x: seq<T>, y: seq<T>)
    requires a + |x| == b && b + |y| <= |s| && s[a..b] == x && s[b..b + |y|] == y
    ensures s[a..b + |y|] == x + y
  {
  }

  lemma WriteFirst(long: bool, sections: seq<Section>)
    requires sections != []
    ensures var s, tail := sections[0], sections[1..];
            && Expand(sections) == Repeat(s.book, s.run) + Expand(tail) && |Repeat(s.book, s.run)| == s.run
            && WriteSections(long, sections) == ToWord(s.book, 4) + WriteRun(long, s.run) + WriteSections(long, tail)
  {
  }

  lemma FlagsOfNone()
    ensures Flags([]) == []
  {
  }

  // ----- what the whole achieves

  /** A bound a caller can compute beforehand: every band in the escape codebook, with a length field for each. */
  function EscapeBound(bands: seq<Band>, long: bool, k: nat): nat
    requires k <= |bands|
  {
    if k == 0 then RunBits(long) + 4 else EscapeBound(bands, long, k - 1) + bands[k - 1].Data(11) + RunBits(long)
  }

  lemma {:induction false} EscapeBoundHolds(bands: seq<Band>, long: bool, k: nat)
    requires IsInput(bands, long) && k <= |bands|
    ensures At(bands, long, k, 11).cost <= EscapeBound(bands, long, k)
  {
    hide IsInput, At, Column, RunValueBits;
    if k == 0 {
      FirstCell(bands, long, 11);
    } else {
      EscapeBoundHolds(bands, long, k - 1);
      ColumnStep(bands, long, k, 11);
      AtIsCell(bands, long, k - 1, 11);
      LeastBelow11(bands, long, k);
    }
  }

  lemma LeastBelow11(bands: seq<Band>, long: bool, k: nat)
    requires IsInput(bands, long) && 0 < k <= |bands|
    ensures bands[k - 1].Coded? ==> bands[k - 1].least <= 11
  {
  }

  /** When the final cost, or a bound computed beforehand, is below the sentinel, the backtrack succeeds and respects
      the codebook every coded band needs. */
  lemma BelowSentinel(bands: seq<Band>, long: bool)
    requires IsInput(bands, long)
    requires At(bands, long, |bands|, BestBook(bands, long)).cost < SENTINEL || EscapeBound(bands, long, |bands|) < SENTINEL
    ensures Good(bands, long, |bands|, BestBook(bands, long))
    ensures var t := Trace(bands, long, |bands|, BestBook(bands, long));
            forall i | 0 <= i < |bands| && bands[i].Coded? :: t[i] >= bands[i].least
  {
    var cb := BestBook(bands, long);
    EscapeBoundHolds(bands, long, |bands|);
    assert At(bands, long, |bands|, cb).cost <= At(bands, long, |bands|, 11).cost;
    hide At, Good, Trace, Column;
    CheapIsGood(bands, long, |bands|, cb);
    TraceRespects(bands, long, |bands|, cb);
  }

  lemma BestIsBelow(bands: seq<Band>, long: bool)
    requires IsInput(bands, long) && EscapeBound(bands, long, |bands|) < SENTINEL
    ensures At(bands, long, |bands|, BestBook(bands, long)).cost < SENTINEL
  {
    EscapeBoundHolds(bands, long, |bands|);
    assert At(bands, long, |bands|, BestBook(bands, long)).cost <= At(bands, long, |bands|, 11).cost;
  }

  /** The final cost is the header bits plus the data bits of the coded bands, less one length field for each section of exactly
      62 (long) or 14 (short) bands, and less the length fields that zero bands add. */
  lemma TrellisRate(bands: seq<Band>, long: bool, sections: seq<Section>)
    requires IsInput(bands, long) && bands != []
    requires Good(bands, long, |bands|, BestBook(bands, long)) && Proper(sections)
    requires Expand(sections) == Trace(bands, long, |bands|, BestBook(bands, long))
    ensures var t := Expand(sections);
            && |WriteSections(long, sections)| + DataBits(bands, t) ==
               At(bands, long, |bands|, BestBook(bands, long)).cost + RunBits(long) * LongRuns(long, t) + ZeroFields(bands, long, t)
            && LongRuns(long, t) >= 0
            && (|bands| < 2 * RunEsc(long) ==> LongRuns(long, t) == 0)
  {
    hide At, Good, Trace, Column, Charge, HeaderBits, DataBits, LongRuns, BestBook, Expand, WriteSections, ZeroFields, ZerosJoin;
    var t := Expand(sections);
    HeaderIsLength(long, sections);
    CostIsCharge(bands, long, |bands|, BestBook(bands, long));
    TraceJoins(bands, long, |bands|, BestBook(bands, long));
    ChargeIsWritten(bands, long, t);
    LongRunsBound(long, t);
  }

  /** The decoder reads back the codebook of every band from what the encoder wrote, and leaves the rest of the stream. */
  lemma BandInfoRoundTrip(bands: seq<Band>, long: bool, sections: seq<Section>, rest: Word)
    requires IsInput(bands, long) && Good(bands, long, |bands|, BestBook(bands, long)) && Proper(sections)
    requires Expand(sections) == Trace(bands, long, |bands|, BestBook(bands, long))
    ensures ReadSections(long, WriteSections(long, sections) + rest, 0, |bands|) ==
            Some((Trace(bands, long, |bands|, BestBook(bands, long)), rest))
  {
    SectionsBack(long, sections, 0, |bands|, rest);
  }
}
