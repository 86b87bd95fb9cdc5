/** How good the sections are that the trellis chooses: what any other codebooks for the bands would take. */
module AacCheapest {
  import opened PrefixCode
  import opened Wrappers
  import opened AacSections

  // ----- a cell against the two ways into it

  /** The least codebook of the last coded band among the first k. */
  function Need(bands: seq<Band>, k: nat): Option<nat>
    requires k <= |bands|
  {
    if k == 0 then None
    else if bands[k - 1].Coded? then Some(bands[k - 1].least)
    else Need(bands, k - 1)
  }

  /** Staying in the section, with a length field where the run outgrows one, is never cheaper than the cell. */
  lemma StayAtMost(bands: seq<Band>, long: bool, k: nat, cb: nat)
    requires IsInput(bands, long) && 0 < k <= |bands| && cb < BOOKS && bands[k - 1].Coded? && bands[k - 1].least <= cb
    ensures var c, p := At(bands, long, k, cb), At(bands, long, k - 1, cb);
            && p.run + 1 <= (if long then 63 else 15)
            && c.cost <= p.cost + bands[k - 1].Data(cb)
                         + (if RunValueBits(long, p.run) != RunValueBits(long, p.run + 1) then RunBits(long) else 0)
            && (c.run == p.run + 1 || c.run == 1)
  {
    hide At, Column, IsInput, RunValueBits, RunBits;
    ColumnStep(bands, long, k, cb);
    AtIsCell(bands, long, k - 1, cb);
  }

  /** What is known of a column: until a band is coded every cell costs the same, and then the cheapest cell that a coded band may
      have is kept in view. */
  ghost predicate InView(s: Stage, need: Option<nat>, long: bool) {
    && |s.cells| == BOOKS
    && (need.None? ==> s.minrd.None? && forall cb | 0 <= cb < BOOKS :: s.cells[cb].cost == RunBits(long) + 4)
    && (need.Some? ==> s.minrd.Some? && forall cb | need.value <= cb < BOOKS :: s.minrd.value <= s.cells[cb].cost)
  }

  lemma NextInView(s: Stage, need: Option<nat>, band: Band, long: bool, k: nat)
    requires InView(s, need, long) && Runs(s, k) && k + 1 <= (if long then 63 else 15) && (band.Coded? ==> band.least < BOOKS)
    ensures InView(Next(s, band, long), if band.Coded? then Some(band.least) else need, long)
  {
    hide CodedCell, RunBits;
  }

  lemma {:induction false} ColumnInView(bands: seq<Band>, long: bool, k: nat)
    requires IsInput(bands, long) && k <= |bands|
    ensures InView(Column(bands, long, k), Need(bands, k), long)
  {
    hide InView, Next, Runs;
    if k > 0 {
      ColumnInView(bands, long, k - 1);
      assert Runs(Column(bands, long, k - 1), k - 1);
      NextInView(Column(bands, long, k - 1), Need(bands, k - 1), bands[k - 1], long, k - 1);
    } else {
      StartInView(long);
    }
  }

  lemma StartInView(long: bool)
    ensures InView(Start(long), None, long)
  {
  }

  /** Nor is opening a section after any codebook that the last coded band may have. */
  lemma OpenAtMost(bands: seq<Band>, long: bool, k: nat, cb: nat, p: nat)
    requires IsInput(bands, long) && 0 < k <= |bands| && cb < BOOKS && bands[k - 1].Coded? && bands[k - 1].least <= cb
    requires p < BOOKS && (Need(bands, k - 1).Some? ==> Need(bands, k - 1).value <= p)
    ensures At(bands, long, k, cb).cost <= At(bands, long, k - 1, p).cost + bands[k - 1].Data(cb) + RunBits(long) + 4
  {
    hide At, Column, IsInput, RunBits;
    ColumnStep(bands, long, k, cb);
    ColumnInView(bands, long, k - 1);
    AtIsCell(bands, long, k - 1, cb);
    AtIsCell(bands, long, k - 1, p);
  }

  lemma ZeroCarries(bands: seq<Band>, long: bool, k: nat, cb: nat)
    requires IsInput(bands, long) && 0 < k <= |bands| && cb < BOOKS && bands[k - 1].Zero?
    ensures At(bands, long, k, cb).cost == At(bands, long, k - 1, cb).cost
    ensures At(bands, long, k, cb).run == At(bands, long, k - 1, cb).run + 1
  {
    hide At, Column, IsInput;
    ColumnStep(bands, long, k, cb);
  }

  // ----- any other codebooks

  /** Codebooks for the first bands that carry every band coded. */
  ghost predicate Respects(bands: seq<Band>, t: seq<nat>) {
    |t| <= |bands| && forall i | 0 <= i < |t| :: t[i] < BOOKS && (bands[i].Coded? ==> bands[i].least <= t[i])
  }

  /** The bits of the sections and the coded data. */
  function Bits(bands: seq<Band>, long: bool, t: seq<nat>): nat
    requires |t| <= |bands|
  {
    HeaderBits(long, t) + DataBits(bands, t)
  }

  /** The number of sections. */
  function Count(t: seq<nat>): (n: nat)
    ensures t != [] ==> n > 0
  {
    if t == [] then 0
    else
      var n := |t| - 1;
      Count(t[..n]) + if n == 0 || t[n] != t[n - 1] then 1 else 0
  }

  lemma CountStep(t: seq<nat>)
    requires t != []
    ensures var n := |t| - 1; Count(t) == Count(t[..n]) + if n == 0 || t[n] != t[n - 1] then 1 else 0
  {
  }

  lemma BitsStep(bands: seq<Band>, long: bool, t: seq<nat>)
    requires 0 < |t| <= |bands|
    ensures var n := |t| - 1; Bits(bands, long, t) == Bits(bands, long, t[..n]) + HeaderStep(long, t[..n], t[n]) + bands[n].Data(t[n])
  {
    hide LastRun, RunBits, RunEsc;
    var n := |t| - 1;
    assert n > 0 ==> t[..n][n - 1] == t[n - 1];
  }

  lemma NoBits(bands: seq<Band>, long: bool)
    ensures Bits(bands, long, []) == 0 && Count([]) == 0
  {
  }

  lemma RespectsBefore(bands: seq<Band>, t: seq<nat>)
    requires Respects(bands, t) && ZerosJoin(bands, t) && t != []
    ensures var u := t[..|t| - 1]; Respects(bands, u) && ZerosJoin(bands, u)
  {
  }

  /** The last codebook is one that the last coded band may have. */
  lemma {:induction false} LastMeets(bands: seq<Band>, t: seq<nat>)
    requires Respects(bands, t) && ZerosJoin(bands, t) && t != []
    ensures Need(bands, |t|).Some? ==> Need(bands, |t|).value <= t[|t| - 1]
  {
    var n := |t| - 1;
    if bands[n].Zero? && n > 0 {
      RespectsBefore(bands, t);
      LastMeets(bands, t[..n]);
    }
  }

  // ----- a cell against other codebooks, band by band

  /** How many bands since a length field was charged for, in a run of this length. */
  function Since(long: bool, run: nat): nat {
    var w := RunEsc(long);
    if run == 0 then 0 else if run < w then run - 1 else if run <= 2 * w then run - w else 0
  }

  /** c length fields may have been charged for since the other codebooks' section began, which has r bands. */
  ghost predicate Paced(long: bool, c: nat, run: nat, r: nat) {
    r > 0 && (c == 0 || (RunEsc(long) - 1) * (c - 1) + 1 + Since(long, run) <= r - 1)
  }

  lemma PacedStays(long: bool, c: nat, run: nat, r: nat)
    requires Paced(long, c, run, r) && run + 1 <= if long then 63 else 15
    ensures var crosses := RunValueBits(long, run) != RunValueBits(long, run + 1);
            var d := if crosses then c + 1 else c;
            Paced(long, d, run + 1, r + 1) && Paced(long, d, 1, r + 1)
    ensures Paced(long, c, run + 1, r + 1)
  {
  }

  /** Never more than one above what is written. */
  lemma PacedBound(long: bool, c: nat, run: nat, r: nat)
    requires Paced(long, c, run, r) && r <= if long then 63 else 15
    ensures c <= r / RunEsc(long) + 1
  {
  }

  /** The quotient goes up with each full length field. */
  lemma FieldStep(long: bool, r: nat)
    ensures (r + 1) / RunEsc(long) == r / RunEsc(long) + if (r + 1) % RunEsc(long) == 0 then 1 else 0
    ensures 1 / RunEsc(long) == 0
  {
  }

  /** A cell costs at most what any codebooks ending there take, with a length field for each of their earlier sections, and in the
      last one for the fields charged for and not written. */
  ghost predicate NotAbove(bands: seq<Band>, long: bool, t: seq<nat>, c: nat)
    requires IsInput(bands, long) && 0 < |t| <= |bands| && t[|t| - 1] < BOOKS
  {
    var cell, r := At(bands, long, |t|, t[|t| - 1]), LastRun(t);
    && Paced(long, c, cell.run, r)
    && cell.cost <= Bits(bands, long, t) + RunBits(long) * (Count(t) - 1) + RunBits(long) * (c - r / RunEsc(long))
  }

  lemma Spread(p: nat, a: int, b: int)
    ensures p * (a + b) == p * a + p * b && p * (b + a) == p * a + p * b
  {
  }

  lemma {:induction false} NearlyBest(bands: seq<Band>, long: bool, t: seq<nat>) returns (c: nat)
    requires IsInput(bands, long) && Respects(bands, t) && ZerosJoin(bands, t) && t != []
    ensures NotAbove(bands, long, t, c)
    decreases |t|
  {
    hide At, Column, Bits, HeaderBits, DataBits, LastRun, Count, Paced, ZerosJoin, Need, RunValueBits;
    var n := |t| - 1;
    var u, cb := t[..n], t[n];
    if n == 0 {
      c := 0;
      FirstNotAbove(bands, long, t);
    } else {
      RespectsBefore(bands, t);
      InputBound(bands, long);
      var d := NearlyBest(bands, long, u);
      if cb == t[n - 1] {
        c := SameNotAbove(bands, long, t, d);
      } else {
        c := 0;
        OtherNotAbove(bands, long, t, d);
      }
    }
  }

  lemma FirstNotAbove(bands: seq<Band>, long: bool, t: seq<nat>)
    requires IsInput(bands, long) && Respects(bands, t) && |t| == 1
    ensures NotAbove(bands, long, t, 0)
  {
    hide At, Column, IsInput;
    NoBits(bands, long);
    assert t[..0] == [];
    BitsStep(bands, long, t);
    FirstCell(bands, long, t[0]);
    if bands[0].Coded? {
      StayAtMost(bands, long, 1, t[0]);
    } else {
      ZeroCarries(bands, long, 1, t[0]);
    }
  }

  /** The other codebooks stay in their section. */
  lemma SameNotAbove(bands: seq<Band>, long: bool, t: seq<nat>, d: nat) returns (c: nat)
    requires IsInput(bands, long) && Respects(bands, t) && 1 < |t| <= (if long then 63 else 15) && t[|t| - 1] == t[|t| - 2]
    requires NotAbove(bands, long, t[..|t| - 1], d)
    ensures NotAbove(bands, long, t, c)
  {
    hide At, Column, IsInput, Bits, LastRun, Count, Paced, RunValueBits, RunBits, RunEsc;
    var n := |t| - 1;
    var u, cb := t[..n], t[n];
    var p, r := At(bands, long, n, cb), LastRun(u);
    LastRunStep(t);
    BitsStep(bands, long, t);
    CountStep(t);
    FieldStep(long, r);
    var crosses := false;
    if bands[n].Coded? {
      StayAtMost(bands, long, n + 1, cb);
      crosses := RunValueBits(long, p.run) != RunValueBits(long, p.run + 1);
    } else {
      ZeroCarries(bands, long, n + 1, cb);
      RunFits(bands, long, n, cb);
    }
    PacedStays(long, d, p.run, r);
    c := if crosses then d + 1 else d;
    Spread(RunBits(long), d - r / RunEsc(long), (c - d) - ((r + 1) / RunEsc(long) - r / RunEsc(long)));
    Times(RunBits(long), c - d, (r + 1) / RunEsc(long) - r / RunEsc(long));
  }

  lemma Times(p: nat, a: int, b: int)
    requires 0 <= a <= 1 && 0 <= b <= 1
    ensures p * (a - b) == (if a == 1 then p else 0) - if b == 1 then p else 0
  {
  }

  lemma RunFits(bands: seq<Band>, long: bool, k: nat, cb: nat)
    requires IsInput(bands, long) && k < |bands| && cb < BOOKS
    ensures At(bands, long, k, cb).run + 1 <= if long then 63 else 15
  {
    assert Runs(Column(bands, long, k), k);
  }

  /** The other codebooks open a section. */
  lemma OtherNotAbove(bands: seq<Band>, long: bool, t: seq<nat>, d: nat)
    requires IsInput(bands, long) && Respects(bands, t) && ZerosJoin(bands, t) && 1 < |t| <= (if long then 63 else 15)
    requires t[|t| - 1] != t[|t| - 2] && NotAbove(bands, long, t[..|t| - 1], d)
    ensures NotAbove(bands, long, t, 0)
  {
    hide At, Column, IsInput, Bits, LastRun, Count, RunBits, RunEsc, Since, Need;
    var n := |t| - 1;
    var u, cb := t[..n], t[n];
    var r := LastRun(u);
    LastRunStep(t);
    BitsStep(bands, long, t);
    CountStep(t);
    RespectsBefore(bands, t);
    LastMeets(bands, u);
    OpenAtMost(bands, long, n + 1, cb, t[n - 1]);
    PacedBound(long, d, At(bands, long, n, t[n - 1]).run, r);
    FieldStep(long, 0);
    Spread(RunBits(long), Count(u) - 1, 1);
    AtMostOne(RunBits(long), d - r / RunEsc(long));
  }

  lemma AtMostOne(p: nat, a: int)
    requires a <= 1
    ensures p * a <= p
  {
  }

  // ----- the codebooks chosen

  /** The cost the search ends with. */
  function Cost(bands: seq<Band>, long: bool): nat
    requires IsInput(bands, long)
  {
    At(bands, long, |bands|, BestBook(bands, long)).cost
  }

  lemma CostIsLeast(bands: seq<Band>, long: bool, cb: nat)
    requires IsInput(bands, long) && cb < BOOKS
    ensures Cost(bands, long) <= At(bands, long, |bands|, cb).cost
  {
    hide Column;
  }

  /** It is at most what any codebooks for the bands take, with a length field more for each of their sections. */
  lemma CostNearlyBest(bands: seq<Band>, long: bool, t: seq<nat>)
    requires IsInput(bands, long) && Respects(bands, t) && ZerosJoin(bands, t) && |t| == |bands| && t != []
    ensures Cost(bands, long) <= Bits(bands, long, t) + RunBits(long) * Count(t)
  {
    hide At, Column, Bits, LastRun, Count, Cost, RunBits, RunEsc, ZerosJoin, Since;
    var n := |t|;
    var c := NearlyBest(bands, long, t);
    CostIsLeast(bands, long, t[n - 1]);
    InputBound(bands, long);
    assert LastRun(t) <= n;
    PacedBound(long, c, At(bands, long, n, t[n - 1]).run, LastRun(t));
    AtMostOne(RunBits(long), c - LastRun(t) / RunEsc(long));
    Spread(RunBits(long), Count(t) - 1, 1);
  }

  /** Fewer bands than a length field counts need no second one. */
  lemma {:induction false} ShortBest(bands: seq<Band>, long: bool, t: seq<nat>)
    requires IsInput(bands, long) && Respects(bands, t) && ZerosJoin(bands, t) && 0 < |t| < RunEsc(long)
    ensures At(bands, long, |t|, t[|t| - 1]).cost <= Bits(bands, long, t)
    decreases |t|
  {
    hide At, Column, IsInput, Bits, LastRun, Count, ZerosJoin, Need;
    var n := |t| - 1;
    var u, cb := t[..n], t[n];
    BitsStep(bands, long, t);
    RunSmall(bands, long, n, cb);
    if n == 0 {
      assert u == [];
      NoBits(bands, long);
      FirstCell(bands, long, cb);
    } else {
      RespectsBefore(bands, t);
      ShortBest(bands, long, u);
      LastMeets(bands, u);
    }
    if bands[n].Zero? {
      ZeroCarries(bands, long, n + 1, cb);
      if n > 0 {
        ZeroSame(bands, t);
      }
    } else {
      StayAtMost(bands, long, n + 1, cb);
      if n > 0 {
        OpenAtMost(bands, long, n + 1, cb, t[n - 1]);
      }
    }
  }

  lemma ZeroSame(bands: seq<Band>, t: seq<nat>)
    requires |t| <= |bands| && ZerosJoin(bands, t) && |t| > 1
    ensures bands[|t| - 1].Zero? ==> t[|t| - 1] == t[|t| - 2]
  {
  }

  lemma RunSmall(bands: seq<Band>, long: bool, k: nat, cb: nat)
    requires IsInput(bands, long) && k < |bands| && cb < BOOKS && k + 1 < RunEsc(long)
    ensures var r := At(bands, long, k, cb).run;
            r + 1 < RunEsc(long) && RunValueBits(long, r) == RunValueBits(long, r + 1)
  {
    assert Runs(Column(bands, long, k), k);
  }

  /** Zero bands put into the section before them. */
  function Joined(bands: seq<Band>, t: seq<nat>): (r: seq<nat>)
    requires |t| <= |bands|
    ensures |r| == |t|
  {
    if t == [] then []
    else
      var n := |t| - 1;
      var u := Joined(bands, t[..n]);
      u + [if bands[n].Zero? && n > 0 then u[n - 1] else t[n]]
  }

  lemma JoinedStep(bands: seq<Band>, t: seq<nat>)
    requires 0 < |t| <= |bands|
    ensures var n := |t| - 1;
            var u := Joined(bands, t[..n]);
            && Joined(bands, t)[..n] == u
            && Joined(bands, t)[n] == if bands[n].Zero? && n > 0 then u[n - 1] else t[n]
  {
  }

  lemma {:induction false} JoinedRespects(bands: seq<Band>, t: seq<nat>)
    requires Respects(bands, t)
    ensures Respects(bands, Joined(bands, t)) && ZerosJoin(bands, Joined(bands, t))
  {
    hide Joined;
    if t != [] {
      var n := |t| - 1;
      JoinedRespects(bands, t[..n]);
      JoinedStep(bands, t);
      var u, r := Joined(bands, t[..n]), Joined(bands, t);
      assert forall i | 0 <= i < n :: r[i] == u[i];
    }
  }

  lemma DataStep(bands: seq<Band>, t: seq<nat>)
    requires |t| <= |bands|
    ensures DataBits(bands, t) == if t == [] then 0 else DataBits(bands, t[..|t| - 1]) + bands[|t| - 1].Data(t[|t| - 1])
  {
  }

  /** This moves no coded band, and adds no section. */
  lemma {:induction false} JoinedIs(bands: seq<Band>, t: seq<nat>)
    requires |t| <= |bands|
    ensures var r := Joined(bands, t);
            && DataBits(bands, r) == DataBits(bands, t)
            && Count(r) + (if r != [] && r[|r| - 1] != t[|t| - 1] then 1 else 0) <= Count(t)
  {
    hide Joined, Count, DataBits;
    var r := Joined(bands, t);
    DataStep(bands, t);
    DataStep(bands, r);
    if t != [] {
      var n := |t| - 1;
      JoinedIs(bands, t[..n]);
      JoinedStep(bands, t);
      CountStep(t);
      CountStep(r);
      assert n > 0 ==> r[n - 1] == r[..n][n - 1] && t[n - 1] == t[..n][n - 1];
    } else {
      NoBits(bands, true);
    }
  }

  lemma HeaderIs(long: bool, t: seq<nat>)
    ensures HeaderBits(long, t) == if t == [] then 0 else HeaderBits(long, t[..|t| - 1]) + HeaderStep(long, t[..|t| - 1], t[|t| - 1])
  {
    hide LastRun, RunBits, RunEsc;
  }

  lemma {:induction false} ShortHeader(long: bool, t: seq<nat>)
    requires |t| < RunEsc(long)
    ensures HeaderBits(long, t) == (4 + RunBits(long)) * Count(t)
  {
    hide HeaderBits, Count, LastRun;
    HeaderIs(long, t);
    if t != [] {
      var n := |t| - 1;
      ShortHeader(long, t[..n]);
      CountStep(t);
      assert n > 0 ==> t[..n][n - 1] == t[n - 1];
      Spread(4 + RunBits(long), Count(t[..n]), 1);
    } else {
      NoBits([], long);
    }
  }

  /** In a group with fewer bands than a length field counts, no codebooks that carry the bands take fewer bits than those chosen. */
  lemma CheapestOfAll(bands: seq<Band>, long: bool, t: seq<nat>)
    requires IsInput(bands, long) && 0 < |bands| < RunEsc(long) && Good(bands, long, |bands|, BestBook(bands, long))
    requires Respects(bands, t) && |t| == |bands|
    ensures var chosen := Trace(bands, long, |bands|, BestBook(bands, long));
            Respects(bands, chosen) && Bits(bands, long, chosen) <= Bits(bands, long, t)
  {
    hide At, Column, Good, Trace, BestBook, HeaderBits, DataBits, Count, Joined, ZerosJoin, IsInput;
    var r := Joined(bands, t);
    JoinedIs(bands, t);
    JoinedRespects(bands, t);
    ShortHeader(long, t);
    ShortHeader(long, r);
    Scaled(4 + RunBits(long), Count(r), Count(t));
    ShortBest(bands, long, r);
    CostIsLeast(bands, long, r[|r| - 1]);
    ChosenBits(bands, long);
  }

  lemma Scaled(p: nat, a: nat, b: nat)
    requires a <= b
    ensures p * a <= p * b
  {
  }

  /** The bits of the codebooks chosen are the cost, but for the fields it does not count. */
  lemma ChosenBits(bands: seq<Band>, long: bool)
    requires IsInput(bands, long) && bands != [] && Good(bands, long, |bands|, BestBook(bands, long))
    ensures var chosen := Trace(bands, long, |bands|, BestBook(bands, long));
            && Respects(bands, chosen)
            && Bits(bands, long, chosen)
               == Cost(bands, long) + RunBits(long) * LongRuns(long, chosen) + ZeroFields(bands, long, chosen)
            && (|bands| < RunEsc(long) ==> Bits(bands, long, chosen) == Cost(bands, long))
  {
    hide At, Column, Good, Trace, BestBook, Charge, HeaderBits, DataBits, LongRuns, ZeroFields, ZerosJoin;
    var cb := BestBook(bands, long);
    var chosen := Trace(bands, long, |bands|, cb);
    CostIsCharge(bands, long, |bands|, cb);
    TraceJoins(bands, long, |bands|, cb);
    TraceRespects(bands, long, |bands|, cb);
    ChargeIsWritten(bands, long, chosen);
    LongRunsBound(long, chosen);
    InputBound(bands, long);
    if |bands| < RunEsc(long) {
      ShortZeroFields(bands, long, chosen);
    }
  }

  lemma {:induction false} ShortZeroFields(bands: seq<Band>, long: bool, t: seq<nat>)
    requires |t| <= |bands| <= (if long then 63 else 15) && |t| < RunEsc(long)
    ensures ZeroFields(bands, long, t) == 0
  {
    if t != [] {
      ShortZeroFields(bands, long, t[..|t| - 1]);
    }
  }

  /** In any group, the bits of the codebooks chosen are at most those of any others in which zero bands go with the band before,
      with a length field more for each section of theirs, and the fields the cost does not count. */
  lemma NearlyCheapest(bands: seq<Band>, long: bool, t: seq<nat>)
    requires IsInput(bands, long) && bands != [] && Good(bands, long, |bands|, BestBook(bands, long))
    requires Respects(bands, t) && ZerosJoin(bands, t) && |t| == |bands|
    ensures var chosen := Trace(bands, long, |bands|, BestBook(bands, long));
            Bits(bands, long, chosen) <= Bits(bands, long, t) + RunBits(long) * Count(t)
                                         + RunBits(long) * LongRuns(long, chosen) + ZeroFields(bands, long, chosen)
  {
    hide At, Column, Good, Trace, BestBook, Bits, LongRuns, ZeroFields, ZerosJoin, Cost, Count, Respects;
    ChosenBits(bands, long);
    CostNearlyBest(bands, long, t);
  }

  // ----- with more bands

  /** Bands that are cheap in codebook 1 alone, that need codebook 10, and that need codebook 11. */
  function One(): Band {
    Coded(1, seq(BOOKS, cb => if cb == 1 then 0 else 200))
  }

  function Ten(bits: nat): Band {
    Coded(10, seq(BOOKS, cb => if cb == 11 then bits else 0))
  }

  function Eleven(): Band {
    Coded(11, seq(BOOKS, _ => 0))
  }

  lemma DataIs(bits: nat, cb: nat)
    requires cb < BOOKS
    ensures One().Data(cb) == (if cb == 1 then 0 else 200) && Eleven().Data(cb) == 0
    ensures Ten(bits).Data(cb) == if cb == 11 then bits else 0
  {
  }

  /** The codebook and the first length field of a section. */
  function Field(long: bool): nat {
    4 + RunBits(long)
  }

  /** As many bands as a length field counts: all but the last two need codebook 10, and those codebook 11; and what the first would
      take in codebook 11 is just less than a section. Before them as many others as there are to be. */
  function BandAt(long: bool, n: nat, k: nat): Band {
    if k + RunEsc(long) < n then One()
    else if k + RunEsc(long) == n then Ten(Field(long) - 1)
    else if k + 2 < n then Ten(0)
    else Eleven()
  }

  function Adverse(long: bool, n: nat): (b: seq<Band>)
    ensures |b| == n
  {
    seq(n, k requires 0 <= k < n => BandAt(long, n, k))
  }

  /** Each band in the codebook it needs. */
  function NeededAt(long: bool, n: nat, k: nat): nat {
    if k + RunEsc(long) < n then 1 else if k + 2 < n then 10 else 11
  }

  function Needed(long: bool, n: nat): (t: seq<nat>)
    ensures |t| == n
  {
    seq(n, k requires 0 <= k < n => NeededAt(long, n, k))
  }

  /** What the first k bands take in codebook 1. */
  function Lead(long: bool, k: nat): nat {
    if k == 0 then 0 else Field(long) + if k >= RunEsc(long) then RunBits(long) else 0
  }

  ghost predicate Led(s: Stage, long: bool, k: nat) {
    && |s.cells| == BOOKS && s.cells[1].cost == Lead(long, k) && s.cells[1].run == k
    && s.minrd == Some(Lead(long, k)) && s.mincb == 1
    && forall cb | 2 <= cb < BOOKS :: s.cells[cb].cost >= 200
  }

  /** Sections in codebook 10, or in codebook 11 from the same band on. */
  ghost predicate Two(s: Stage, long: bool, cost: nat, run: nat) {
    && |s.cells| == BOOKS && s.cells[10].cost == cost && s.cells[10].run == run
    && s.cells[11].cost == cost + Field(long) - 1 && s.cells[11].run == run
    && s.minrd == Some(cost) && s.mincb == 10
  }

  ghost predicate OnlyEleven(s: Stage, cost: nat, run: nat) {
    && |s.cells| == BOOKS && s.cells[11].cost == cost && s.cells[11].run == run && s.minrd == Some(cost)
    && forall cb | 0 <= cb < 11 :: s.cells[cb].cost == SENTINEL
  }

  /** The trellis after k of the bands. */
  ghost predicate View(s: Stage, long: bool, n: nat, k: nat)
    requires RunEsc(long) <= n && k <= n
  {
    var q := n - RunEsc(long);
    var cost := Lead(long, q) + Field(long);
    if k == 0 then s == Start(long)
    else if k <= q then Led(s, long, k)
    else if k + 2 <= n then Two(s, long, cost, k - q)
    else if k < n then OnlyEleven(s, cost + Field(long) - 1, RunEsc(long) - 1)
    else OnlyEleven(s, cost + Field(long) - 1 + RunBits(long), RunEsc(long))
  }

  lemma LedStep(s: Stage, long: bool, k: nat)
    requires if k == 0 then s == Start(long) else Led(s, long, k)
    requires Runs(s, k) && k + 1 < 2 * RunEsc(long)
    ensures Led(Next(s, One(), long), long, k + 1)
  {
    hide CodedCell;
    var r := Next(s, One(), long);
    forall cb | 0 < cb < BOOKS
      ensures if cb == 1 then r.cells[1].cost == Lead(long, k + 1) && r.cells[1].run == k + 1 else r.cells[cb].cost >= 200
    {
      DataIs(0, cb);
      assert r.cells[cb] == CodedCell(s, 1, One().Data(cb), long, cb);
      LedCell(s, long, k, cb);
    }
  }

  lemma LedCell(s: Stage, long: bool, k: nat, cb: nat)
    requires if k == 0 then s == Start(long) else Led(s, long, k)
    requires Runs(s, k) && k + 1 < 2 * RunEsc(long) && 0 < cb < BOOKS
    ensures var c := CodedCell(s, 1, if cb == 1 then 0 else 200, long, cb);
            if cb == 1 then c.cost == Lead(long, k + 1) && c.run == k + 1 else c.cost >= 200
  {
  }

  lemma FirstTen(s: Stage, long: bool, k: nat)
    requires if k == 0 then s == Start(long) else Led(s, long, k)
    requires Runs(s, k) && k + 1 < 2 * RunEsc(long)
    ensures Two(Next(s, Ten(Field(long) - 1), long), long, Lead(long, k) + Field(long), 1)
  {
    DataIs(Field(long) - 1, 10);
    DataIs(Field(long) - 1, 11);
    var r := Next(s, Ten(Field(long) - 1), long);
    assert r.cells[10] == CodedCell(s, 10, 0, long, 10);
    assert r.cells[11] == CodedCell(s, 10, Field(long) - 1, long, 11);
  }

  lemma NextTen(s: Stage, long: bool, cost: nat, run: nat, k: nat)
    requires Two(s, long, cost, run) && 0 < run && run + 3 <= RunEsc(long)
    requires Runs(s, k) && k + 1 < 3 * RunEsc(long) && k + 1 <= if long then 63 else 15
    ensures Two(Next(s, Ten(0), long), long, cost, run + 1)
  {
    DataIs(0, 10);
    DataIs(0, 11);
    var r := Next(s, Ten(0), long);
    assert r.cells[10] == CodedCell(s, 10, 0, long, 10);
    assert r.cells[11] == CodedCell(s, 10, 0, long, 11);
  }

  lemma NextEleven(s: Stage, long: bool, cost: nat, run: nat, k: nat)
    requires Two(s, long, cost, run) || OnlyEleven(s, cost + Field(long) - 1, run)
    requires run + 2 == RunEsc(long) || (run + 1 == RunEsc(long) && OnlyEleven(s, cost + Field(long) - 1, run))
    requires Runs(s, k) && k + 1 <= if long then 63 else 15
    ensures OnlyEleven(Next(s, Eleven(), long), cost + Field(long) - 1 + if run + 1 == RunEsc(long) then RunBits(long) else 0, run + 1)
  {
    DataIs(0, 11);
    var r := Next(s, Eleven(), long);
    assert r.cells[11] == CodedCell(s, 11, 0, long, 11);
    forall cb | 0 <= cb < 11
      ensures r.cells[cb].cost == SENTINEL
    {
      assert r.cells[cb] == CodedCell(s, 11, Eleven().Data(cb), long, cb);
    }
  }

  lemma ViewStep(s: Stage, long: bool, n: nat, k: nat)
    requires RunEsc(long) <= n <= (if long then 63 else 15) && k < n && Runs(s, k) && View(s, long, n, k)
    ensures View(Next(s, BandAt(long, n, k), long), long, n, k + 1)
  {
    hide Led, Two, OnlyEleven, Next, Runs, Start, One, Ten, Eleven, Lead, Field;
    var q := n - RunEsc(long);
    var cost := Lead(long, q) + Field(long);
    if k < q {
      LedStep(s, long, k);
    } else if k == q {
      FirstTen(s, long, k);
    } else if k + 2 < n {
      NextTen(s, long, cost, k - q, k);
    } else {
      NextEleven(s, long, cost, k - q, k);
    }
  }

  lemma AdverseIs(long: bool, n: nat)
    requires RunEsc(long) <= n <= if long then 63 else 15
    ensures IsInput(Adverse(long, n), long) && Respects(Adverse(long, n), Needed(long, n))
    ensures forall k | 0 <= k < n :: Adverse(long, n)[k] == BandAt(long, n, k)
  {
  }

  lemma {:induction false} AdverseColumn(long: bool, n: nat, k: nat)
    requires RunEsc(long) <= n <= (if long then 63 else 15) && k <= n && IsInput(Adverse(long, n), long)
    ensures View(Column(Adverse(long, n), long, k), long, n, k)
  {
    hide View, Next, Runs, IsInput, BandAt, Adverse;
    ColumnUnfold(Adverse(long, n), long, k);
    if k == 0 {
      FirstView(long, n);
    } else {
      AdverseColumn(long, n, k - 1);
      AdverseIs(long, n);
      ViewStep(Column(Adverse(long, n), long, k - 1), long, n, k - 1);
    }
  }

  lemma FirstView(long: bool, n: nat)
    requires RunEsc(long) <= n
    ensures View(Start(long), long, n, 0)
  {
  }

  lemma ColumnUnfold(bands: seq<Band>, long: bool, k: nat)
    requires IsInput(bands, long) && k <= |bands|
    ensures Runs(Column(bands, long, k), k)
    ensures k == 0 ==> Column(bands, long, k) == Start(long)
    ensures k > 0 ==> Runs(Column(bands, long, k - 1), k - 1)
                      && Column(bands, long, k) == Next(Column(bands, long, k - 1), bands[k - 1], long)
  {
    hide Next, Runs;
  }

  /** What each band in the codebook it needs takes, after k bands. */
  ghost predicate NeededBits(long: bool, n: nat, k: nat)
    requires RunEsc(long) <= n && 0 < k <= n
  {
    var q := n - RunEsc(long);
    var t := Needed(long, n)[..k];
    var cost := Lead(long, q) + Field(long);
    if k <= q then Bits(Adverse(long, n), long, t) == Lead(long, k) && LastRun(t) == k
    else if k + 2 <= n then Bits(Adverse(long, n), long, t) == cost && LastRun(t) == k - q
    else Bits(Adverse(long, n), long, t) == cost + Field(long) && LastRun(t) == k + 2 - n
  }

  lemma {:induction false} NeededTake(long: bool, n: nat, k: nat)
    requires RunEsc(long) <= n <= (if long then 63 else 15) && 0 < k <= n
    ensures NeededBits(long, n, k)
  {
    hide Bits, LastRun, Adverse, BandAt, Needed, HeaderStep;
    var t := Needed(long, n)[..k];
    AdverseIs(long, n);
    NeededEnd(long, n, k);
    LastRunStep(t);
    BitsStep(Adverse(long, n), long, t);
    NeededData(long, n, k - 1);
    if k > 1 {
      NeededTake(long, n, k - 1);
      SectionGrows(long, t[..k - 1], t[k - 1]);
    } else {
      NoBits(Adverse(long, n), long);
      SectionGrows(long, t[..0], t[0]);
    }
  }

  lemma NeededEnd(long: bool, n: nat, k: nat)
    requires 0 < k <= n
    ensures var t := Needed(long, n)[..k];
            && t[..k - 1] == Needed(long, n)[..k - 1] && t[k - 1] == NeededAt(long, n, k - 1)
            && (k > 1 ==> t[..k - 1][k - 2] == t[k - 2] == NeededAt(long, n, k - 2))
  {
  }

  /** One band more in a section of fewer than two full length fields. */
  lemma SectionGrows(long: bool, u: seq<nat>, cb: nat)
    requires LastRun(u) + 1 < 2 * RunEsc(long)
    ensures HeaderStep(long, u, cb) ==
            if u == [] || cb != u[|u| - 1] then Field(long) else if LastRun(u) + 1 == RunEsc(long) then RunBits(long) else 0
  {
    hide LastRun;
  }

  lemma NeededData(long: bool, n: nat, k: nat)
    requires RunEsc(long) <= n && k < n
    ensures BandAt(long, n, k).Data(NeededAt(long, n, k)) == 0
  {
    hide One, Ten, Eleven;
    DataIs(0, NeededAt(long, n, k));
    DataIs(Field(long) - 1, NeededAt(long, n, k));
  }

  /** With any more bands the trellis may miss: here it ends with one section in codebook 11 where the bands that need only codebook
      10 are better off in one of their own. */
  lemma Missed(long: bool, n: nat)
    requires RunEsc(long) <= n <= if long then 63 else 15
    ensures IsInput(Adverse(long, n), long) && Good(Adverse(long, n), long, n, BestBook(Adverse(long, n), long))
    ensures var chosen := Trace(Adverse(long, n), long, n, BestBook(Adverse(long, n), long));
            && Respects(Adverse(long, n), Needed(long, n))
            && Bits(Adverse(long, n), long, chosen) >= Bits(Adverse(long, n), long, Needed(long, n)) + RunBits(long) - 1
  {
    hide View, Column, IsInput, Trace, Good, Bits, LongRuns, ZeroFields, LastRun, Adverse, Needed, BandAt;
    var bands := Adverse(long, n);
    AdverseIs(long, n);
    AdverseColumn(long, n, n);
    AdverseCost(long, n);
    CheapIsGood(bands, long, n, BestBook(bands, long));
    ChosenBits(bands, long);
    NoneNegative(bands, long, Trace(bands, long, n, BestBook(bands, long)));
    NeededTake(long, n, n);
    assert Needed(long, n)[..n] == Needed(long, n);
  }

  lemma NoneNegative(bands: seq<Band>, long: bool, t: seq<nat>)
    requires |t| <= |bands| <= if long then 63 else 15
    ensures RunBits(long) * LongRuns(long, t) + ZeroFields(bands, long, t) >= 0
  {
    LongRunsBound(long, t);
    hide LongRuns, ZeroFields;
  }

  lemma AdverseCost(long: bool, n: nat)
    requires RunEsc(long) <= n <= if long then 63 else 15
    requires IsInput(Adverse(long, n), long) && View(Column(Adverse(long, n), long, n), long, n, n)
    ensures var bands := Adverse(long, n);
            && At(bands, long, n, BestBook(bands, long)).cost == Cost(bands, long) < SENTINEL
            && Cost(bands, long) == Lead(long, n - RunEsc(long)) + 2 * Field(long) - 1 + RunBits(long)
  {
    hide Column, IsInput, Adverse;
  }

  /** Codebooks that carry the bands, beside those the trellis chooses. */
  ghost predicate Contest(bands: seq<Band>, long: bool, t: seq<nat>, n: nat) {
    && |bands| == |t| == n && IsInput(bands, long) && Respects(bands, t)
    && Good(bands, long, n, BestBook(bands, long))
  }

  ghost predicate NoFewer(bands: seq<Band>, long: bool, t: seq<nat>, n: nat)
    requires Contest(bands, long, t, n)
  {
    Bits(bands, long, Trace(bands, long, n, BestBook(bands, long))) <= Bits(bands, long, t)
  }

  /** No codebooks for a group of n bands ever take fewer bits than those the trellis chooses, exactly when a length field counts more
      bands than that. */
  lemma CheapestIff(long: bool, n: nat)
    requires 0 < n <= if long then 63 else 15
    ensures (forall bands, t | Contest(bands, long, t, n) :: NoFewer(bands, long, t, n)) <==> n < RunEsc(long)
  {
    hide IsInput, Respects, Good, Trace, BestBook, Bits;
    if n < RunEsc(long) {
      forall bands, t | Contest(bands, long, t, n)
        ensures NoFewer(bands, long, t, n)
      {
        CheapestOfAll(bands, long, t);
      }
    } else {
      Missed(long, n);
      var bands, t := Adverse(long, n), Needed(long, n);
      assert Contest(bands, long, t, n);
      assert !NoFewer(bands, long, t, n);
    }
  }
}
