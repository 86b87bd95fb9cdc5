/** The C64 encoder's character set: pictures in four or five greys, drawn with two bits a dot and one colour bit a character. */
module CharsetRenderer {

  /** The luma of each grey, darkest first: distinct, from black up. */
  ghost predicate Palette(luma: seq<int>) {
    && (|luma| == 4 || |luma| == 5) && luma[0] == 0 && luma[|luma| - 1] <= 255
    && forall i, j | 0 <= i < j < |luma| :: luma[i] < luma[j]
  }

  ghost predicate Pixels(p: seq<int>) {
    forall i | 0 <= i < |p| :: 0 <= p[i] <= 255
  }

  // ----- what the lookup tables hold

  /** The brightest grey of the first n that is no brighter than v. */
  function Level(luma: seq<int>, n: nat, v: int): (r: nat)
    requires 0 < n <= |luma|
    ensures r < n && (luma[0] <= v ==> luma[r] <= v) && (r + 1 < n ==> v < luma[r + 1])
  {
    if n == 1 || luma[n - 1] <= v then n - 1 else Level(luma, n - 1, v)
  }

  /** The grey below and the grey above a pixel. */
  function Below(luma: seq<int>, v: int): nat
    requires luma != []
  {
    Level(luma, |luma|, v)
  }

  function Above(luma: seq<int>, v: int): nat
    requires luma != []
  {
    if Below(luma, v) + 1 < |luma| then Below(luma, v) + 1 else |luma| - 1
  }

  /** How far, in sevenths, a pixel is from the grey below to the grey above. */
  ghost function Shade(luma: seq<int>, v: int): int
    requires Palette(luma)
  {
    var i := Below(luma, v);
    if i + 1 < |luma| then Sevenths(v - luma[i], luma[i + 1] - luma[i]) else 0
  }

  function Sevenths(x: int, dist: int): int
    requires dist > 0
  {
    x * 7 / dist
  }

  /** The level is the only one that fits. */
  lemma {:induction false} LevelIs(luma: seq<int>, n: nat, v: int, i: nat)
    requires Palette(luma) && i < n <= |luma| && luma[i] <= v && (i + 1 < n ==> v < luma[i + 1])
    ensures Level(luma, n, v) == i
  {
    if i < n - 1 {
      LevelIs(luma, n - 1, v, i);
    }
  }

  lemma SeventhsRange(x: int, dist: int)
    requires 0 <= x < dist
    ensures 0 <= Sevenths(x, dist) < 7 && (x == 0 ==> Sevenths(x, dist) == 0)
    ensures Sevenths(x, dist) * dist <= x * 7 < Sevenths(x, dist) * dist + dist
  {
    var q := x * 7 / dist;
    assert q * dist <= x * 7 < q * dist + dist;
    Monotone(q + 1, 0, dist);
    Monotone(7, q, dist);
    Monotone(1, q, dist);
  }

  lemma Monotone(a: int, b: int, c: int)
    requires c > 0
    ensures a <= b ==> a * c <= b * c
  {
  }

  lemma ShadeRange(luma: seq<int>, v: int)
    requires Palette(luma) && 0 <= v <= 255
    ensures 0 <= Shade(luma, v) < 7
    ensures var i := Below(luma, v);
            i + 1 < |luma| ==>
              var dist := luma[i + 1] - luma[i];
              Shade(luma, v) * dist <= (v - luma[i]) * 7 < Shade(luma, v) * dist + dist
  {
    var i := Below(luma, v);
    if i + 1 < |luma| {
      SeventhsRange(v - luma[i], luma[i + 1] - luma[i]);
    }
  }

  /** A pixel at a grey has no shade, so only that grey is shown for it. */
  lemma GreyHasNoShade(luma: seq<int>, i: nat)
    requires Palette(luma) && i < |luma|
    ensures Below(luma, luma[i]) == i && Shade(luma, luma[i]) == 0
  {
    LevelIs(luma, |luma|, luma[i], i);
    hide Level, Sevenths;
    if i + 1 < |luma| {
      SeventhsRange(0, luma[i + 1] - luma[i]);
    }
  }

  // ----- dots and their codes

  const A: seq<bool> := [true, false, true, false]
  const B: seq<bool> := [false, true, false, true]
  const F: seq<bool> := [true, true, true, true]
  const N: seq<bool> := [false, false, false, false]

  /** Row r of the interlaced dither pattern for a shade: where the grey above is shown. Even rows are of the first field. */
  function PatternRow(shade: int, r: nat): (row: seq<bool>)
    requires r < 8
    ensures |row| == 4
  {
    match shade
    case 1 => [A, N, N, N, A, N, N, N][r]
    case 2 => [A, N, N, B, A, N, N, B][r]
    case 3 => [A, B, B, N, A, B, B, N][r]
    case 4 => [A, B, B, A, A, B, B, A][r]
    case 5 => [A, B, F, A, A, B, F, A][r]
    case 6 => [A, F, F, B, A, F, F, B][r]
    case 7 => [F, F, F, B, F, F, F, B][r]
    case 8 => F
    case _ => N
  }

  /** The grey shown for a pixel at a row and column of the pattern. */
  ghost function Dot(luma: seq<int>, v: int, r: nat, x: nat): (c: nat)
    requires Palette(luma) && r < 8 && x < 4
  {
    if PatternRow(Shade(luma, v), r)[x] then Above(luma, v) else Below(luma, v)
  }

  /** The two bits that stand for a grey. */
  function Code(colour: nat): (r: nat)
    ensures r <= 3
  {
    3 - colour % 4
  }

  /** The grey two bits show, given the character's colour bit. */
  function Shown(bright: bool, code: nat): int {
    if code == 3 then if bright then 4 else 0 else 3 - code
  }

  /** The byte of four dots in row r; the leftmost dot is in the high bits. */
  ghost function RowByte(luma: seq<int>, p: seq<int>, r: nat): (b: nat)
    requires Palette(luma) && |p| <= 4 && r < 8
    ensures b < (if |p| == 0 then 1 else if |p| == 1 then 4 else if |p| == 2 then 16 else if |p| == 3 then 64 else 256)
    decreases |p|
  {
    if p == [] then 0 else RowByte(luma, p[..|p| - 1], r) * 4 + Code(Dot(luma, p[|p| - 1], r, |p| - 1))
  }

  function CodeAt(b: nat, x: nat): nat
    requires x < 4
  {
    match x
    case 0 => b / 64 % 4
    case 1 => b / 16 % 4
    case 2 => b / 4 % 4
    case _ => b % 4
  }

  lemma RowByteCodes(luma: seq<int>, p: seq<int>, r: nat, x: nat)
    requires Palette(luma) && |p| == 4 && r < 8 && x < 4
    ensures CodeAt(RowByte(luma, p, r), x) == Code(Dot(luma, p[x], r, x))
  {
    hide Dot, Palette, Code, CodeAt;
    var p3, p2, p1 := p[..3], p[..2], p[..1];
    assert p3[..2] == p2 && p2[..1] == p1 && p1[..0] == [];
    var c0, c1 := Code(Dot(luma, p[0], r, 0)), Code(Dot(luma, p[1], r, 1));
    var c2, c3 := Code(Dot(luma, p[2], r, 2)), Code(Dot(luma, p[3], r, 3));
    assert RowByte(luma, p1, r) == c0;
    assert RowByte(luma, p2, r) == c0 * 4 + c1;
    assert RowByte(luma, p3, r) == (c0 * 4 + c1) * 4 + c2;
    assert RowByte(luma, p, r) == ((c0 * 4 + c1) * 4 + c2) * 4 + c3;
    CodesInByte([c0, c1, c2, c3], x);
  }

  lemma CodesInByte(c: seq<nat>, x: nat)
    requires |c| == 4 && x < 4 && forall i | 0 <= i < 4 :: c[i] < 4
    ensures CodeAt(((c[0] * 4 + c[1]) * 4 + c[2]) * 4 + c[3], x) == c[x]
  {
    var b := ((c[0] * 4 + c[1]) * 4 + c[2]) * 4 + c[3];
    assert b / 4 == (c[0] * 4 + c[1]) * 4 + c[2] && b / 16 == c[0] * 4 + c[1] && b / 64 == c[0];
  }

  // ----- the error at either end, and the adjustment

  /** How much the pixels lack of grey 1, and how much they exceed grey 3. */
  ghost function Low(luma: seq<int>, p: seq<int>): nat
    requires Palette(luma)
  {
    if p == [] then 0
    else var v := p[|p| - 1]; Low(luma, p[..|p| - 1]) + if v < luma[1] then luma[1] - v else 0
  }

  ghost function High(luma: seq<int>, p: seq<int>): nat
    requires Palette(luma)
  {
    if p == [] then 0
    else var v := p[|p| - 1]; High(luma, p[..|p| - 1]) + if v > luma[3] then v - luma[3] else 0
  }

  ghost predicate NeedsAdjusting(luma: seq<int>, p: seq<int>)
    requires Palette(luma)
  {
    High(luma, p) > 0 && Low(luma, p) > 0 && |luma| == 5
  }

  function AtMost(p: seq<int>, top: int): (q: seq<int>)
    ensures |q| == |p|
  {
    seq(|p|, i requires 0 <= i < |p| => if top < p[i] then top else p[i])
  }

  function AtLeast(p: seq<int>, bottom: int): (q: seq<int>)
    ensures |q| == |p|
  {
    seq(|p|, i requires 0 <= i < |p| => if bottom > p[i] then bottom else p[i])
  }

  /** A character after rendering: when it has pixels off both ends, those off the end with the smaller error are clamped. */
  ghost function Adjusted(luma: seq<int>, p: seq<int>): (q: seq<int>)
    requires Palette(luma)
    ensures |q| == |p|
  {
    if !NeedsAdjusting(luma, p) then p
    else if Low(luma, p) > High(luma, p) then AtMost(p, luma[3])
    else AtLeast(p, luma[1])
  }

  lemma {:induction false} LowIs(luma: seq<int>, p: seq<int>)
    requires Palette(luma)
    ensures Low(luma, p) > 0 <==> exists i :: 0 <= i < |p| && p[i] < luma[1]
  {
    if p != [] {
      LowIs(luma, p[..|p| - 1]);
      if i :| 0 <= i < |p| - 1 && p[i] < luma[1] {
        assert p[..|p| - 1][i] < luma[1];
      }
    }
  }

  lemma {:induction false} HighIs(luma: seq<int>, p: seq<int>)
    requires Palette(luma)
    ensures High(luma, p) > 0 <==> exists i :: 0 <= i < |p| && p[i] > luma[3]
  {
    if p != [] {
      HighIs(luma, p[..|p| - 1]);
      if i :| 0 <= i < |p| - 1 && p[i] > luma[3] {
        assert p[..|p| - 1][i] > luma[3];
      }
    }
  }

  /** A character drawn without black, or without white, can be shown. */
  ghost predicate Showable(luma: seq<int>, p: seq<int>)
    requires Palette(luma)
  {
    || (forall i | 0 <= i < |p| :: p[i] >= luma[1])
    || (forall i | 0 <= i < |p| :: p[i] <= luma[3])
  }

  /** In five colours a character needs adjusting exactly when it cannot be shown. */
  lemma NeedsAdjustingIs(luma: seq<int>, p: seq<int>)
    requires Palette(luma) && |luma| == 5
    ensures NeedsAdjusting(luma, p) <==> !Showable(luma, p)
  {
    LowIs(luma, p);
    HighIs(luma, p);
  }

  /** One adjustment is enough: the character loop goes back for a character at most once. */
  lemma AdjustedOnce(luma: seq<int>, p: seq<int>)
    requires Palette(luma)
    ensures !NeedsAdjusting(luma, Adjusted(luma, p))
    ensures Adjusted(luma, Adjusted(luma, p)) == Adjusted(luma, p)
    ensures |luma| == 5 ==> Showable(luma, Adjusted(luma, p))
  {
    if |luma| == 5 {
      NeedsAdjustingIs(luma, p);
      NeedsAdjustingIs(luma, Adjusted(luma, p));
    }
  }

  function Distance(p: seq<int>, q: seq<int>): nat
    requires |p| == |q|
  {
    if p == [] then 0
    else var n := |p| - 1; Distance(p[..n], q[..n]) + if p[n] < q[n] then q[n] - p[n] else p[n] - q[n]
  }

  lemma {:induction false} ClampDistance(luma: seq<int>, p: seq<int>)
    requires Palette(luma)
    ensures Distance(p, AtMost(p, luma[3])) == High(luma, p)
    ensures Distance(p, AtLeast(p, luma[1])) == Low(luma, p)
    ensures Distance(p, p) == 0
  {
    if p != [] {
      var n := |p| - 1;
      ClampDistance(luma, p[..n]);
      assert AtMost(p, luma[3])[..n] == AtMost(p[..n], luma[3]);
      assert AtLeast(p, luma[1])[..n] == AtLeast(p[..n], luma[1]);
    }
  }

  lemma {:induction false} DistanceAtLeast(luma: seq<int>, p: seq<int>, q: seq<int>)
    requires Palette(luma) && |p| == |q|
    ensures (forall i | 0 <= i < |q| :: q[i] >= luma[1]) ==> Low(luma, p) <= Distance(p, q)
    ensures (forall i | 0 <= i < |q| :: q[i] <= luma[3]) ==> High(luma, p) <= Distance(p, q)
  {
    if p != [] {
      DistanceAtLeast(luma, p[..|p| - 1], q[..|p| - 1]);
    }
  }

  /** The adjusted character is as near to the original as any that can be shown. */
  lemma AdjustedNearest(luma: seq<int>, p: seq<int>, q: seq<int>)
    requires Palette(luma) && |luma| == 5 && |p| == |q| && Showable(luma, q)
    ensures Distance(p, Adjusted(luma, p)) <= Distance(p, q)
  {
    ClampDistance(luma, p);
    DistanceAtLeast(luma, p, q);
  }

  /** The colour bit says whether a pixel is brighter than grey 3, and with it the two bits of every dot of a finished
      character say which grey was chosen. */
  lemma CharacterDecodes(luma: seq<int>, p: seq<int>, i: nat, r: nat, x: nat)
    requires Palette(luma) && Pixels(p) && !NeedsAdjusting(luma, p) && i < |p| && r < 8 && x < 4
    ensures Shown(|luma| == 5 && High(luma, p) > 0, Code(Dot(luma, p[i], r, x))) == Dot(luma, p[i], r, x)
  {
    hide Dot, Shade, Level;
    DotRange(luma, p[i], r, x);
    if |luma| == 5 {
      BrightIs(luma, p, i);
    }
  }

  lemma BrightIs(luma: seq<int>, p: seq<int>, i: nat)
    requires Palette(luma) && !NeedsAdjusting(luma, p) && |luma| == 5 && i < |p|
    ensures if High(luma, p) > 0 then p[i] >= luma[1] else p[i] <= luma[3]
  {
    LowIs(luma, p);
    HighIs(luma, p);
  }

  lemma DotRange(luma: seq<int>, v: int, r: nat, x: nat)
    requires Palette(luma) && 0 <= v <= 255 && r < 8 && x < 4
    ensures Dot(luma, v, r, x) < |luma|
    ensures v >= luma[1] ==> Dot(luma, v, r, x) >= 1
    ensures v <= luma[3] ==> Dot(luma, v, r, x) <= 3
  {
    if v == luma[3] {
      GreyHasNoShade(luma, 3);
    }
  }

  // ----- the tone of a flat area

  function Bright(row: seq<bool>): nat
    requires |row| == 4
  {
    (if row[0] then 1 else 0) + (if row[1] then 1 else 0) + (if row[2] then 1 else 0) + (if row[3] then 1 else 0)
  }

  function BrightRow(shade: int, r: nat): nat
    requires r < 8
  {
    Bright(PatternRow(shade, r))
  }

  function BrightDots(shade: int, rows: nat): nat
    requires rows <= 8
  {
    if rows == 0 then 0 else BrightDots(shade, rows - 1) + BrightRow(shade, rows - 1)
  }

  /** A pattern shows the grey above in four of its thirty-two dots for every step of shade. */
  lemma PatternWeight(shade: nat)
    requires shade <= 8
    ensures BrightDots(shade, 8) == 4 * shade
  {
    hide BrightRow;
    RowWeights(shade);
    FirstDots(shade);
    assert BrightDots(shade, 6) == 2 * shade + BrightRow(shade, 4) + BrightRow(shade, 5);
  }

  lemma FirstDots(shade: nat)
    requires shade <= 8
    ensures BrightDots(shade, 4) == 2 * shade
  {
    hide BrightRow;
    RowWeights(shade);
    assert BrightDots(shade, 2) == BrightRow(shade, 0) + BrightRow(shade, 1);
  }

  lemma RowWeights(shade: nat)
    requires shade <= 8
    ensures BrightRow(shade, 0) + BrightRow(shade, 1) + BrightRow(shade, 2) + BrightRow(shade, 3) == 2 * shade
    ensures BrightRow(shade, 4) == BrightRow(shade, 0) && BrightRow(shade, 5) == BrightRow(shade, 1)
    ensures BrightRow(shade, 6) == BrightRow(shade, 2) && BrightRow(shade, 7) == BrightRow(shade, 3)
  {
    match shade
    case 0 =>
    case 1 =>
    case 2 =>
    case 3 =>
    case 4 =>
    case 5 =>
    case 6 =>
    case 7 =>
    case 8 =>
  }

  /** The luma shown over the first rows of a pattern, for a flat area of one pixel value. */
  ghost function Tone(luma: seq<int>, v: int, rows: nat): int
    requires Palette(luma) && rows <= 8
  {
    if rows == 0 then 0
    else var r := rows - 1;
         Tone(luma, v, r) + luma[Dot(luma, v, r, 0)] + luma[Dot(luma, v, r, 1)]
         + luma[Dot(luma, v, r, 2)] + luma[Dot(luma, v, r, 3)]
  }

  lemma {:induction false} ToneIs(luma: seq<int>, v: int, rows: nat)
    requires Palette(luma) && 0 <= v <= 255 && rows <= 8
    ensures var l, h := luma[Below(luma, v)], luma[Above(luma, v)];
            Tone(luma, v, rows) == Times(4 * rows, l) + Times(BrightDots(Shade(luma, v), rows), h - l)
    decreases rows
  {
    hide PatternRow, Shade, Level, Dot, Times, Bright;
    var l, h := luma[Below(luma, v)], luma[Above(luma, v)];
    if rows == 0 {
      TimesAdd(0, 0, l);
      TimesAdd(0, 0, h - l);
    } else {
      var r := rows - 1;
      ToneIs(luma, v, r);
      RowTone(luma, v, r);
      TimesAdd(4 * r, 4, l);
      TimesAdd(BrightDots(Shade(luma, v), r), Bright(PatternRow(Shade(luma, v), r)), h - l);
    }
  }

  lemma RowTone(luma: seq<int>, v: int, r: nat)
    requires Palette(luma) && 0 <= v <= 255 && r < 8
    ensures var l, h := luma[Below(luma, v)], luma[Above(luma, v)];
            luma[Dot(luma, v, r, 0)] + luma[Dot(luma, v, r, 1)] + luma[Dot(luma, v, r, 2)] + luma[Dot(luma, v, r, 3)]
            == Times(4, l) + Times(Bright(PatternRow(Shade(luma, v), r)), h - l)
  {
    hide PatternRow, Shade, Level;
    var l, h, row := luma[Below(luma, v)], luma[Above(luma, v)], PatternRow(Shade(luma, v), r);
    var n := Bright(row);
    assert n == 0 || n == 1 || n == 2 || n == 3 || n == 4;
  }

  function Times(a: int, b: int): int {
    a * b
  }

  lemma TimesAdd(a: int, b: int, c: int)
    ensures Times(a + b, c) == Times(a, c) + Times(b, c)
  {
  }

  /** Over its thirty-two dots a flat area is never shown brighter than it is, nor darker by a quarter of a palette step. */
  lemma ToneBound(luma: seq<int>, v: int)
    requires Palette(luma) && 0 <= v <= 255
    ensures Tone(luma, v, 8) <= 32 * v
    ensures Below(luma, v) + 1 < |luma| ==>
              32 * v - Tone(luma, v, 8) < 8 * (luma[Above(luma, v)] - luma[Below(luma, v)])
  {
    hide Shade, Sevenths, Level, Tone, BrightDots, Times, PatternRow;
    ToneIs(luma, v, 8);
    ShadeRange(luma, v);
    PatternWeight(Shade(luma, v));
    ToneArithmetic(luma[Below(luma, v)], luma[Above(luma, v)], v, Shade(luma, v));
  }

  lemma ToneArithmetic(l: int, h: int, v: int, s: nat)
    requires l <= v && (l == h || s * (h - l) <= (v - l) * 7 < s * (h - l) + (h - l)) && (l < h ==> v < h)
    ensures Times(32, l) + Times(4 * s, h - l) <= 32 * v
    ensures l < h ==> 32 * v - (Times(32, l) + Times(4 * s, h - l)) < 8 * (h - l)
  {
    var step := s * (h - l);
    assert (4 * s) * (h - l) == 4 * step;
  }

  // ----- the lookup tables, filled in place

  method BuildTables(luma: seq<int>, index1: array<int>, index2: array<int>, dither: array<int>)
    requires Palette(luma) && index1.Length == index2.Length == dither.Length == 256
    requires index1 != index2 && index1 != dither && index2 != dither
    modifies index1, index2, dither
    ensures forall v | 0 <= v <= 255 ::
              index1[v] == Below(luma, v) && index2[v] == Above(luma, v) && dither[v] == Shade(luma, v)
  {
    hide Sevenths, Level;
    var i := 0;
    for a := 0 to 256
      invariant i < |luma| && (a > 0 ==> luma[i] < a) && (a == 0 ==> i == 0) && (i + 1 < |luma| ==> a <= luma[i + 1])
      invariant forall v | 0 <= v < a :: index1[v] == Below(luma, v) && index2[v] == Above(luma, v)
      invariant forall v | 0 <= v < a && (v < luma[i] || i + 1 == |luma|) :: dither[v] == Shade(luma, v)
    {
      if i < |luma| - 1 && a == luma[i + 1] {
        FillDither(luma, i, dither);
        i := i + 1;
      }
      if i >= |luma| - 1 {
        dither[a] := 0;
      }
      index1[a] := i;
      index2[a] := if i + 1 < |luma| - 1 then i + 1 else |luma| - 1;
      LevelIs(luma, |luma|, a, i);
    }
  }

  /** The dither steps from one grey to the next, that one included. */
  method FillDither(luma: seq<int>, i: nat, dither: array<int>)
    requires Palette(luma) && i + 1 < |luma| && dither.Length == 256
    modifies dither
    ensures forall v | luma[i] <= v < luma[i + 1] :: dither[v] == Shade(luma, v)
    ensures forall v | 0 <= v < 256 && !(luma[i] <= v <= luma[i + 1]) :: dither[v] == old(dither[v])
  {
    var distance := luma[i + 1] - luma[i];
    for b := 0 to distance + 1
      invariant forall v | luma[i] <= v < luma[i] + b :: dither[v] == Sevenths(v - luma[i], distance)
      invariant forall v | 0 <= v < 256 && !(luma[i] <= v < luma[i] + b) :: dither[v] == old(dither[v])
    {
      dither[luma[i] + b] := b * 7 / distance;
    }
    forall v | luma[i] <= v < luma[i + 1]
      ensures dither[v] == Shade(luma, v)
    {
      LevelIs(luma, |luma|, v, i);
    }
  }

  // ----- the characters, drawn from the code book in place

  ghost predicate Tables(luma: seq<int>, index1: seq<int>, index2: seq<int>, dither: seq<int>) {
    && Palette(luma) && |index1| == |index2| == |dither| == 256
    && forall v | 0 <= v <= 255 :: index1[v] == Below(luma, v) && index2[v] == Above(luma, v) && dither[v] == Shade(luma, v)
  }

  /** Both fields of the eight rows at one place in the character set show the pixels p. */
  ghost predicate Drawn(luma: seq<int>, p: seq<int>, charset: seq<int>, at: nat)
    requires Palette(luma) && |p| == 32 && |charset| == 0x1000 && at + 8 <= 0x800
  {
    forall y | 0 <= y < 8 :: RowDrawn(luma, p, charset, at, y)
  }

  ghost predicate RowDrawn(luma: seq<int>, p: seq<int>, charset: seq<int>, at: nat, y: nat)
    requires Palette(luma) && |p| == 32 && |charset| == 0x1000 && at + 8 <= 0x800 && y < 8
  {
    && charset[at + y] == RowByte(luma, p[4 * y..4 * y + 4], y % 4 * 2)
    && charset[0x800 + at + y] == RowByte(luma, p[4 * y..4 * y + 4], y % 4 * 2 + 1)
  }

  /** Adding one dot to a row of either field. */
  function Shifted(row: nat, pattern: bool, below: int, above: int): int {
    row * 4 % 256 + 3 - (if pattern then above % 4 else below % 4)
  }

  lemma RowStep(luma: seq<int>, p: seq<int>, x: nat, r: nat)
    requires Palette(luma) && |p| == 4 && x < 4 && r < 8
    ensures RowByte(luma, p[..x + 1], r)
         == Shifted(RowByte(luma, p[..x], r), PatternRow(Shade(luma, p[x]), r)[x], Below(luma, p[x]), Above(luma, p[x]))
  {
    hide Shade, Level, PatternRow;
    assert p[..x + 1][..x] == p[..x];
  }

  lemma ErrorStep(luma: seq<int>, p: seq<int>, n: nat)
    requires Palette(luma) && n < |p| && 0 <= p[n]
    ensures Low(luma, p[..n + 1]) == Low(luma, p[..n]) + (if Below(luma, p[n]) < 1 then luma[1] - p[n] else 0)
    ensures High(luma, p[..n + 1]) == High(luma, p[..n]) + (if Below(luma, p[n]) >= 3 then p[n] - luma[3] else 0)
    ensures Below(luma, p[n]) < 1 ==> p[n] < luma[1]
    ensures Below(luma, p[n]) >= 3 ==> p[n] >= luma[3]
  {
    assert p[..n + 1][..n] == p[..n];
    hide Level;
    var i := Below(luma, p[n]);
    assert i >= 3 ==> luma[3] <= luma[i];
    assert 0 < i ==> luma[1] <= luma[i];
  }

  /** One row of one character, in both fields; p is the character's pixels. */
  method RenderRow(luma: seq<int>, index1: array<int>, index2: array<int>, dither: array<int>,
                   bestCb: array<int>, at: nat, y: nat, low: nat, high: nat, ghost p: seq<int>)
    returns (row1: nat, row2: nat, lowdiff: nat, highdiff: nat)
    requires Tables(luma, index1[..], index2[..], dither[..]) && y < 8
    requires at + 32 <= bestCb.Length && p == bestCb[at..at + 32] && Pixels(p)
    requires low == Low(luma, p[..4 * y]) && high == High(luma, p[..4 * y])
    ensures row1 == RowByte(luma, p[4 * y..4 * y + 4], y % 4 * 2)
    ensures row2 == RowByte(luma, p[4 * y..4 * y + 4], y % 4 * 2 + 1)
    ensures lowdiff == Low(luma, p[..4 * y + 4]) && highdiff == High(luma, p[..4 * y + 4])
  {
    hide Shade, Level, PatternRow, RowByte, Low, High, Shifted;
    ghost var line := p[4 * y..4 * y + 4];
    row1, row2, lowdiff, highdiff := 0, 0, low, high;
    NoDots(luma, y % 4 * 2);
    NoDots(luma, y % 4 * 2 + 1);
    for x := 0 to 4
      invariant lowdiff == Low(luma, p[..4 * y + x]) && highdiff == High(luma, p[..4 * y + x])
      invariant row1 == RowByte(luma, line[..x], y % 4 * 2) && row2 == RowByte(luma, line[..x], y % 4 * 2 + 1)
    {
      var pix := bestCb[at + 4 * y + x];
      assert pix == p[4 * y + x] == line[x];
      assert index1[..][pix] == Below(luma, pix) && index2[..][pix] == Above(luma, pix) && dither[..][pix] == Shade(luma, pix);
      ErrorStep(luma, p, 4 * y + x);
      RowStep(luma, line, x, y % 4 * 2);
      RowStep(luma, line, x, y % 4 * 2 + 1);
      if index1[pix] >= 3 {
        highdiff := highdiff + (pix - luma[3]);
      }
      if index1[pix] < 1 {
        lowdiff := lowdiff + (luma[1] - pix);
      }
      row1 := Shifted(row1, PatternRow(dither[pix], y % 4 * 2)[x], index1[pix], index2[pix]);
      row2 := Shifted(row2, PatternRow(dither[pix], y % 4 * 2 + 1)[x], index1[pix], index2[pix]);
    }
    assert line[..4] == line;
  }

  lemma NoDots(luma: seq<int>, r: nat)
    requires Palette(luma) && r < 8
    ensures RowByte(luma, [], r) == 0 && Low(luma, []) == 0 && High(luma, []) == 0
  {
  }

  method RenderCharacter(luma: seq<int>, index1: array<int>, index2: array<int>, dither: array<int>,
                         bestCb: array<int>, at: nat, charset: array<int>, to: nat, ghost p: seq<int>)
    returns (lowdiff: nat, highdiff: nat)
    requires Tables(luma, index1[..], index2[..], dither[..])
    requires charset.Length == 0x1000 && to + 8 <= 0x800
    requires charset != index1 && charset != index2 && charset != dither && charset != bestCb
    requires at + 32 <= bestCb.Length && p == bestCb[at..at + 32] && Pixels(p)
    modifies charset
    ensures lowdiff == Low(luma, p) && highdiff == High(luma, p)
    ensures Drawn(luma, p, charset[..], to)
    ensures forall j | 0 <= j < 0x1000 && !(to <= j < to + 8) && !(0x800 + to <= j < 0x800 + to + 8) ::
              charset[j] == old(charset[j])
  {
    hide Shade, Level, RowByte, Low, High;
    NoDots(luma, 0);
    lowdiff, highdiff := 0, 0;
    for y := 0 to 8
      invariant lowdiff == Low(luma, p[..4 * y]) && highdiff == High(luma, p[..4 * y])
      invariant forall z | 0 <= z < y :: RowDrawn(luma, p, charset[..], to, z)
      invariant forall j | 0 <= j < 0x1000 && !(to <= j < to + 8) && !(0x800 + to <= j < 0x800 + to + 8) ::
                  charset[j] == old(charset[j])
    {
      var row1, row2;
      row1, row2, lowdiff, highdiff := RenderRow(luma, index1, index2, dither, bestCb, at, y, lowdiff, highdiff, p);
      ghost var before := charset[..];
      charset[to + y] := row1;
      charset[0x800 + to + y] := row2;
      forall z | 0 <= z < y
        ensures RowDrawn(luma, p, charset[..], to, z)
      {
        assert RowDrawn(luma, p, before, to, z);
      }
    }
    assert p[..32] == p;
  }

  method ClampTop(bestCb: array<int>, at: nat, top: int)
    requires at + 32 <= bestCb.Length
    modifies bestCb
    ensures bestCb[at..at + 32] == AtMost(old(bestCb[at..at + 32]), top)
    ensures forall i | 0 <= i < bestCb.Length && !(at <= i < at + 32) :: bestCb[i] == old(bestCb[i])
  {
    for x := 0 to 32
      invariant forall i | at <= i < at + x :: bestCb[i] == if top < old(bestCb[i]) then top else old(bestCb[i])
      invariant forall i | 0 <= i < bestCb.Length && !(at <= i < at + x) :: bestCb[i] == old(bestCb[i])
    {
      bestCb[at + x] := if top < bestCb[at + x] then top else bestCb[at + x];
    }
  }

  method ClampBottom(bestCb: array<int>, at: nat, bottom: int)
    requires at + 32 <= bestCb.Length
    modifies bestCb
    ensures bestCb[at..at + 32] == AtLeast(old(bestCb[at..at + 32]), bottom)
    ensures forall i | 0 <= i < bestCb.Length && !(at <= i < at + 32) :: bestCb[i] == old(bestCb[i])
  {
    for x := 0 to 32
      invariant forall i | at <= i < at + x :: bestCb[i] == if bottom > old(bestCb[i]) then bottom else old(bestCb[i])
      invariant forall i | 0 <= i < bestCb.Length && !(at <= i < at + x) :: bestCb[i] == old(bestCb[i])
    {
      bestCb[at + x] := if bottom > bestCb[at + x] then bottom else bestCb[at + x];
    }
  }

  /** The pixels of one character of the code book. */
  ghost function Char(book: seq<int>, k: nat): (p: seq<int>)
    requires |book| == 0x2000 && k < 256
    ensures |p| == 32
  {
    book[32 * k..32 * k + 32]
  }

  /** Character k is adjusted where it had to be, drawn as it then is, and its colour bit set exactly for white. */
  ghost predicate Finished(luma: seq<int>, was: seq<int>, book: seq<int>, charset: seq<int>, colram: seq<int>, k: nat)
    requires Palette(luma) && |was| == |book| == 0x2000 && |charset| == 0x1000 && |colram| == 256 && k < 256
  {
    var p := Char(book, k);
    && p == Adjusted(luma, Char(was, k))
    && Drawn(luma, p, charset, 8 * k)
    && colram[k] == if High(luma, p) > 0 then 1 else 0
  }

  /** Draws the 256 characters of the code book, going back one when a character had to be adjusted. */
  method RenderCharset(luma: seq<int>, bestCb: array<int>, charset: array<int>, colram: array<int>)
    returns (ghost passes: seq<nat>)
    requires Palette(luma) && bestCb.Length == 0x2000 && charset.Length == 0x1000 && colram.Length == 256
    requires bestCb != charset && bestCb != colram && charset != colram
    requires forall k | 0 <= k < 256 :: Pixels(Char(bestCb[..], k))
    modifies bestCb, charset, colram
    ensures forall k | 0 <= k < 256 :: Finished(luma, old(bestCb[..]), bestCb[..], charset[..], colram[..], k)
    ensures |passes| == 256
    ensures forall k | 0 <= k < 256 :: passes[k] == if NeedsAdjusting(luma, Char(old(bestCb[..]), k)) then 2 else 1
  {
    hide Shade, Level, RowByte, Low, High, Drawn, Adjusted, Finished, Palette;
    var index1, index2, dither := new int[256], new int[256], new int[256];
    BuildTables(luma, index1, index2, dither);
    ghost var was := bestCb[..];
    passes := [];
    ghost var pass: nat := 0;
    var charpos, cb, cs := 0, 0, 0;
    while charpos < 256
      invariant charpos <= 256 && cb == 32 * charpos && cs == 8 * charpos && |passes| == charpos && pass <= 1
      invariant fresh(index1) && fresh(index2) && fresh(dither) && Tables(luma, index1[..], index2[..], dither[..])
      invariant forall k | 0 <= k < charpos :: Finished(luma, was, bestCb[..], charset[..], colram[..], k)
      invariant forall k | charpos + pass <= k < 256 :: Char(bestCb[..], k) == Char(was, k)
      invariant pass == 1 ==> charpos < 256 && NeedsAdjusting(luma, Char(was, charpos))
                              && Char(bestCb[..], charpos) == Adjusted(luma, Char(was, charpos))
      invariant forall k | 0 <= k < charpos :: passes[k] == if NeedsAdjusting(luma, Char(was, k)) then 2 else 1
      decreases 256 - charpos, 1 - pass
    {
      ghost var p := Char(bestCb[..], charpos);
      AdjustedOnce(luma, Char(was, charpos));
      AdjustedPixels(luma, Char(was, charpos));
      ghost var done, book, drawn, bits := charpos, bestCb[..], charset[..], colram[..];
      var lowdiff, highdiff := RenderCharacter(luma, index1, index2, dither, bestCb, cb, charset, cs, p);
      AdjustedIs(luma, p);
      if highdiff > 0 && lowdiff > 0 && |luma| == 5 {
        if lowdiff > highdiff {
          ClampTop(bestCb, cb, luma[3]);
        } else {
          ClampBottom(bestCb, cb, luma[1]);
        }
        pass := pass + 1;
        charpos := charpos - 1;
      } else {
        cb := cb + 32;
        cs := cs + 8;
        colram[charpos] := if highdiff > 0 then 1 else 0;
        passes := passes + [pass + 1];
        pass := 0;
        FinishedIs(luma, was, bestCb[..], charset[..], colram[..], done);
      }
      charpos := charpos + 1;
      OthersStay(luma, was, book, bestCb[..], drawn, charset[..], bits, colram[..], done);
    }
  }

  lemma AdjustedIs(luma: seq<int>, p: seq<int>)
    requires Palette(luma)
    ensures Adjusted(luma, p) == if !NeedsAdjusting(luma, p) then p
                                 else if Low(luma, p) > High(luma, p) then AtMost(p, luma[3])
                                 else AtLeast(p, luma[1])
  {
  }

  lemma FinishedIs(luma: seq<int>, was: seq<int>, book: seq<int>, charset: seq<int>, colram: seq<int>, k: nat)
    requires Palette(luma) && |was| == |book| == 0x2000 && |charset| == 0x1000 && |colram| == 256 && k < 256
    requires Char(book, k) == Adjusted(luma, Char(was, k)) && Drawn(luma, Char(book, k), charset, 8 * k)
    requires colram[k] == if High(luma, Char(book, k)) > 0 then 1 else 0
    ensures Finished(luma, was, book, charset, colram, k)
  {
    hide Adjusted, Drawn, High, Char, Palette;
  }

  lemma AdjustedPixels(luma: seq<int>, p: seq<int>)
    requires Palette(luma) && Pixels(p)
    ensures Pixels(Adjusted(luma, p))
  {
  }

  lemma StaysFinished(luma: seq<int>, was: seq<int>, book: seq<int>, book': seq<int>, charset: seq<int>, charset': seq<int>,
                      colram: seq<int>, colram': seq<int>, k: nat)
    requires Palette(luma) && |was| == |book| == |book'| == 0x2000 && |charset| == |charset'| == 0x1000
    requires |colram| == |colram'| == 256 && k < 256 && Finished(luma, was, book, charset, colram, k)
    requires Char(book', k) == Char(book, k) && colram'[k] == colram[k]
    requires forall j | 8 * k <= j < 8 * k + 8 || 0x800 + 8 * k <= j < 0x800 + 8 * k + 8 :: charset'[j] == charset[j]
    ensures Finished(luma, was, book', charset', colram', k)
  {
    hide RowByte, Adjusted, High, Palette, Char;
    forall y | 0 <= y < 8
      ensures RowDrawn(luma, Char(book', k), charset', 8 * k, y)
    {
      assert RowDrawn(luma, Char(book, k), charset, 8 * k, y);
    }
  }

  lemma OtherChars(before: seq<int>, after: seq<int>, at: nat)
    requires |before| == |after| == 0x2000 && at < 256
    requires forall i | 0 <= i < 0x2000 && !(32 * at <= i < 32 * at + 32) :: after[i] == before[i]
    ensures forall k | 0 <= k < 256 && k != at :: Char(after, k) == Char(before, k)
  {
  }

  /** Rendering character n leaves those before it finished, and the pixels of all others. */
  lemma OthersStay(luma: seq<int>, was: seq<int>, book: seq<int>, book': seq<int>, charset: seq<int>, charset': seq<int>,
                   colram: seq<int>, colram': seq<int>, n: nat)
    requires Palette(luma) && |was| == |book| == |book'| == 0x2000 && |charset| == |charset'| == 0x1000
    requires |colram| == |colram'| == 256 && n < 256
    requires forall k | 0 <= k < n :: Finished(luma, was, book, charset, colram, k) && colram'[k] == colram[k]
    requires forall i | 0 <= i < 0x2000 && !(32 * n <= i < 32 * n + 32) :: book'[i] == book[i]
    requires forall j | 0 <= j < 0x1000 && !(8 * n <= j < 8 * n + 8 || 0x800 + 8 * n <= j < 0x800 + 8 * n + 8) ::
               charset'[j] == charset[j]
    ensures forall k | 0 <= k < n :: Finished(luma, was, book', charset', colram', k)
    ensures forall k | 0 <= k < 256 && k != n :: Char(book', k) == Char(book, k)
  {
    hide Finished, Palette, Char;
    OtherChars(book, book', n);
    forall k | 0 <= k < n
      ensures Finished(luma, was, book', charset', colram', k)
    {
      StaysFinished(luma, was, book, book', charset, charset', colram, colram', k);
    }
  }

  /** What the C64 shows: every dot of a finished character, in both fields, is the grey chosen for its adjusted pixel. */
  lemma CharsetDecodes(luma: seq<int>, was: seq<int>, book: seq<int>, charset: seq<int>, colram: seq<int>,
                       k: nat, y: nat, x: nat)
    requires Palette(luma) && |was| == |book| == 0x2000 && |charset| == 0x1000 && |colram| == 256 && k < 256 && y < 8 && x < 4
    requires Pixels(Char(was, k)) && Finished(luma, was, book, charset, colram, k)
    ensures charset[8 * k + y] >= 0 && charset[0x800 + 8 * k + y] >= 0
    ensures var v := Char(book, k)[4 * y + x];
            && Shown(|luma| == 5 && colram[k] == 1, CodeAt(charset[8 * k + y], x)) == Dot(luma, v, y % 4 * 2, x)
            && Shown(|luma| == 5 && colram[k] == 1, CodeAt(charset[0x800 + 8 * k + y], x)) == Dot(luma, v, y % 4 * 2 + 1, x)
  {
    hide RowByte, Adjusted, High, Low, Dot, Char, CodeAt, Shown, Code, NeedsAdjusting;
    var p := Char(book, k);
    AdjustedOnce(luma, Char(was, k));
    AdjustedPixels(luma, Char(was, k));
    assert RowDrawn(luma, p, charset, 8 * k, y);
    var line := p[4 * y..4 * y + 4];
    RowByteCodes(luma, line, y % 4 * 2, x);
    RowByteCodes(luma, line, y % 4 * 2 + 1, x);
    CharacterDecodes(luma, p, 4 * y + x, y % 4 * 2, x);
    CharacterDecodes(luma, p, 4 * y + x, y % 4 * 2 + 1, x);
  }
}
