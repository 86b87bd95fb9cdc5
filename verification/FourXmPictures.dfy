/** What a 4XM P frame means: pictures described block by block, as an encoder would write them, and what the decoder shows. */
module FourXmPictures {
  import opened FourXmBlocks

  // ----- the three streams of a block

  /** What a block is to be: split across or along, moved, moved and changed by an offset, left in place, one colour, or two. */
  datatype Plan =
    | Rows(top: Plan, bottom: Plan)
    | Columns(left: Plan, right: Plan)
    | Move(vector: nat)
    | MoveAdd(vector: nat, offset: nat)
    | InPlace
    | Colour(colour: nat)
    | Colours(one: nat, two: nat)

  predicate CanRow(lw: nat, lh: nat) {
    lh > 0 && lw + lh > 1
  }

  predicate CanColumn(lw: nat, lh: nat) {
    lw > 0 && lw + lh > 1
  }

  ghost predicate Fits(p: Plan, lw: nat, lh: nat) {
    match p
    case Rows(a, b) => CanRow(lw, lh) && Fits(a, lw, lh - 1) && Fits(b, lw, lh - 1)
    case Columns(a, b) => CanColumn(lw, lh) && Fits(a, lw - 1, lh) && Fits(b, lw - 1, lh)
    case Move(vector) => vector < 256
    case MoveAdd(vector, offset) => vector < 256 && offset < WORD
    case InPlace => true
    case Colour(colour) => colour < WORD
    case Colours(one, two) => lw + lh == 1 && one < WORD && two < WORD
  }

  /** The number of the block type. */
  function Number(p: Plan): (n: nat)
    ensures n <= 6
  {
    match p
    case Move(_) => 0
    case Rows(_, _) => 1
    case Columns(_, _) => 2
    case InPlace => 3
    case MoveAdd(_, _) => 4
    case Colour(_) => 5
    case Colours(_, _) => 6
  }

  predicate Exists(n: nat, lw: nat, lh: nat) {
    if n == 1 then CanRow(lw, lh) else if n == 2 then CanColumn(lw, lh) else if n == 6 then lw + lh == 1 else n <= 5
  }

  /** How many of the types before this one a block of this shape may have. */
  function Before(n: nat, lw: nat, lh: nat): nat {
    if n == 0 then 0 else Before(n - 1, lw, lh) + if Exists(n - 1, lw, lh) then 1 else 0
  }

  function Ones(n: nat): (w: seq<bool>)
    ensures |w| == n
  {
    seq(n, _ => true)
  }

  /** The word of a type. Above version 1 the types a shape may have are numbered in ones, ended by a zero but for the last; below,
      the types 0 and 3 have two bits, and the splits share a first two bits when there are two. */
  function TypeBits(version: nat, n: nat, lw: nat, lh: nat): seq<bool> {
    if version > 1 then
      Ones(Before(n, lw, lh)) + if n == (if lw + lh == 1 then 6 else 5) then [] else [false]
    else if n == 0 then [false, true]
    else if n == 3 then [false, false]
    else if n == 1 then if CanColumn(lw, lh) then [true, false, false] else [true, false]
    else if n == 2 then if CanRow(lw, lh) then [true, false, true] else [true, false]
    else if n == 4 then if lw + lh == 1 then [true, false] else [true, true, false]
    else if n == 5 then if lw + lh == 1 then [true, true, false] else [true, true, true]
    else [true, true, true]
  }

  function PlanBits(version: nat, p: Plan, lw: nat, lh: nat): seq<bool>
    requires Fits(p, lw, lh)
  {
    TypeBits(version, Number(p), lw, lh) +
    match p
    case Rows(a, b) => PlanBits(version, a, lw, lh - 1) + PlanBits(version, b, lw, lh - 1)
    case Columns(a, b) => PlanBits(version, a, lw - 1, lh) + PlanBits(version, b, lw - 1, lh)
    case _ => []
  }

  /** Vectors go into the bytes. */
  function PlanBytes(p: Plan): seq<nat> {
    match p
    case Rows(a, b) => PlanBytes(a) + PlanBytes(b)
    case Columns(a, b) => PlanBytes(a) + PlanBytes(b)
    case Move(vector) => [vector]
    case MoveAdd(vector, _) => [vector]
    case _ => []
  }

  /** The block moved lies in the last picture, from its first pixel to its last. */
  predicate InPicture(e: Env, y: nat, x: nat, lw: nat, lh: nat, move: int)
    requires lw <= 3 && lh <= 3
  {
    var first := y * e.stride + x + move;
    0 <= first && first + (Size(lh) - 1) * e.stride + Size(lw) <= e.stride * e.height
  }

  /** Offsets and colours go into the words; the offset of a block moved from outside is not read. */
  function PlanWords(e: Env, p: Plan, y: nat, x: nat, lw: nat, lh: nat): seq<nat>
    requires ValidEnv(e) && IsBlock(lw, lh) && Fits(p, lw, lh)
  {
    match p
    case Rows(a, b) => PlanWords(e, a, y, x, lw, lh - 1) + PlanWords(e, b, y + Size(lh - 1), x, lw, lh - 1)
    case Columns(a, b) => PlanWords(e, a, y, x, lw - 1, lh) + PlanWords(e, b, y, x + Size(lw - 1), lw - 1, lh)
    case MoveAdd(vector, offset) => if InPicture(e, y, x, lw, lh, e.mv[vector]) then [offset] else []
    case Colour(colour) => [colour]
    case Colours(one, two) => [one, two]
    case _ => []
  }

  // ----- what is meant

  /** Pixel p of the last picture and an offset; in all but the narrowest blocks an odd column takes the carry of the one before. */
  function Changed(e: Env, p: int, offset: nat, carries: bool): nat
    requires 0 <= p < |e.last| && (carries ==> p > 0)
  {
    (e.last[p] + offset + if carries && e.last[p - 1] + offset >= WORD then 1 else 0) % WORD
  }

  /** The pixel at row i, column j of a block at (y, x); was is what the picture has there before. */
  ghost function Shown(e: Env, p: Plan, y: nat, x: nat, lw: nat, lh: nat, i: nat, j: nat, was: nat): nat
    requires ValidEnv(e) && IsBlock(lw, lh) && Fits(p, lw, lh) && Inside(i, j, y, x, Size(lw), Size(lh))
    requires y + Size(lh) <= e.height && x + Size(lw) <= e.stride && (lw > 0 ==> x % 2 == 0)
  {
    match p
    case Rows(a, b) =>
      if i < y + Size(lh - 1) then Shown(e, a, y, x, lw, lh - 1, i, j, was)
      else Shown(e, b, y + Size(lh - 1), x, lw, lh - 1, i, j, was)
    case Columns(a, b) =>
      if j < x + Size(lw - 1) then Shown(e, a, y, x, lw - 1, lh, i, j, was)
      else Shown(e, b, y, x + Size(lw - 1), lw - 1, lh, i, j, was)
    case Move(vector) =>
      if !InPicture(e, y, x, lw, lh, e.mv[vector]) then was
      else PixelMoved(e, y, x, lw, lh, i, j, e.mv[vector]); e.last[i * e.stride + j + e.mv[vector]]
    case MoveAdd(vector, offset) =>
      if !InPicture(e, y, x, lw, lh, e.mv[vector]) then was
      else
        PixelMoved(e, y, x, lw, lh, i, j, e.mv[vector]);
        Changed(e, i * e.stride + j + e.mv[vector], offset, lw > 0 && j % 2 == 1)
    case InPlace =>
      if e.version >= 2 then was
      else InPlaceInside(e, y, x, lw, lh); PixelMoved(e, y, x, lw, lh, i, j, 0); e.last[i * e.stride + j]
    case Colour(colour) => colour
    case Colours(one, two) => if i == y && j == x then one else two
  }

  lemma InPlaceInside(e: Env, y: nat, x: nat, lw: nat, lh: nat)
    requires IsBlock(lw, lh) && y + Size(lh) <= e.height && x + Size(lw) <= e.stride
    ensures InPicture(e, y, x, lw, lh, 0)
  {
    var h, n, s := Size(lh), e.height, e.stride;
    assert (y + h) * s <= n * s;
    assert (y + h) * s == y * s + (h - 1) * s + s;
  }

  /** A pixel of a block that lies in the last picture, moved, does too. */
  lemma PixelMoved(e: Env, y: nat, x: nat, lw: nat, lh: nat, i: nat, j: nat, move: int)
    requires IsBlock(lw, lh) && Inside(i, j, y, x, Size(lw), Size(lh)) && InPicture(e, y, x, lw, lh, move)
    ensures i * e.stride + j + move == y * e.stride + x + move + (i - y) * e.stride + (j - x)
    ensures 0 <= i * e.stride + j + move < e.stride * e.height
    ensures j > x ==> i * e.stride + j + move > 0
  {
    RowsDown(i - y, Size(lh) - 1, e.stride);
    RowOf(y, i - y, e.stride);
    hide Size;
  }

  lemma RowsDown(a: nat, b: nat, s: nat)
    requires a <= b
    ensures 0 <= a * s <= b * s
  {
  }

  lemma RowOf(y: nat, r: nat, s: nat)
    ensures (y + r) * s == y * s + r * s
  {
  }

  // ----- reading a type

  ghost predicate BitsStand(e: Env, at: nat, b: seq<bool>) {
    forall k | 0 <= k < |b| :: e.bits(at + k) == b[k]
  }

  ghost predicate BytesStand(e: Env, at: nat, b: seq<nat>) {
    forall k | 0 <= k < |b| :: e.bytes(at + k) == b[k]
  }

  ghost predicate WordsStand(e: Env, at: nat, b: seq<nat>) {
    forall k | 0 <= k < |b| :: e.words(at + k) == b[k]
  }

  lemma BitsParts(e: Env, at: nat, a: seq<bool>, b: seq<bool>)
    ensures BitsStand(e, at, a + b) <==> BitsStand(e, at, a) && BitsStand(e, at + |a|, b)
  {
    var c := a + b;
    if BitsStand(e, at, c) {
      forall k | 0 <= k < |a|
        ensures e.bits(at + k) == a[k]
      {
        assert c[k] == a[k];
      }
      forall k | 0 <= k < |b|
        ensures e.bits(at + |a| + k) == b[k]
      {
        assert e.bits(at + (|a| + k)) == c[|a| + k] == b[k];
      }
    }
  }

  lemma BytesParts(e: Env, at: nat, a: seq<nat>, b: seq<nat>)
    ensures BytesStand(e, at, a + b) <==> BytesStand(e, at, a) && BytesStand(e, at + |a|, b)
  {
    var c := a + b;
    if BytesStand(e, at, c) {
      forall k | 0 <= k < |a|
        ensures e.bytes(at + k) == a[k]
      {
        assert c[k] == a[k];
      }
      forall k | 0 <= k < |b|
        ensures e.bytes(at + |a| + k) == b[k]
      {
        assert e.bytes(at + (|a| + k)) == c[|a| + k] == b[k];
      }
    }
  }

  lemma WordsParts(e: Env, at: nat, a: seq<nat>, b: seq<nat>)
    ensures WordsStand(e, at, a + b) <==> WordsStand(e, at, a) && WordsStand(e, at + |a|, b)
  {
    var c := a + b;
    if WordsStand(e, at, c) {
      forall k | 0 <= k < |a|
        ensures e.words(at + k) == a[k]
      {
        assert c[k] == a[k];
      }
      forall k | 0 <= k < |b|
        ensures e.words(at + |a| + k) == b[k]
      {
        assert e.words(at + (|a| + k)) == c[|a| + k] == b[k];
      }
    }
  }

  lemma BeforeIs(lw: nat, lh: nat)
    ensures Before(0, lw, lh) == 0 && Before(1, lw, lh) == 1
    ensures Before(2, lw, lh) == 1 + if CanRow(lw, lh) then 1 else 0
    ensures Before(3, lw, lh) == Before(2, lw, lh) + if CanColumn(lw, lh) then 1 else 0
    ensures Before(4, lw, lh) == Before(3, lw, lh) + 1 && Before(5, lw, lh) == Before(3, lw, lh) + 2
    ensures Before(6, lw, lh) == Before(3, lw, lh) + 3
  {
  }

  lemma IndexIs(lw: nat, lh: nat)
    requires IsBlock(lw, lh)
    ensures TableIndex(lw, lh) == if lw + lh == 1 then 3 else if lh == 0 then 1 else if lw == 0 then 2 else 0
  {
  }

  ghost predicate Agrees(e: Env, at: nat, n: nat, lw: nat, lh: nat)
    requires IsBlock(lw, lh) && Exists(n, lw, lh)
  {
    && (BitsStand(e, at, TypeBits(e.version, n, lw, lh)) <==> Matches(Table(e.version, TableIndex(lw, lh))[n], Peek(e, at)))
    && |TypeBits(e.version, n, lw, lh)| == Table(e.version, TableIndex(lw, lh))[n].1
  }

  /** At most five bits. */
  lemma FiveBits(e: Env, at: nat, b: seq<bool>)
    requires |b| <= 5
    ensures BitsStand(e, at, b) <==>
            ((|b| > 0 ==> e.bits(at) == b[0]) && (|b| > 1 ==> e.bits(at + 1) == b[1]) && (|b| > 2 ==> e.bits(at + 2) == b[2])
             && (|b| > 3 ==> e.bits(at + 3) == b[3]) && (|b| > 4 ==> e.bits(at + 4) == b[4]))
  {
  }

  /** The word of a type is the entry of the table for it. */
  lemma WordMatches(e: Env, at: nat, n: nat, lw: nat, lh: nat)
    requires IsBlock(lw, lh) && Exists(n, lw, lh)
    ensures Agrees(e, at, n, lw, lh)
  {
    if e.version > 1 {
      hide Agrees;
      NewWordMatches(e, at, n, lw, lh);
    } else {
      hide Before, TableIndex, BitsStand;
      IndexIs(lw, lh);
      FiveBits(e, at, TypeBits(e.version, n, lw, lh));
    }
  }

  lemma NewWordMatches(e: Env, at: nat, n: nat, lw: nat, lh: nat)
    requires IsBlock(lw, lh) && Exists(n, lw, lh) && e.version > 1
    ensures Agrees(e, at, n, lw, lh)
  {
    hide Before, TableIndex, BitsStand;
    BeforeIs(lw, lh);
    IndexIs(lw, lh);
    FiveBits(e, at, TypeBits(e.version, n, lw, lh));
  }

  /** A type is read as what it is. */
  lemma TypeRead(e: Env, at: nat, n: nat, lw: nat, lh: nat)
    requires IsBlock(lw, lh) && Exists(n, lw, lh)
    ensures BitsStand(e, at, TypeBits(e.version, n, lw, lh)) <==> Code(e, at, lw, lh) == n
    ensures |TypeBits(e.version, n, lw, lh)| == CodeLength(e, n, lw, lh)
  {
    hide TypeBits, BitsStand, Table, Peek, TableIndex, Matches, Exists;
    WordMatches(e, at, n, lw, lh);
    TableComplete(e.version, TableIndex(lw, lh), Peek(e, at));
    ExistsSmall(n, lw, lh);
  }

  lemma ExistsSmall(n: nat, lw: nat, lh: nat)
    requires Exists(n, lw, lh)
    ensures n <= 6
  {
  }

  lemma FitsExists(p: Plan, lw: nat, lh: nat)
    requires Fits(p, lw, lh)
    ensures Exists(Number(p), lw, lh)
  {
  }

  // ----- a block

  /** Three streams stand at the cursor. */
  ghost predicate AllStand(e: Env, c: Cursor, bits: seq<bool>, bytes: seq<nat>, words: seq<nat>) {
    BitsStand(e, c.bit, bits) && BytesStand(e, c.byte, bytes) && WordsStand(e, c.word, words)
  }

  function Beyond(c: Cursor, bits: nat, bytes: nat, words: nat): Cursor {
    Cursor(c.bit + bits, c.byte + bytes, c.word + words)
  }

  lemma AllParts(e: Env, c: Cursor, a: seq<bool>, b: seq<bool>, u: seq<nat>, v: seq<nat>, m: seq<nat>, n: seq<nat>)
    ensures AllStand(e, c, a + b, u + v, m + n) <==> AllStand(e, c, a, u, m) && AllStand(e, Beyond(c, |a|, |u|, |m|), b, v, n)
  {
    hide BitsStand, BytesStand, WordsStand;
    BitsParts(e, c.bit, a, b);
    BytesParts(e, c.byte, u, v);
    WordsParts(e, c.word, m, n);
  }

  /** A type comes first. */
  lemma TypeFirst(e: Env, c: Cursor, t: seq<bool>, b: seq<bool>, v: seq<nat>, n: seq<nat>)
    ensures AllStand(e, c, t + b, v, n) <==> BitsStand(e, c.bit, t) && AllStand(e, c.(bit := c.bit + |t|), b, v, n)
  {
    hide BitsStand, BytesStand, WordsStand;
    BitsParts(e, c.bit, t, b);
  }

  /** The streams of a block stand at the cursor. */
  ghost predicate Stands(e: Env, c: Cursor, p: Plan, y: nat, x: nat, lw: nat, lh: nat)
    requires ValidEnv(e) && IsBlock(lw, lh) && Fits(p, lw, lh)
  {
    AllStand(e, c, PlanBits(e.version, p, lw, lh), PlanBytes(p), PlanWords(e, p, y, x, lw, lh))
  }

  function Past(e: Env, c: Cursor, p: Plan, y: nat, x: nat, lw: nat, lh: nat): Cursor
    requires ValidEnv(e) && IsBlock(lw, lh) && Fits(p, lw, lh)
  {
    Beyond(c, |PlanBits(e.version, p, lw, lh)|, |PlanBytes(p)|, |PlanWords(e, p, y, x, lw, lh)|)
  }

  /** The streams of a split are those of its parts, one after the other. */
  lemma RowsStreams(e: Env, p: Plan, y: nat, x: nat, lw: nat, lh: nat)
    requires ValidEnv(e) && IsBlock(lw, lh) && Fits(p, lw, lh) && p.Rows?
    ensures FitsHere(p, lw, lh)
    ensures PlanBits(e.version, p, lw, lh) == TypeBits(e.version, 1, lw, lh)
              + (PlanBits(e.version, p.top, lw, lh - 1) + PlanBits(e.version, p.bottom, lw, lh - 1))
    ensures PlanBytes(p) == PlanBytes(p.top) + PlanBytes(p.bottom)
    ensures PlanWords(e, p, y, x, lw, lh)
         == PlanWords(e, p.top, y, x, lw, lh - 1) + PlanWords(e, p.bottom, y + Size(lh - 1), x, lw, lh - 1)
  {
    hide TypeBits, ValidEnv;
  }

  lemma ColumnsStreams(e: Env, p: Plan, y: nat, x: nat, lw: nat, lh: nat)
    requires ValidEnv(e) && IsBlock(lw, lh) && Fits(p, lw, lh) && p.Columns?
    ensures FitsHere(p, lw, lh)
    ensures PlanBits(e.version, p, lw, lh) == TypeBits(e.version, 2, lw, lh)
              + (PlanBits(e.version, p.left, lw - 1, lh) + PlanBits(e.version, p.right, lw - 1, lh))
    ensures PlanBytes(p) == PlanBytes(p.left) + PlanBytes(p.right)
    ensures PlanWords(e, p, y, x, lw, lh)
         == PlanWords(e, p.left, y, x, lw - 1, lh) + PlanWords(e, p.right, y, x + Size(lw - 1), lw - 1, lh)
  {
    hide TypeBits, ValidEnv;
  }

  /** The streams of two blocks stand one after the other. */
  ghost predicate BothStand(e: Env, c: Cursor, p: Plan, y: nat, x: nat, q: Plan, y1: nat, x1: nat, lw: nat, lh: nat)
    requires ValidEnv(e) && IsBlock(lw, lh) && Fits(p, lw, lh) && Fits(q, lw, lh)
  {
    Stands(e, c, p, y, x, lw, lh) && Stands(e, Past(e, c, p, y, x, lw, lh), q, y1, x1, lw, lh)
  }

  function PastBoth(e: Env, c: Cursor, p: Plan, y: nat, x: nat, q: Plan, y1: nat, x1: nat, lw: nat, lh: nat): Cursor
    requires ValidEnv(e) && IsBlock(lw, lh) && Fits(p, lw, lh) && Fits(q, lw, lh)
  {
    Past(e, Past(e, c, p, y, x, lw, lh), q, y1, x1, lw, lh)
  }

  lemma RowsStand(e: Env, c: Cursor, p: Plan, y: nat, x: nat, lw: nat, lh: nat)
    requires ValidEnv(e) && IsBlock(lw, lh) && Fits(p, lw, lh) && p.Rows?
    ensures FitsHere(p, lw, lh)
    ensures var c0, y1 := AfterType(e, c, p, lw, lh), y + Size(lh - 1);
            && (Stands(e, c, p, y, x, lw, lh) <==>
                  BitsStand(e, c.bit, TypeBits(e.version, 1, lw, lh)) && BothStand(e, c0, p.top, y, x, p.bottom, y1, x, lw, lh - 1))
            && Past(e, c, p, y, x, lw, lh) == PastBoth(e, c0, p.top, y, x, p.bottom, y1, x, lw, lh - 1)
  {
    hide TypeBits, ValidEnv, PlanBits, PlanBytes, PlanWords, Size, AllStand, Fits;
    RowsStreams(e, p, y, x, lw, lh);
    var c0, t := AfterType(e, c, p, lw, lh), TypeBits(e.version, 1, lw, lh);
    var a, b := PlanBits(e.version, p.top, lw, lh - 1), PlanBits(e.version, p.bottom, lw, lh - 1);
    var m, n := PlanWords(e, p.top, y, x, lw, lh - 1), PlanWords(e, p.bottom, y + Size(lh - 1), x, lw, lh - 1);
    TypeFirst(e, c, t, a + b, PlanBytes(p), m + n);
    AllParts(e, c0, a, b, PlanBytes(p.top), PlanBytes(p.bottom), m, n);
  }

  lemma ColumnsStand(e: Env, c: Cursor, p: Plan, y: nat, x: nat, lw: nat, lh: nat)
    requires ValidEnv(e) && IsBlock(lw, lh) && Fits(p, lw, lh) && p.Columns?
    ensures FitsHere(p, lw, lh)
    ensures var c0, x1 := AfterType(e, c, p, lw, lh), x + Size(lw - 1);
            && (Stands(e, c, p, y, x, lw, lh) <==>
                  BitsStand(e, c.bit, TypeBits(e.version, 2, lw, lh)) && BothStand(e, c0, p.left, y, x, p.right, y, x1, lw - 1, lh))
            && Past(e, c, p, y, x, lw, lh) == PastBoth(e, c0, p.left, y, x, p.right, y, x1, lw - 1, lh)
  {
    hide TypeBits, ValidEnv, PlanBits, PlanBytes, PlanWords, Size, AllStand, Fits;
    ColumnsStreams(e, p, y, x, lw, lh);
    var c0, t := AfterType(e, c, p, lw, lh), TypeBits(e.version, 2, lw, lh);
    var a, b := PlanBits(e.version, p.left, lw - 1, lh), PlanBits(e.version, p.right, lw - 1, lh);
    var m, n := PlanWords(e, p.left, y, x, lw - 1, lh), PlanWords(e, p.right, y, x + Size(lw - 1), lw - 1, lh);
    TypeFirst(e, c, t, a + b, PlanBytes(p), m + n);
    AllParts(e, c0, a, b, PlanBytes(p.left), PlanBytes(p.right), m, n);
  }

  /** A split leaves blocks that can be, each with what fits it. */
  ghost predicate FitsHere(p: Plan, lw: nat, lh: nat) {
    && (p.Rows? ==> lh > 0 && IsBlock(lw, lh - 1) && Fits(p.top, lw, lh - 1) && Fits(p.bottom, lw, lh - 1))
    && (p.Columns? ==> lw > 0 && IsBlock(lw - 1, lh) && Fits(p.left, lw - 1, lh) && Fits(p.right, lw - 1, lh))
  }

  function AfterType(e: Env, c: Cursor, p: Plan, lw: nat, lh: nat): Cursor {
    c.(bit := c.bit + |TypeBits(e.version, Number(p), lw, lh)|)
  }

  /** The decoder reads what stands there, and stops behind it. */
  lemma {:induction false} PlanRead(e: Env, c: Cursor, p: Plan, y: nat, x: nat, lw: nat, lh: nat)
    requires ValidEnv(e) && IsBlock(lw, lh) && Fits(p, lw, lh) && Stands(e, c, p, y, x, lw, lh)
    ensures Leaves(e, c, y, x, lw, lh).1 == Past(e, c, p, y, x, lw, lh)
    ensures Code(e, c.bit, lw, lh) == Number(p) && AfterCode(e, c, lw, lh) == AfterType(e, c, p, lw, lh)
    decreases p
  {
    hide TypeBits, BitsStand, BytesStand, WordsStand, ValidEnv, Code, CodeLength, Leaves, Stands, Past, PlanBits, PlanBytes, PlanWords;
    TypeHere(e, c, p, y, x, lw, lh);
    LeavesUnfold(e, c, y, x, lw, lh);
    match p
    case Rows(a, b) =>
      RowsStand(e, c, p, y, x, lw, lh);
      var c0 := AfterType(e, c, p, lw, lh);
      PlanRead(e, c0, a, y, x, lw, lh - 1);
      PlanRead(e, Past(e, c0, a, y, x, lw, lh - 1), b, y + Size(lh - 1), x, lw, lh - 1);
    case Columns(a, b) =>
      ColumnsStand(e, c, p, y, x, lw, lh);
      var c0 := AfterType(e, c, p, lw, lh);
      PlanRead(e, c0, a, y, x, lw - 1, lh);
      PlanRead(e, Past(e, c0, a, y, x, lw - 1, lh), b, y, x + Size(lw - 1), lw - 1, lh);
    case _ => LeafRead(e, c, p, y, x, lw, lh);
  }

  lemma TypeHere(e: Env, c: Cursor, p: Plan, y: nat, x: nat, lw: nat, lh: nat)
    requires ValidEnv(e) && IsBlock(lw, lh) && Fits(p, lw, lh) && Stands(e, c, p, y, x, lw, lh)
    ensures BitsStand(e, c.bit, TypeBits(e.version, Number(p), lw, lh))
    ensures Code(e, c.bit, lw, lh) == Number(p) && AfterCode(e, c, lw, lh) == AfterType(e, c, p, lw, lh)
  {
    hide TypeBits, BitsStand, BytesStand, WordsStand, ValidEnv, Code, CodeLength, PlanBytes, PlanWords;
    var t := TypeBits(e.version, Number(p), lw, lh);
    BitsParts(e, c.bit, t, PlanBits(e.version, p, lw, lh)[|t|..]);
    assert PlanBits(e.version, p, lw, lh) == t + PlanBits(e.version, p, lw, lh)[|t|..];
    FitsExists(p, lw, lh);
    TypeRead(e, c.bit, Number(p), lw, lh);
  }

  function Meant(e: Env, p: Plan, y: nat, x: nat, lw: nat, lh: nat): Action
    requires ValidEnv(e) && IsBlock(lw, lh) && Fits(p, lw, lh)
  {
    var here := y * e.stride + x;
    match p
    case Move(vector) => if InPicture(e, y, x, lw, lh, e.mv[vector]) then Copy(here + e.mv[vector], 0) else Rejected
    case MoveAdd(vector, offset) => if InPicture(e, y, x, lw, lh, e.mv[vector]) then Copy(here + e.mv[vector], offset) else Rejected
    case InPlace => if e.version < 2 then Copy(here, 0) else Kept
    case Colour(colour) => Fill(colour)
    case Colours(one, two) => Pair(one, two)
    case Rows(_, _) => Kept
    case Columns(_, _) => Kept
  }

  /** What an unsplit block reads and does. */
  lemma LeafRead(e: Env, c: Cursor, p: Plan, y: nat, x: nat, lw: nat, lh: nat)
    requires ValidEnv(e) && IsBlock(lw, lh) && Fits(p, lw, lh) && Stands(e, c, p, y, x, lw, lh) && !p.Rows? && !p.Columns?
    ensures Act(e, AfterType(e, c, p, lw, lh), Number(p), y, x, lw, lh).1 == Past(e, c, p, y, x, lw, lh)
    ensures Act(e, AfterType(e, c, p, lw, lh), Number(p), y, x, lw, lh).0 == Meant(e, p, y, x, lw, lh)
  {
    hide TypeBits, BitsStand;
    if p.Move? || p.MoveAdd? {
      assert e.bytes(c.byte + 0) == PlanBytes(p)[0] == p.vector;
      AcceptedIs(e, y * e.stride + x + e.mv[p.vector], lw, lh);
    }
    if p.MoveAdd? && InPicture(e, y, x, lw, lh, e.mv[p.vector]) {
      assert e.words(c.word + 0) == PlanWords(e, p, y, x, lw, lh)[0];
    } else if p.Colour? {
      assert e.words(c.word + 0) == PlanWords(e, p, y, x, lw, lh)[0];
    } else if p.Colours? {
      assert e.words(c.word + 0) == PlanWords(e, p, y, x, lw, lh)[0];
      assert e.words(c.word + 1) == PlanWords(e, p, y, x, lw, lh)[1];
    }
  }

  lemma AcceptedIs(e: Env, src: int, lw: nat, lh: nat)
    requires lw <= 3 && lh <= 3
    ensures Accepted(e, src, lw, lh) <==> 0 <= src && src + (Size(lh) - 1) * e.stride + Size(lw) <= e.stride * e.height
  {
    Rectangle(e.stride, e.height, Size(lh));
  }

  lemma Rectangle(s: int, n: int, h: int)
    ensures s * (n - h + 1) + (h - 1) * s == s * n
  {
  }

  // ----- what the decoder shows

  ghost predicate Pixels16(e: Env) {
    forall p | 0 <= p < |e.last| :: e.last[p] < WORD
  }

  /** The block is one that decoding comes to. */
  ghost predicate Placed(e: Env, y: nat, x: nat, lw: nat, lh: nat) {
    IsBlock(lw, lh) && y + Size(lh) <= e.height && x + Size(lw) <= e.stride && (lw > 0 ==> x % 2 == 0)
  }

  lemma PartsPlaced(e: Env, y: nat, x: nat, lw: nat, lh: nat)
    requires Placed(e, y, x, lw, lh)
    ensures lh > 0 && lw + lh > 1 ==>
              Size(lh) == 2 * Size(lh - 1) && Placed(e, y, x, lw, lh - 1) && Placed(e, y + Size(lh - 1), x, lw, lh - 1)
    ensures lw > 0 && lw + lh > 1 ==>
              Size(lw) == 2 * Size(lw - 1) && Placed(e, y, x, lw - 1, lh) && Placed(e, y, x + Size(lw - 1), lw - 1, lh)
  {
  }

  /** A pixel moved, and changed by an offset. */
  lemma MovedShows(e: Env, y: nat, x: nat, lw: nat, lh: nat, i: nat, j: nat, move: int, offset: nat)
    requires ValidEnv(e) && Pixels16(e) && Placed(e, y, x, lw, lh) && Inside(i, j, y, x, Size(lw), Size(lh)) && offset < WORD
    requires InPicture(e, y, x, lw, lh, move)
    ensures var p := i * e.stride + j + move;
            && 0 <= p < |e.last| && (lw > 0 && j % 2 == 1 ==> p > 0)
            && Moved(e.last, y * e.stride + x + move + (i - y) * e.stride, j - x, lw, 1, offset)
               == Changed(e, p, offset, lw > 0 && j % 2 == 1)
            && Changed(e, p, 0, lw > 0 && j % 2 == 1) == e.last[p]
  {
    PixelMoved(e, y, x, lw, lh, i, j, move);
    RowParity(y, x, lw, lh, i, j);
    hide Size, InPicture, Placed, Inside, Moved, Changed, ValidEnv;
    var p := i * e.stride + j + move;
    MovedAt(e, y * e.stride + x + move + (i - y) * e.stride, j - x, lw, p, offset, lw > 0 && j % 2 == 1);
  }

  lemma RowParity(y: nat, x: nat, lw: nat, lh: nat, i: nat, j: nat)
    requires IsBlock(lw, lh) && (lw > 0 ==> x % 2 == 0) && Inside(i, j, y, x, Size(lw), Size(lh))
    ensures j >= x && (lw > 0 && j % 2 == 1 <==> lw > 0 && (j - x) % 2 == 1) && (lw > 0 && j % 2 == 1 ==> j > x)
  {
  }

  /** Pixel k of a row moved to address row is that at p. */
  lemma MovedAt(e: Env, row: int, k: nat, lw: nat, p: int, offset: nat, carries: bool)
    requires Pixels16(e) && offset < WORD && row + k == p && 0 <= p < |e.last| && (carries ==> p > 0)
    requires carries <==> lw > 0 && k % 2 == 1
    ensures Moved(e.last, row, k, lw, 1, offset) == Changed(e, p, offset, carries)
    ensures Changed(e, p, 0, carries) == e.last[p]
  {
    CarryIs(e.last[p], if carries then e.last[p - 1] else 0, offset);
  }

  lemma CarryIs(own: nat, left: nat, offset: nat)
    requires own < WORD && left < WORD && offset < WORD
    ensures (left + offset) / WORD == if left + offset >= WORD then 1 else 0
    ensures own % WORD == own
  {
  }

  lemma LeafShows(e: Env, p: Plan, y: nat, x: nat, lw: nat, lh: nat, i: nat, j: nat, was: nat)
    requires ValidEnv(e) && Pixels16(e) && Placed(e, y, x, lw, lh) && Fits(p, lw, lh) && !p.Rows? && !p.Columns?
    requires Inside(i, j, y, x, Size(lw), Size(lh))
    ensures Paint(e, Leaf(y, x, lw, lh, Meant(e, p, y, x, lw, lh)), i, j, was) == Shown(e, p, y, x, lw, lh, i, j, was)
  {
    hide Moved, Changed, Pixels16;
    if p.Move? && InPicture(e, y, x, lw, lh, e.mv[p.vector]) {
      MovedShows(e, y, x, lw, lh, i, j, e.mv[p.vector], 0);
    } else if p.MoveAdd? && InPicture(e, y, x, lw, lh, e.mv[p.vector]) {
      MovedShows(e, y, x, lw, lh, i, j, e.mv[p.vector], p.offset);
    } else if p.InPlace? && e.version < 2 {
      InPlaceInside(e, y, x, lw, lh);
      MovedShows(e, y, x, lw, lh, i, j, 0, 0);
    }
  }

  /** Painting the leaves of two blocks one after the other changes a pixel of one of them only as that one says. */
  lemma PaintOfTwo(e: Env, a: seq<Leaf>, b: seq<Leaf>, i: nat, j: nat, was: nat)
    ensures Cover(b, i, j) == 0 ==> PaintAll(e, a + b, i, j, was) == PaintAll(e, a, i, j, was)
    ensures Cover(a, i, j) == 0 ==> PaintAll(e, a + b, i, j, was) == PaintAll(e, b, i, j, was)
  {
    hide Paint;
    PaintAppend(e, a, b, i, j, was);
    if Cover(b, i, j) == 0 {
      PaintUncovered(e, b, i, j, PaintAll(e, a, i, j, was));
    }
    if Cover(a, i, j) == 0 {
      PaintUncovered(e, a, i, j, was);
    }
  }

  lemma ShownRows(e: Env, p: Plan, y: nat, x: nat, lw: nat, lh: nat, i: nat, j: nat, was: nat)
    requires ValidEnv(e) && Placed(e, y, x, lw, lh) && Fits(p, lw, lh) && Inside(i, j, y, x, Size(lw), Size(lh)) && p.Rows?
    requires FitsHere(p, lw, lh)
    ensures Size(lh) == 2 * Size(lh - 1)
    ensures Placed(e, y, x, lw, lh - 1) && Placed(e, y + Size(lh - 1), x, lw, lh - 1)
    ensures Shown(e, p, y, x, lw, lh, i, j, was) ==
            if i < y + Size(lh - 1) then Shown(e, p.top, y, x, lw, lh - 1, i, j, was)
            else Shown(e, p.bottom, y + Size(lh - 1), x, lw, lh - 1, i, j, was)
  {
    PartsPlaced(e, y, x, lw, lh);
    hide ValidEnv, Size;
  }

  lemma ShownColumns(e: Env, p: Plan, y: nat, x: nat, lw: nat, lh: nat, i: nat, j: nat, was: nat)
    requires ValidEnv(e) && Placed(e, y, x, lw, lh) && Fits(p, lw, lh) && Inside(i, j, y, x, Size(lw), Size(lh)) && p.Columns?
    requires FitsHere(p, lw, lh)
    ensures Size(lw) == 2 * Size(lw - 1)
    ensures Placed(e, y, x, lw - 1, lh) && Placed(e, y, x + Size(lw - 1), lw - 1, lh)
    ensures Shown(e, p, y, x, lw, lh, i, j, was) ==
            if j < x + Size(lw - 1) then Shown(e, p.left, y, x, lw - 1, lh, i, j, was)
            else Shown(e, p.right, y, x + Size(lw - 1), lw - 1, lh, i, j, was)
  {
    PartsPlaced(e, y, x, lw, lh);
    hide ValidEnv, Size;
  }

  /** A block is decoded into what it is meant to be, pixel by pixel. */
  lemma {:induction false} BlockShows(e: Env, c: Cursor, p: Plan, y: nat, x: nat, lw: nat, lh: nat, i: nat, j: nat, was: nat)
    requires ValidEnv(e) && Pixels16(e) && Placed(e, y, x, lw, lh) && Fits(p, lw, lh) && Stands(e, c, p, y, x, lw, lh)
    requires Inside(i, j, y, x, Size(lw), Size(lh))
    ensures PaintAll(e, Leaves(e, c, y, x, lw, lh).0, i, j, was) == Shown(e, p, y, x, lw, lh, i, j, was)
    decreases p
  {
    hide ValidEnv, Pixels16, Stands, Past, Code, AfterCode, AfterType, Leaves, Paint, PaintAll, Cover, Shown, Act, Meant, Size;
    hide TypeBits, BitsStand;
    PlanRead(e, c, p, y, x, lw, lh);
    LeavesUnfold(e, c, y, x, lw, lh);
    var c0 := AfterType(e, c, p, lw, lh);
    match p
    case Rows(a, b) =>
      RowsStand(e, c, p, y, x, lw, lh);
      ShownRows(e, p, y, x, lw, lh, i, j, was);
      PlanRead(e, c0, a, y, x, lw, lh - 1);
      var half, c1 := Size(lh - 1), Past(e, c0, a, y, x, lw, lh - 1);
      LeavesPartition(e, c0, y, x, lw, lh - 1, i, j);
      LeavesPartition(e, c1, y + half, x, lw, lh - 1, i, j);
      PaintOfTwo(e, Leaves(e, c0, y, x, lw, lh - 1).0, Leaves(e, c1, y + half, x, lw, lh - 1).0, i, j, was);
      if i < y + half {
        BlockShows(e, c0, a, y, x, lw, lh - 1, i, j, was);
      } else {
        BlockShows(e, c1, b, y + half, x, lw, lh - 1, i, j, was);
      }
    case Columns(a, b) =>
      ColumnsStand(e, c, p, y, x, lw, lh);
      ShownColumns(e, p, y, x, lw, lh, i, j, was);
      PlanRead(e, c0, a, y, x, lw - 1, lh);
      var half, c1 := Size(lw - 1), Past(e, c0, a, y, x, lw - 1, lh);
      LeavesPartition(e, c0, y, x, lw - 1, lh, i, j);
      LeavesPartition(e, c1, y, x + half, lw - 1, lh, i, j);
      PaintOfTwo(e, Leaves(e, c0, y, x, lw - 1, lh).0, Leaves(e, c1, y, x + half, lw - 1, lh).0, i, j, was);
      if j < x + half {
        BlockShows(e, c0, a, y, x, lw - 1, lh, i, j, was);
      } else {
        BlockShows(e, c1, b, y, x + half, lw - 1, lh, i, j, was);
      }
    case _ =>
      LeafRead(e, c, p, y, x, lw, lh);
      LeafShows(e, p, y, x, lw, lh, i, j, was);
      PaintOne(e, Leaf(y, x, lw, lh, Meant(e, p, y, x, lw, lh)), i, j, was);
  }

  // ----- a frame

  ghost predicate AllFit(row: seq<Plan>) {
    forall k | 0 <= k < |row| :: Fits(row[k], 3, 3)
  }

  /** The streams of the 8x8 blocks of a row from the k-th on stand at the cursor. */
  ghost predicate RowStands(e: Env, c: Cursor, row: seq<Plan>, y: nat, k: nat)
    requires ValidEnv(e) && AllFit(row) && k <= |row|
    decreases |row| - k
  {
    k == |row| || (Stands(e, c, row[k], y, 8 * k, 3, 3) && RowStands(e, Past(e, c, row[k], y, 8 * k, 3, 3), row, y, k + 1))
  }

  function PastRow(e: Env, c: Cursor, row: seq<Plan>, y: nat, k: nat): Cursor
    requires ValidEnv(e) && AllFit(row) && k <= |row|
    decreases |row| - k
  {
    if k == |row| then c else PastRow(e, Past(e, c, row[k], y, 8 * k, 3, 3), row, y, k + 1)
  }

  /** The streams of the rows of blocks from the r-th on. */
  ghost predicate FrameStands(e: Env, c: Cursor, rows: seq<seq<Plan>>, r: nat)
    requires ValidEnv(e) && (forall r | 0 <= r < |rows| :: AllFit(rows[r])) && r <= |rows|
    decreases |rows| - r
  {
    r == |rows| || (RowStands(e, c, rows[r], 8 * r, 0) && FrameStands(e, PastRow(e, c, rows[r], 8 * r, 0), rows, r + 1))
  }

  lemma EightIs(e: Env, y: nat, x: nat)
    requires y + 8 <= e.height && x + 8 <= e.stride && x % 8 == 0
    ensures Size(3) == 8 && Placed(e, y, x, 3, 3)
  {
    assert x == 8 * (x / 8);
  }

  lemma RowUnfold(e: Env, c: Cursor, y: nat, x: nat, width: nat)
    requires ValidEnv(e)
    ensures x >= width ==> RowLeaves(e, c, y, x, width) == ([], c)
    ensures x < width ==>
              var a := Leaves(e, c, y, x, 3, 3);
              var b := RowLeaves(e, a.1, y, x + 8, width);
              RowLeaves(e, c, y, x, width) == (a.0 + b.0, b.1)
  {
    hide ValidEnv, Leaves;
  }

  lemma {:induction false} RowRead(e: Env, c: Cursor, row: seq<Plan>, y: nat, k: nat)
    requires ValidEnv(e) && AllFit(row) && k <= |row| && RowStands(e, c, row, y, k)
    ensures RowLeaves(e, c, y, 8 * k, 8 * |row|).1 == PastRow(e, c, row, y, k)
    decreases |row| - k
  {
    hide ValidEnv, Stands, Past, Leaves, RowLeaves, Fits;
    RowUnfold(e, c, y, 8 * k, 8 * |row|);
    if k < |row| {
      assert Fits(row[k], 3, 3);
      PlanRead(e, c, row[k], y, 8 * k, 3, 3);
      RowRead(e, Past(e, c, row[k], y, 8 * k, 3, 3), row, y, k + 1);
    }
  }

  lemma RowPlanAt(e: Env, row: seq<Plan>, y: nat, i: nat, j: nat)
    requires AllFit(row) && y + 8 <= e.height && 8 * |row| <= e.stride && y <= i < y + 8 && j < 8 * |row|
    ensures j / 8 < |row| && Fits(row[j / 8], 3, 3) && Placed(e, y, j / 8 * 8, 3, 3) && Size(3) == 8
    ensures Inside(i, j, y, j / 8 * 8, 8, 8)
  {
    hide Fits;
    EightIs(e, y, j / 8 * 8);
  }

  ghost predicate IsShownInRow(e: Env, row: seq<Plan>, y: nat, i: nat, j: nat, was: nat, v: nat)
    requires ValidEnv(e) && AllFit(row) && y + 8 <= e.height && 8 * |row| <= e.stride && y <= i < y + 8 && j < 8 * |row|
  {
    RowPlanAt(e, row, y, i, j);
    v == Shown(e, row[j / 8], y, j / 8 * 8, 3, 3, i, j, was)
  }

  lemma {:induction false} RowShows(e: Env, c: Cursor, row: seq<Plan>, y: nat, k: nat, i: nat, j: nat, was: nat)
    requires ValidEnv(e) && Pixels16(e) && AllFit(row) && k <= |row| && RowStands(e, c, row, y, k)
    requires y + 8 <= e.height && 8 * |row| <= e.stride && y <= i < y + 8 && 8 * k <= j < 8 * |row|
    ensures IsShownInRow(e, row, y, i, j, was, PaintAll(e, RowLeaves(e, c, y, 8 * k, 8 * |row|).0, i, j, was))
    decreases |row| - k
  {
    hide ValidEnv, Pixels16, Stands, Past, Leaves, RowLeaves, Fits, PaintAll, Shown, Cover, Placed, Size;
    RowPlanAt(e, row, y, i, j);
    var x, width := 8 * k, 8 * |row|;
    RowUnfold(e, c, y, x, width);
    assert Fits(row[k], 3, 3) && Fits(row[j / 8], 3, 3);
    EightIs(e, y, x);
    PlanRead(e, c, row[k], y, x, 3, 3);
    var c1 := Past(e, c, row[k], y, x, 3, 3);
    LeavesPartition(e, c, y, x, 3, 3, i, j);
    RowPartition(e, c1, y, x + 8, width, i, j);
    PaintOfTwo(e, Leaves(e, c, y, x, 3, 3).0, RowLeaves(e, c1, y, x + 8, width).0, i, j, was);
    if j < x + 8 {
      assert j / 8 == k;
      BlockShows(e, c, row[k], y, x, 3, 3, i, j, was);
    } else {
      RowShows(e, c1, row, y, k + 1, i, j, was);
    }
  }

  /** The rows of a picture so high and so wide. */
  ghost predicate Describes(e: Env, rows: seq<seq<Plan>>, width: nat) {
    && |rows| * 8 == e.height && width % 8 == 0 && width <= e.stride
    && forall r | 0 <= r < |rows| :: |rows[r]| * 8 == width && AllFit(rows[r])
  }

  /** Where the block over a pixel is. */
  ghost predicate IsPlanAt(rows: seq<seq<Plan>>, i: nat, j: nat) {
    i / 8 < |rows| && j / 8 < |rows[i / 8]| && Fits(rows[i / 8][j / 8], 3, 3) && Size(3) == 8
  }

  lemma PlanAt(e: Env, rows: seq<seq<Plan>>, width: nat, i: nat, j: nat)
    requires Describes(e, rows, width) && i < e.height && j < width
    ensures IsPlanAt(rows, i, j)
    ensures i / 8 * 8 + 8 <= e.height && j / 8 * 8 + 8 <= e.stride && j / 8 * 8 % 2 == 0
    ensures Inside(i, j, i / 8 * 8, j / 8 * 8, 8, 8)
  {
    hide Fits;
    var r, k := i / 8, j / 8;
    assert |rows[r]| * 8 == width && AllFit(rows[r]);
    assert Fits(rows[r][k], 3, 3);
  }

  lemma DescribedAt(e: Env, rows: seq<seq<Plan>>, width: nat, r: nat)
    requires Describes(e, rows, width) && r <= |rows|
    ensures |rows| * 8 == e.height && e.height % 8 == 0 && width % 8 == 0 && width <= e.stride
    ensures forall n | 0 <= n < |rows| :: AllFit(rows[n])
    ensures r < |rows| ==> |rows[r]| * 8 == width && 8 * r + 8 <= e.height
  {
    hide AllFit;
  }

  /** The value is what the block over the pixel is meant to have there. */
  ghost predicate IsShown(e: Env, rows: seq<seq<Plan>>, width: nat, i: nat, j: nat, was: nat, v: nat)
    requires ValidEnv(e) && Describes(e, rows, width) && i < e.height && j < width
  {
    PlanAt(e, rows, width, i, j);
    v == Shown(e, rows[i / 8][j / 8], i / 8 * 8, j / 8 * 8, 3, 3, i, j, was)
  }

  lemma {:induction false} FrameShows(e: Env, c: Cursor, rows: seq<seq<Plan>>, width: nat, r: nat, i: nat, j: nat, was: nat)
    requires ValidEnv(e) && Pixels16(e) && Describes(e, rows, width) && r <= |rows|
    requires FrameStands(e, c, rows, r)
    requires 8 * r <= i < e.height && j < width
    ensures IsShown(e, rows, width, i, j, was, PaintAll(e, FrameLeaves(e, c, 8 * r, width).0, i, j, was))
    decreases |rows| - r
  {
    hide ValidEnv, Pixels16, RowStands, PastRow, RowLeaves, FrameLeaves, Fits, AllFit, PaintAll, Shown, Cover, Size, Describes;
    DescribedAt(e, rows, width, r);
    PlanAt(e, rows, width, i, j);
    var y, row := 8 * r, rows[r];
    FrameUnfold(e, c, y, width);
    RowRead(e, c, row, y, 0);
    var c1 := PastRow(e, c, row, y, 0);
    RowPartition(e, c, y, 0, width, i, j);
    FramePartition(e, c1, y + 8, width, i, j);
    PaintOfTwo(e, RowLeaves(e, c, y, 0, width).0, FrameLeaves(e, c1, y + 8, width).0, i, j, was);
    if i < y + 8 {
      assert i / 8 == r;
      RowShows(e, c, row, y, 0, i, j, was);
    } else {
      FrameShows(e, c1, rows, width, r + 1, i, j, was);
    }
  }

  // ----- every stream is the description of a picture

  lemma CodeExists(e: Env, at: nat, lw: nat, lh: nat)
    requires IsBlock(lw, lh)
    ensures Exists(Code(e, at, lw, lh), lw, lh)
  {
    hide Code, CodeLength;
    CodeFits(e, at, lw, lh);
  }

  /** What an unsplit block of this type is to be, by what stands there. */
  function LeafPlan(e: Env, c: Cursor, code: nat): Plan {
    if code == 0 then Move(e.bytes(c.byte))
    else if code == 4 then MoveAdd(e.bytes(c.byte), e.words(c.word))
    else if code == 5 then Colour(e.words(c.word))
    else if code == 6 then Colours(e.words(c.word), e.words(c.word + 1))
    else InPlace
  }

  lemma LeafStands(e: Env, c: Cursor, code: nat, y: nat, x: nat, lw: nat, lh: nat)
    requires ValidEnv(e) && IsBlock(lw, lh) && Exists(code, lw, lh) && code != 1 && code != 2
    requires BitsStand(e, c.bit, TypeBits(e.version, code, lw, lh))
    ensures Fits(LeafPlan(e, c, code), lw, lh) && Stands(e, c, LeafPlan(e, c, code), y, x, lw, lh)
  {
    hide TypeBits;
    var p, t := LeafPlan(e, c, code), TypeBits(e.version, code, lw, lh);
    assert Number(p) == code;
    assert PlanBits(e.version, p, lw, lh) == t;
  }

  lemma {:induction false} BlockPlan(e: Env, c: Cursor, y: nat, x: nat, lw: nat, lh: nat) returns (p: Plan)
    requires ValidEnv(e) && IsBlock(lw, lh)
    ensures Fits(p, lw, lh) && Stands(e, c, p, y, x, lw, lh)
    decreases lw + lh
  {
    hide ValidEnv, Stands, Past, Code, TypeBits, BitsStand, PlanBits, PlanBytes, PlanWords, Size, LeafPlan;
    var code := Code(e, c.bit, lw, lh);
    CodeExists(e, c.bit, lw, lh);
    TypeRead(e, c.bit, code, lw, lh);
    var c0 := c.(bit := c.bit + |TypeBits(e.version, code, lw, lh)|);
    if code == 1 {
      var a := BlockPlan(e, c0, y, x, lw, lh - 1);
      var b := BlockPlan(e, Past(e, c0, a, y, x, lw, lh - 1), y + Size(lh - 1), x, lw, lh - 1);
      p := Rows(a, b);
      RowsStand(e, c, p, y, x, lw, lh);
    } else if code == 2 {
      var a := BlockPlan(e, c0, y, x, lw - 1, lh);
      var b := BlockPlan(e, Past(e, c0, a, y, x, lw - 1, lh), y, x + Size(lw - 1), lw - 1, lh);
      p := Columns(a, b);
      ColumnsStand(e, c, p, y, x, lw, lh);
    } else {
      p := LeafPlan(e, c, code);
      LeafStands(e, c, code, y, x, lw, lh);
    }
  }

  lemma {:induction false} RowPlan(e: Env, c: Cursor, y: nat, k: nat, n: nat) returns (row: seq<Plan>, end: Cursor)
    requires ValidEnv(e) && k <= n
    ensures |row| == n - k && AllFit(row) && RowFrom(e, c, row, y, k, end)
    decreases n - k
  {
    hide ValidEnv, Stands, Past, Fits;
    if k == n {
      row, end := [], c;
    } else {
      var p := BlockPlan(e, c, y, 8 * k, 3, 3);
      var rest;
      rest, end := RowPlan(e, Past(e, c, p, y, 8 * k, 3, 3), y, k + 1, n);
      row := [p] + rest;
      assert row[1..] == rest;
      assert forall i | 0 < i < |row| :: row[i] == rest[i - 1] && Fits(rest[i - 1], 3, 3);
    }
  }

  /** The same of a row from its first block, at column k. */
  ghost predicate RowFrom(e: Env, c: Cursor, row: seq<Plan>, y: nat, k: nat, end: Cursor)
    requires ValidEnv(e) && AllFit(row)
    decreases |row|
  {
    if row == [] then c == end
    else
      assert Fits(row[0], 3, 3);
      assert AllFit(row[1..]);
      Stands(e, c, row[0], y, 8 * k, 3, 3) && RowFrom(e, Past(e, c, row[0], y, 8 * k, 3, 3), row[1..], y, k + 1, end)
  }

  lemma {:induction false} RowFromStands(e: Env, c: Cursor, row: seq<Plan>, y: nat, k: nat, end: Cursor)
    requires ValidEnv(e) && AllFit(row) && k <= |row| && AllFit(row[k..]) && RowFrom(e, c, row[k..], y, k, end)
    ensures RowStands(e, c, row, y, k) && PastRow(e, c, row, y, k) == end
    decreases |row| - k
  {
    hide ValidEnv, Stands, Past, Fits;
    if k < |row| {
      assert Fits(row[k], 3, 3);
      assert row[k..][0] == row[k] && row[k..][1..] == row[k + 1..];
      assert AllFit(row[k + 1..]);
      RowFromStands(e, Past(e, c, row[k], y, 8 * k, 3, 3), row, y, k + 1, end);
    }
  }

  /** Whatever stands in the streams, there are plans that stand there: the law of the picture holds for every frame. */
  lemma {:induction false} FramePlan(e: Env, c: Cursor, r: nat, width: nat) returns (rows: seq<seq<Plan>>)
    requires ValidEnv(e) && width % 8 == 0 && e.height % 8 == 0 && 8 * r <= e.height && width <= e.stride
    ensures |rows| == e.height / 8 - r && AllRowsFit(rows, width) && FrameFrom(e, c, rows, r)
    decreases e.height - 8 * r
  {
    hide ValidEnv, RowStands, PastRow, AllFit;
    if 8 * r == e.height {
      rows := [];
    } else {
      var row, end := RowPlan(e, c, 8 * r, 0, width / 8);
      assert row[0..] == row;
      RowFromStands(e, c, row, 8 * r, 0, end);
      var rest := FramePlan(e, end, r + 1, width);
      rows := [row] + rest;
      assert rows[1..] == rest;
    }
  }

  ghost predicate AllRowsFit(rows: seq<seq<Plan>>, width: nat) {
    forall r | 0 <= r < |rows| :: |rows[r]| * 8 == width && AllFit(rows[r])
  }

  ghost predicate FrameFrom(e: Env, c: Cursor, rows: seq<seq<Plan>>, r: nat)
    requires ValidEnv(e) && forall n | 0 <= n < |rows| :: AllFit(rows[n])
    decreases |rows|
  {
    rows == []
    || (RowStands(e, c, rows[0], 8 * r, 0)
        && (assert forall n | 0 <= n < |rows| - 1 :: rows[1..][n] == rows[n + 1];
            FrameFrom(e, PastRow(e, c, rows[0], 8 * r, 0), rows[1..], r + 1)))
  }

  lemma {:induction false} FrameFromStands(e: Env, c: Cursor, rows: seq<seq<Plan>>, r: nat)
    requires ValidEnv(e) && (forall n | 0 <= n < |rows| :: AllFit(rows[n])) && r <= |rows| && FrameFrom(e, c, rows[r..], r)
    ensures FrameStands(e, c, rows, r)
    decreases |rows| - r
  {
    hide ValidEnv, RowStands, PastRow, AllFit;
    if r < |rows| {
      assert rows[r..][0] == rows[r] && rows[r..][1..] == rows[r + 1..];
      FrameFromStands(e, PastRow(e, c, rows[r], 8 * r, 0), rows, r + 1);
    }
  }

  /** What a decoded frame shows, whatever the streams: there is a description of the picture that stands in them, and every pixel is
      what it says. */
  lemma EveryFrame(e: Env, width: nat) returns (rows: seq<seq<Plan>>)
    requires ValidEnv(e) && Pixels16(e) && width % 8 == 0 && e.height % 8 == 0 && width <= e.stride
    ensures Describes(e, rows, width) && FrameStands(e, Cursor(0, 0, 0), rows, 0)
    ensures forall i, j, was: nat | 0 <= i < e.height && 0 <= j < width :: ShowsAt(e, rows, width, i, j, was)
  {
    hide ValidEnv, Pixels16, FrameStands, FrameFrom, AllFit, FrameLeaves, PaintAll, Shown, ShowsAt;
    rows := FramePlan(e, Cursor(0, 0, 0), 0, width);
    assert rows[0..] == rows;
    FrameFromStands(e, Cursor(0, 0, 0), rows, 0);
    forall i, j, was: nat | 0 <= i < e.height && 0 <= j < width
      ensures ShowsAt(e, rows, width, i, j, was)
    {
      PixelShows(e, rows, width, i, j, was);
    }
  }

  /** A decoded pixel is what the block over it is meant to have there. */
  ghost predicate ShowsAt(e: Env, rows: seq<seq<Plan>>, width: nat, i: nat, j: nat, was: nat)
    requires ValidEnv(e) && Describes(e, rows, width) && i < e.height && j < width
  {
    IsShown(e, rows, width, i, j, was, PaintAll(e, FrameLeaves(e, Cursor(0, 0, 0), 0, width).0, i, j, was))
  }

  lemma PixelShows(e: Env, rows: seq<seq<Plan>>, width: nat, i: nat, j: nat, was: nat)
    requires ValidEnv(e) && Pixels16(e) && Describes(e, rows, width) && FrameStands(e, Cursor(0, 0, 0), rows, 0)
    requires i < e.height && j < width
    ensures ShowsAt(e, rows, width, i, j, was)
  {
    hide ValidEnv, Pixels16, FrameStands, FrameLeaves, PaintAll, IsShown, Describes;
    FrameShows(e, Cursor(0, 0, 0), rows, width, 0, i, j, was);
  }
}
