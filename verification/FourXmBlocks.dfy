/** The recursive block splitter of 4XM P frames. */
module FourXmBlocks {

  /** Code value and code length of block types 0..6, for versions above 1 and for the others. */
  const BLOCK_TYPE_TAB: seq<seq<seq<(nat, nat)>>> := [
    [[(0, 1), (2, 2), (6, 3), (14, 4), (30, 5), (31, 5), (0, 0)],
     [(0, 1), (0, 0), (2, 2), (6, 3), (14, 4), (15, 4), (0, 0)],
     [(0, 1), (2, 2), (0, 0), (6, 3), (14, 4), (15, 4), (0, 0)],
     [(0, 1), (0, 0), (0, 0), (2, 2), (6, 3), (14, 4), (15, 4)]],
    [[(1, 2), (4, 3), (5, 3), (0, 2), (6, 3), (7, 3), (0, 0)],
     [(1, 2), (0, 0), (2, 2), (0, 2), (6, 3), (7, 3), (0, 0)],
     [(1, 2), (2, 2), (0, 0), (0, 2), (6, 3), (7, 3), (0, 0)],
     [(1, 2), (0, 0), (0, 0), (0, 2), (2, 2), (6, 3), (7, 3)]]
  ]

  /** Rows are log2 of the height, columns log2 of the width; 255 marks the 1x1 block. */
  const SIZE2INDEX: seq<seq<nat>> := [[255, 3, 1, 1], [3, 0, 0, 0], [2, 0, 0, 0], [2, 0, 0, 0]]

  function Size(log2: nat): (n: nat)
    requires log2 <= 3
  {
    if log2 == 0 then 1 else if log2 == 1 then 2 else if log2 == 2 then 4 else 8
  }

  ghost predicate IsBlock(lw: nat, lh: nat) {
    lw <= 3 && lh <= 3 && lw + lh > 0
  }

  function TableIndex(lw: nat, lh: nat): (i: nat)
    requires IsBlock(lw, lh)
    ensures i <= 3
  {
    SIZE2INDEX[lh][lw]
  }

  /** Entry (value, length) of a table matches the next five bits when it is present and equals their top bits. */
  predicate Matches(entry: (nat, nat), peek: nat) {
    var (value, len) := entry;
    match len
    case 1 => peek / 16 == value
    case 2 => peek / 8 == value
    case 3 => peek / 4 == value
    case 4 => peek / 2 == value
    case 5 => peek == value
    case _ => false
  }

  function FindCode(table: seq<(nat, nat)>, peek: nat, c: nat): (r: int)
    requires c <= |table|
    ensures -1 <= r < |table|
    ensures r >= 0 ==> c <= r && Matches(table[r], peek)
    ensures r == -1 ==> forall k | c <= k < |table| :: !Matches(table[k], peek)
    decreases |table| - c
  {
    if c == |table| then -1 else if Matches(table[c], peek) then c else FindCode(table, peek, c + 1)
  }

  function Table(version: nat, index: nat): (t: seq<(nat, nat)>)
    requires index <= 3
    ensures |t| == 7
  {
    BLOCK_TYPE_TAB[if version > 1 then 0 else 1][index]
  }

  /** Every table is a complete prefix code: any five bits hold exactly one code. */
  lemma TableComplete(version: nat, index: nat, peek: nat)
    requires index <= 3 && peek < 32
    ensures exists c :: 0 <= c < 7 && Matches(Table(version, index)[c], peek)
    ensures forall c, d | 0 <= c < 7 && 0 <= d < 7 && Matches(Table(version, index)[c], peek) && Matches(Table(version, index)[d], peek) ::
              c == d
  {
    var t := Table(version, index);
    assert Matches(t[0], peek) || Matches(t[1], peek) || Matches(t[2], peek) || Matches(t[3], peek) ||
           Matches(t[4], peek) || Matches(t[5], peek) || Matches(t[6], peek);
  }

  /** The streams of one frame, the motion table, and the geometry of the picture buffer. */
  datatype Env = Env(bits: nat -> bool, bytes: nat -> nat, words: nat -> nat, mv: seq<int>,
                     version: nat, stride: nat, height: nat, last: seq<nat>)

  ghost predicate ValidEnv(e: Env) {
    && (forall i: nat :: e.bytes(i) < 256) && (forall i: nat :: e.words(i) < 65536)
    && |e.mv| == 256 && |e.last| == e.stride * e.height
  }

  datatype Cursor = Cursor(bit: nat, byte: nat, word: nat)

  function Peek(e: Env, at: nat): (p: nat)
    ensures p < 32
  {
    (if e.bits(at) then 16 else 0) + (if e.bits(at + 1) then 8 else 0) + (if e.bits(at + 2) then 4 else 0) +
    (if e.bits(at + 3) then 2 else 0) + if e.bits(at + 4) then 1 else 0
  }

  /** The block type at the cursor. */
  function Code(e: Env, at: nat, lw: nat, lh: nat): (c: nat)
    requires IsBlock(lw, lh)
    ensures c <= 6
  {
    TableComplete(e.version, TableIndex(lw, lh), Peek(e, at));
    FindCode(Table(e.version, TableIndex(lw, lh)), Peek(e, at), 0)
  }

  function CodeLength(e: Env, code: nat, lw: nat, lh: nat): nat
    requires IsBlock(lw, lh) && code <= 6
  {
    Table(e.version, TableIndex(lw, lh))[code].1
  }

  /** What may be read at each shape: no split reaches 1x1, and type 6 only meets blocks of two pixels. */
  lemma CodeFits(e: Env, at: nat, lw: nat, lh: nat)
    requires IsBlock(lw, lh)
    ensures var c := Code(e, at, lw, lh);
            && (c == 1 ==> lh > 0 && IsBlock(lw, lh - 1))
            && (c == 2 ==> lw > 0 && IsBlock(lw - 1, lh))
            && (c == 6 ==> lw + lh == 1)
            && 1 <= CodeLength(e, c, lw, lh) <= 5
  {
    var i := TableIndex(lw, lh);
    assert lh == 0 ==> i == 1 || i == 3;
    assert lw == 0 ==> i == 2 || i == 3;
    assert lw > 0 && lh > 0 ==> i == 0;
    assert i == 3 <==> lw + lh == 1;
  }

  datatype Action =
    | Rejected                     // vector outside the picture: nothing is written
    | Kept                         // type 3 above version 1: nothing is written
    | Copy(src: int, dc: nat)
    | Fill(dc: nat)
    | Pair(first: nat, second: nat)

  datatype Leaf = Leaf(y: nat, x: nat, lw: nat, lh: nat, act: Action)

  /** A moved source is accepted when it lies between the start of the buffer and the last start that fits. */
  predicate Accepted(e: Env, src: int, lw: nat, lh: nat)
    requires lw <= 3 && lh <= 3
  {
    0 <= src <= e.stride * (e.height - Size(lh) + 1) - Size(lw)
  }

  /** What a block type that is not a split does, and where the cursor goes. */
  function Act(e: Env, c: Cursor, code: nat, y: nat, x: nat, lw: nat, lh: nat): (Action, Cursor)
    requires ValidEnv(e) && IsBlock(lw, lh)
  {
    var here := y * e.stride + x;
    if code == 0 || code == 4 then
      var src := here + e.mv[e.bytes(c.byte)];
      var c1 := c.(byte := c.byte + 1);
      if !Accepted(e, src, lw, lh) then (Rejected, c1)
      else if code == 0 then (Copy(src, 0), c1)
      else (Copy(src, e.words(c.word)), c1.(word := c.word + 1))
    else if code == 3 && e.version < 2 then (Copy(here, 0), c)
    else if code == 5 then (Fill(e.words(c.word)), c.(word := c.word + 1))
    else if code == 6 then (Pair(e.words(c.word), e.words(c.word + 1)), c.(word := c.word + 2))
    else (Kept, c)
  }

  /** The unsplit blocks in the order they are decoded. */
  function Leaves(e: Env, c: Cursor, y: nat, x: nat, lw: nat, lh: nat): (r: (seq<Leaf>, Cursor))
    requires ValidEnv(e) && IsBlock(lw, lh)
    decreases lw + lh
  {
    var code := Code(e, c.bit, lw, lh);
    var c0 := c.(bit := c.bit + CodeLength(e, code, lw, lh));
    CodeFits(e, c.bit, lw, lh);
    if code == 1 then
      var (a, c1) := Leaves(e, c0, y, x, lw, lh - 1);
      var (b, c2) := Leaves(e, c1, y + Size(lh - 1), x, lw, lh - 1);
      (a + b, c2)
    else if code == 2 then
      var (a, c1) := Leaves(e, c0, y, x, lw - 1, lh);
      var (b, c2) := Leaves(e, c1, y, x + Size(lw - 1), lw - 1, lh);
      (a + b, c2)
    else
      var (act, c1) := Act(e, c0, code, y, x, lw, lh);
      ([Leaf(y, x, lw, lh, act)], c1)
  }

  /** The cursor after the block type. */
  function AfterCode(e: Env, c: Cursor, lw: nat, lh: nat): Cursor
    requires IsBlock(lw, lh)
  {
    c.(bit := c.bit + CodeLength(e, Code(e, c.bit, lw, lh), lw, lh))
  }

  lemma LeavesUnfold(e: Env, c: Cursor, y: nat, x: nat, lw: nat, lh: nat)
    requires ValidEnv(e) && IsBlock(lw, lh)
    ensures var code, c0 := Code(e, c.bit, lw, lh), AfterCode(e, c, lw, lh);
            if code == 1 then
              lh > 0 && IsBlock(lw, lh - 1) &&
              var a := Leaves(e, c0, y, x, lw, lh - 1);
              var b := Leaves(e, a.1, y + Size(lh - 1), x, lw, lh - 1);
              Leaves(e, c, y, x, lw, lh) == (a.0 + b.0, b.1)
            else if code == 2 then
              lw > 0 && IsBlock(lw - 1, lh) &&
              var a := Leaves(e, c0, y, x, lw - 1, lh);
              var b := Leaves(e, a.1, y, x + Size(lw - 1), lw - 1, lh);
              Leaves(e, c, y, x, lw, lh) == (a.0 + b.0, b.1)
            else
              (code == 6 ==> lw + lh == 1) &&
              var act := Act(e, c0, code, y, x, lw, lh);
              Leaves(e, c, y, x, lw, lh) == ([Leaf(y, x, lw, lh, act.0)], act.1)
  {
    CodeFits(e, c.bit, lw, lh);
    hide Code, CodeLength, Act;
  }

  predicate Inside(i: nat, j: nat, y: nat, x: nat, w: nat, h: nat) {
    y <= i < y + h && x <= j < x + w
  }

  /** Leaves are blocks that fit the shapes the tables know. */
  ghost predicate Proper(leaf: Leaf) {
    IsBlock(leaf.lw, leaf.lh) && (leaf.act.Pair? ==> leaf.lw + leaf.lh == 1)
  }

  predicate Holds(leaf: Leaf, i: nat, j: nat) {
    leaf.lw <= 3 && leaf.lh <= 3 && Inside(i, j, leaf.y, leaf.x, Size(leaf.lw), Size(leaf.lh))
  }

  /** The number of leaves over pixel (i, j). */
  function Cover(leaves: seq<Leaf>, i: nat, j: nat): nat {
    if leaves == [] then 0 else (if Holds(leaves[0], i, j) then 1 else 0) + Cover(leaves[1..], i, j)
  }

  lemma {:induction false} CoverAppend(a: seq<Leaf>, b: seq<Leaf>, i: nat, j: nat)
    ensures Cover(a + b, i, j) == Cover(a, i, j) + Cover(b, i, j)
  {
    if a == [] {
      assert a + b == b;
    } else {
      CoverAppend(a[1..], b, i, j);
      assert (a + b)[1..] == a[1..] + b;
    }
  }

  lemma CoverNone(i: nat, j: nat)
    ensures Cover([], i, j) == 0
  {
  }

  lemma CoverOne(leaf: Leaf, i: nat, j: nat)
    ensures Cover([leaf], i, j) == if Holds(leaf, i, j) then 1 else 0
  {
    assert [leaf][1..] == [];
  }

  /** The leaves tile the block: every pixel of it is under exactly one leaf, every other pixel under none. */
  lemma {:induction false} LeavesPartition(e: Env, c: Cursor, y: nat, x: nat, lw: nat, lh: nat, i: nat, j: nat)
    requires ValidEnv(e) && IsBlock(lw, lh)
    ensures Cover(Leaves(e, c, y, x, lw, lh).0, i, j) == if Inside(i, j, y, x, Size(lw), Size(lh)) then 1 else 0
    decreases lw + lh
  {
    hide Code, AfterCode, Act, ValidEnv, Cover, Leaves;
    LeavesUnfold(e, c, y, x, lw, lh);
    var code, c0 := Code(e, c.bit, lw, lh), AfterCode(e, c, lw, lh);
    if code == 1 {
      var (a, c1) := Leaves(e, c0, y, x, lw, lh - 1);
      LeavesPartition(e, c0, y, x, lw, lh - 1, i, j);
      LeavesPartition(e, c1, y + Size(lh - 1), x, lw, lh - 1, i, j);
      CoverAppend(a, Leaves(e, c1, y + Size(lh - 1), x, lw, lh - 1).0, i, j);
    } else if code == 2 {
      var (a, c1) := Leaves(e, c0, y, x, lw - 1, lh);
      LeavesPartition(e, c0, y, x, lw - 1, lh, i, j);
      LeavesPartition(e, c1, y, x + Size(lw - 1), lw - 1, lh, i, j);
      CoverAppend(a, Leaves(e, c1, y, x + Size(lw - 1), lw - 1, lh).0, i, j);
    } else {
      CoverOne(Leaf(y, x, lw, lh, Act(e, c0, code, y, x, lw, lh).0), i, j);
    }
  }

  /** Does the leaf assign its pixels? */
  predicate Writes(leaf: Leaf) {
    !leaf.act.Rejected? && !leaf.act.Kept?
  }

  /** Every accepted vector, and every block copied in place, reads inside the last picture only: row r column k of the
      block is read at src + r * stride + k. */
  ghost predicate ReadsInside(e: Env, leaf: Leaf) {
    Proper(leaf) && (leaf.act.Copy? ==>
      0 <= leaf.act.src && leaf.act.src + (Size(leaf.lh) - 1) * e.stride + Size(leaf.lw) <= e.stride * e.height)
  }

  /** A leaf reads inside the last picture, and below version 2 it writes its pixels unless its vector was rejected. */
  ghost predicate Sound(e: Env, leaf: Leaf) {
    ReadsInside(e, leaf) && (e.version < 2 ==> (Writes(leaf) <==> !leaf.act.Rejected?))
  }

  lemma InPlaceAccepted(e: Env, y: nat, x: nat, lw: nat, lh: nat)
    requires lw <= 3 && lh <= 3 && y + Size(lh) <= e.height && x + Size(lw) <= e.stride
    ensures Accepted(e, y * e.stride + x, lw, lh)
  {
    var h, s, n := Size(lh), e.stride, e.height;
    hide Size;
    assert y * s <= (n - h) * s;
    assert s * (n - h + 1) == (n - h) * s + s;
  }

  lemma AcceptedInside(e: Env, src: int, lw: nat, lh: nat)
    requires lw <= 3 && lh <= 3 && Accepted(e, src, lw, lh)
    ensures 0 <= src && src + (Size(lh) - 1) * e.stride + Size(lw) <= e.stride * e.height
  {
    var h, s, n := Size(lh), e.stride, e.height;
    hide Size;
    assert s * (n - h + 1) + (h - 1) * s == s * n;
  }

  lemma ActSound(e: Env, c: Cursor, code: nat, y: nat, x: nat, lw: nat, lh: nat)
    requires ValidEnv(e) && IsBlock(lw, lh) && code <= 6 && code != 1 && code != 2 && (code == 6 ==> lw + lh == 1)
    requires y + Size(lh) <= e.height && x + Size(lw) <= e.stride
    ensures Sound(e, Leaf(y, x, lw, lh, Act(e, c, code, y, x, lw, lh).0))
  {
    hide Size, ValidEnv, Accepted;
    InPlaceAccepted(e, y, x, lw, lh);
    var a := Act(e, c, code, y, x, lw, lh).0;
    if a.Copy? {
      AcceptedInside(e, a.src, lw, lh);
    }
  }

  lemma {:induction false} LeavesSound(e: Env, c: Cursor, y: nat, x: nat, lw: nat, lh: nat)
    requires ValidEnv(e) && IsBlock(lw, lh) && y + Size(lh) <= e.height && x + Size(lw) <= e.stride
    ensures forall k | 0 <= k < |Leaves(e, c, y, x, lw, lh).0| :: Sound(e, Leaves(e, c, y, x, lw, lh).0[k])
    decreases lw + lh
  {
    hide Code, AfterCode, Act, ValidEnv, Leaves, Sound;
    LeavesUnfold(e, c, y, x, lw, lh);
    var code, c0 := Code(e, c.bit, lw, lh), AfterCode(e, c, lw, lh);
    if code == 1 {
      LeavesSound(e, c0, y, x, lw, lh - 1);
      LeavesSound(e, Leaves(e, c0, y, x, lw, lh - 1).1, y + Size(lh - 1), x, lw, lh - 1);
    } else if code == 2 {
      LeavesSound(e, c0, y, x, lw - 1, lh);
      LeavesSound(e, Leaves(e, c0, y, x, lw - 1, lh).1, y, x + Size(lw - 1), lw - 1, lh);
    } else {
      ActSound(e, c0, code, y, x, lw, lh);
    }
  }

  // ----- the pixels written

  const WORD: nat := 0x1_0000
  const DWORD: nat := 0x1_0000_0000

  function At(last: seq<nat>, p: int): nat {
    if 0 <= p < |last| then last[p] else 0
  }

  /** Pixel k of a row moved from address row: odd pixels of wide blocks take the carry of their left neighbour. */
  function Moved(last: seq<nat>, row: int, k: nat, lw: nat, scale: nat, dc: nat): nat {
    var own := scale * At(last, row + k) + dc;
    if lw > 0 && k % 2 == 1 then (own + (scale * At(last, row + k - 1) + dc) / WORD) % WORD else own % WORD
  }

  /** The new value of pixel (i, j) after one leaf. */
  function Paint(e: Env, leaf: Leaf, i: nat, j: nat, was: nat): nat {
    if !Holds(leaf, i, j) then was
    else
      match leaf.act
      case Rejected => was
      case Kept => was
      case Copy(src, dc) => Moved(e.last, src + (i - leaf.y) * e.stride, j - leaf.x, leaf.lw, 1, dc)
      case Fill(dc) => dc
      case Pair(first, second) => if i == leaf.y && j == leaf.x then first else second
  }

  function PaintAll(e: Env, leaves: seq<Leaf>, i: nat, j: nat, was: nat): nat {
    if leaves == [] then was else PaintAll(e, leaves[1..], i, j, Paint(e, leaves[0], i, j, was))
  }

  lemma {:induction false} PaintAppend(e: Env, a: seq<Leaf>, b: seq<Leaf>, i: nat, j: nat, v: nat)
    ensures PaintAll(e, a + b, i, j, v) == PaintAll(e, b, i, j, PaintAll(e, a, i, j, v))
  {
    if a == [] {
      assert a + b == b;
    } else {
      PaintAppend(e, a[1..], b, i, j, Paint(e, a[0], i, j, v));
      assert (a + b)[1..] == a[1..] + b;
    }
  }

  lemma PaintAppendAll(e: Env, a: seq<Leaf>, b: seq<Leaf>)
    ensures forall i: nat, j: nat, v: nat :: PaintAll(e, a + b, i, j, v) == PaintAll(e, b, i, j, PaintAll(e, a, i, j, v))
  {
    forall i: nat, j: nat, v: nat
      ensures PaintAll(e, a + b, i, j, v) == PaintAll(e, b, i, j, PaintAll(e, a, i, j, v))
    {
      PaintAppend(e, a, b, i, j, v);
    }
  }

  lemma PaintOne(e: Env, leaf: Leaf, i: nat, j: nat, v: nat)
    ensures PaintAll(e, [leaf], i, j, v) == Paint(e, leaf, i, j, v)
  {
    assert [leaf][1..] == [];
  }

  /** A pixel under no leaf keeps its value. */
  lemma {:induction false} PaintUncovered(e: Env, leaves: seq<Leaf>, i: nat, j: nat, v: nat)
    requires Cover(leaves, i, j) == 0
    ensures PaintAll(e, leaves, i, j, v) == v
  {
    if leaves != [] {
      PaintUncovered(e, leaves[1..], i, j, v);
    }
  }

  /** A pixel under one leaf only has what that leaf gives it, however many leaves are painted. */
  lemma {:induction false} PaintCovered(e: Env, leaves: seq<Leaf>, k: nat, i: nat, j: nat, v: nat)
    requires k < |leaves| && Cover(leaves, i, j) == 1 && Holds(leaves[k], i, j)
    ensures PaintAll(e, leaves, i, j, v) == Paint(e, leaves[k], i, j, v)
  {
    if k == 0 {
      PaintUncovered(e, leaves[1..], i, j, Paint(e, leaves[0], i, j, v));
    } else {
      CoverHeld(leaves[1..], k - 1, i, j);
      PaintCovered(e, leaves[1..], k - 1, i, j, v);
    }
  }

  lemma {:induction false} CoverHeld(leaves: seq<Leaf>, k: nat, i: nat, j: nat)
    requires k < |leaves| && Holds(leaves[k], i, j)
    ensures Cover(leaves, i, j) >= 1
  {
    if k > 0 {
      CoverHeld(leaves[1..], k - 1, i, j);
    }
  }

  /** Two pixels and twice the offset, in one 32-bit word. */
  function PairOf(lo: nat, hi: nat, scale: nat, dc: nat): nat {
    ((lo + WORD * hi) * scale + dc * 0x1_0001) % DWORD
  }

  /** Two pixels added in one 32-bit word: the low sum carries into the high one. */
  lemma PairSum(lo: nat, hi: nat, scale: nat, dc: nat)
    requires lo < WORD && hi < WORD && scale <= 1 && dc < WORD
    ensures var t := PairOf(lo, hi, scale, dc);
            && t % WORD == (scale * lo + dc) % WORD
            && t / WORD == (scale * hi + dc + (scale * lo + dc) / WORD) % WORD
  {
    var a, b := scale * lo + dc, scale * hi + dc;
    if scale == 0 {
      assert (lo + WORD * hi) * scale == 0 && a == dc && b == dc;
    } else {
      assert (lo + WORD * hi) * scale == lo + WORD * hi && a == lo + dc && b == hi + dc;
    }
    var x := a + WORD * b;
    var carry, low := a / WORD, a % WORD;
    var over, high := (b + carry) / WORD, (b + carry) % WORD;
    assert x == (low + WORD * high) + DWORD * over;
    DoubleWord(x, low + WORD * high, over);
    SingleWord(low, high);
  }

  lemma PairMoved(last: seq<nat>, row: int, k: nat, lw: nat, scale: nat, dc: nat)
    requires 0 < lw && k % 2 == 0 && scale <= 1 && dc < WORD && At(last, row + k) < WORD && At(last, row + k + 1) < WORD
    ensures var t := PairOf(At(last, row + k), At(last, row + k + 1), scale, dc);
            t % WORD == Moved(last, row, k, lw, scale, dc) && t / WORD == Moved(last, row, k + 1, lw, scale, dc)
  {
    hide At, PairOf;
    PairSum(At(last, row + k), At(last, row + k + 1), scale, dc);
  }

  lemma DoubleWord(x: nat, r: nat, k: nat)
    requires x == r + DWORD * k && r < DWORD
    ensures x % DWORD == r
  {
  }

  lemma SingleWord(low: nat, high: nat)
    requires low < WORD
    ensures (low + WORD * high) % WORD == low && (low + WORD * high) / WORD == high
  {
  }

  /** The offset is added to the odd pixel alone exactly when the even pixel's sum fits 16 bits. */
  lemma OffsetSeparateIff(lo: nat, hi: nat, dc: nat)
    requires lo < WORD && hi < WORD && dc < WORD
    ensures Moved([lo, hi], 0, 0, 1, 1, dc) == (lo + dc) % WORD
    ensures Moved([lo, hi], 0, 1, 1, 1, dc) == (hi + dc) % WORD <==> lo + dc < WORD
  {
    assert (lo + dc) / WORD == if lo + dc < WORD then 0 else 1;
    var h := hi + dc;
    assert h < 2 * WORD;
    assert (h + 1) % WORD != h % WORD;
  }

  /** Moving with scale 0 paints the offset itself. */
  lemma FillMoved(last: seq<nat>, row: int, k: nat, lw: nat, dc: nat)
    requires dc < WORD
    ensures Moved(last, row, k, lw, 0, dc) == dc
  {
  }

  // ----- the whole frame

  /** The leaves of the 8x8 blocks of one block row, from column x on. */
  function RowLeaves(e: Env, c: Cursor, y: nat, x: nat, width: nat): (seq<Leaf>, Cursor)
    requires ValidEnv(e)
    decreases width - x
  {
    if x >= width then ([], c)
    else
      var (a, c1) := Leaves(e, c, y, x, 3, 3);
      var (b, c2) := RowLeaves(e, c1, y, x + 8, width);
      (a + b, c2)
  }

  function FrameLeaves(e: Env, c: Cursor, y: nat, width: nat): (seq<Leaf>, Cursor)
    requires ValidEnv(e)
    decreases e.height - y
  {
    if y >= e.height then ([], c)
    else
      var (a, c1) := RowLeaves(e, c, y, 0, width);
      var (b, c2) := FrameLeaves(e, c1, y + 8, width);
      (a + b, c2)
  }

  lemma {:induction false} RowPartition(e: Env, c: Cursor, y: nat, x: nat, width: nat, i: nat, j: nat)
    requires ValidEnv(e) && x % 8 == 0 && width % 8 == 0 && x <= width
    ensures Cover(RowLeaves(e, c, y, x, width).0, i, j) == if y <= i < y + 8 && x <= j < width then 1 else 0
    decreases width - x
  {
    hide Leaves, Cover, ValidEnv;
    if x < width {
      var (a, c1) := Leaves(e, c, y, x, 3, 3);
      var b := RowLeaves(e, c1, y, x + 8, width).0;
      assert RowLeaves(e, c, y, x, width).0 == a + b;
      LeavesPartition(e, c, y, x, 3, 3, i, j);
      assert Size(3) == 8;
      RowPartition(e, c1, y, x + 8, width, i, j);
      CoverAppend(a, b, i, j);
    } else {
      CoverNone(i, j);
    }
  }

  /** In a picture whose sides are multiples of 8, the leaves of a frame put exactly one leaf over every pixel. */
  lemma {:induction false} FramePartition(e: Env, c: Cursor, y: nat, width: nat, i: nat, j: nat)
    requires ValidEnv(e) && y % 8 == 0 && e.height % 8 == 0 && width % 8 == 0 && y <= e.height
    ensures Cover(FrameLeaves(e, c, y, width).0, i, j) == if y <= i < e.height && j < width then 1 else 0
    decreases e.height - y
  {
    hide RowLeaves, Cover, ValidEnv;
    if y < e.height {
      var (a, c1) := RowLeaves(e, c, y, 0, width);
      var b := FrameLeaves(e, c1, y + 8, width).0;
      assert FrameLeaves(e, c, y, width).0 == a + b;
      RowPartition(e, c, y, 0, width, i, j);
      FramePartition(e, c1, y + 8, width, i, j);
      CoverAppend(a, b, i, j);
    } else {
      CoverNone(i, j);
    }
  }

  lemma {:induction false} RowSound(e: Env, c: Cursor, y: nat, x: nat, width: nat)
    requires ValidEnv(e) && x % 8 == 0 && width % 8 == 0 && x <= width <= e.stride && y + 8 <= e.height
    ensures forall k | 0 <= k < |RowLeaves(e, c, y, x, width).0| :: Sound(e, RowLeaves(e, c, y, x, width).0[k])
    decreases width - x
  {
    hide Leaves, ValidEnv, Sound;
    if x < width {
      assert Size(3) == 8;
      LeavesSound(e, c, y, x, 3, 3);
      RowSound(e, Leaves(e, c, y, x, 3, 3).1, y, x + 8, width);
    }
  }

  lemma {:induction false} FrameSound(e: Env, c: Cursor, y: nat, width: nat)
    requires ValidEnv(e) && y % 8 == 0 && e.height % 8 == 0 && width % 8 == 0 && y <= e.height && width <= e.stride
    ensures forall k | 0 <= k < |FrameLeaves(e, c, y, width).0| :: Sound(e, FrameLeaves(e, c, y, width).0[k])
    decreases e.height - y
  {
    hide RowLeaves, ValidEnv, Sound;
    if y < e.height {
      RowSound(e, c, y, 0, width);
      FrameSound(e, RowLeaves(e, c, y, 0, width).1, y + 8, width);
    }
  }

  lemma {:induction false} CoverWitness(leaves: seq<Leaf>, i: nat, j: nat) returns (k: nat)
    requires Cover(leaves, i, j) > 0
    ensures k < |leaves| && Holds(leaves[k], i, j)
  {
    if Holds(leaves[0], i, j) {
      k := 0;
    } else {
      k := CoverWitness(leaves[1..], i, j);
      k := k + 1;
    }
  }

  /** After a frame, every pixel holds what one sound leaf over it says, and no other leaf touches that pixel. */
  lemma FramePixel(e: Env, width: nat, i: nat, j: nat, v: nat) returns (k: nat)
    requires ValidEnv(e) && e.height % 8 == 0 && width % 8 == 0 && width <= e.stride && i < e.height && j < width
    ensures var leaves := FrameLeaves(e, Cursor(0, 0, 0), 0, width).0;
            && k < |leaves| && Holds(leaves[k], i, j) && Sound(e, leaves[k])
            && PaintAll(e, leaves, i, j, v) == Paint(e, leaves[k], i, j, v)
            && forall n | 0 <= n < |leaves| && n != k :: !Holds(leaves[n], i, j)
  {
    hide ValidEnv, Sound, PaintAll, Paint, FrameLeaves, Cover;
    var leaves := FrameLeaves(e, Cursor(0, 0, 0), 0, width).0;
    FramePartition(e, Cursor(0, 0, 0), 0, width, i, j);
    FrameSound(e, Cursor(0, 0, 0), 0, width);
    k := CoverWitness(leaves, i, j);
    PaintCovered(e, leaves, k, i, j, v);
    forall n | 0 <= n < |leaves| && n != k
      ensures !Holds(leaves[n], i, j)
    {
      if Holds(leaves[n], i, j) {
        CoverTwo(leaves, if n < k then n else k, if n < k then k else n, i, j);
      }
    }
  }

  lemma {:induction false} CoverTwo(leaves: seq<Leaf>, k: nat, n: nat, i: nat, j: nat)
    requires k < n < |leaves| && Holds(leaves[k], i, j) && Holds(leaves[n], i, j)
    ensures Cover(leaves, i, j) >= 2
  {
    if k == 0 {
      CoverHeld(leaves[1..], n - 1, i, j);
    } else {
      CoverTwo(leaves[1..], k - 1, n - 1, i, j);
    }
  }

  /** The decoder of one P frame: stream positions and the picture being written. */
  class Decoder {
    const e: Env
    const picture: array2<nat>
    var bit: nat
    var byte: nat
    var word: nat

    ghost predicate Valid()
      reads this
    {
      && ValidEnv(e) && (forall p | 0 <= p < |e.last| :: e.last[p] < WORD)
      && picture.Length0 == e.height && picture.Length1 == e.stride
    }

    ghost function Position(): Cursor
      reads this
    {
      Cursor(bit, byte, word)
    }

    constructor (e: Env, picture: array2<nat>)
      ensures this.e == e && this.picture == picture && Position() == Cursor(0, 0, 0)
    {
      this.e, this.picture := e, picture;
      bit, byte, word := 0, 0, 0;
    }

    /** Two neighbouring pixels, added in one 32-bit word. */
    method MovePair(y: nat, x: nat, row: int, k: nat, lw: nat, scale: nat, dc: nat)
      requires Valid() && 0 < lw && k % 2 == 0 && y < e.height && x + k + 1 < e.stride && scale <= 1 && dc < WORD
      modifies picture
      ensures picture[y, x + k] == Moved(e.last, row, k, lw, scale, dc)
      ensures picture[y, x + k + 1] == Moved(e.last, row, k + 1, lw, scale, dc)
      ensures forall i, j | 0 <= i < e.height && 0 <= j < e.stride && !(i == y && x + k <= j < x + k + 2) ::
                picture[i, j] == old(picture[i, j])
    {
      hide PairOf, Moved;
      var t := PairOf(At(e.last, row + k), At(e.last, row + k + 1), scale, dc);
      PairMoved(e.last, row, k, lw, scale, dc);
      picture[y, x + k] := t % WORD;
      picture[y, x + k + 1] := t / WORD;
    }

    /** One row of pixels: a single one for the narrowest blocks, pairs for the others. */
    method MoveRow(y: nat, x: nat, row: int, lw: nat, scale: nat, dc: nat)
      requires Valid() && lw <= 3 && y < e.height && x + Size(lw) <= e.stride && scale <= 1 && dc < WORD
      modifies picture
      ensures forall i, j | 0 <= i < e.height && 0 <= j < e.stride ::
                picture[i, j] == if i == y && x <= j < x + Size(lw) then Moved(e.last, row, j - x, lw, scale, dc)
                                 else old(picture[i, j])
    {
      if lw == 0 {
        picture[y, x] := (scale * At(e.last, row) + dc) % WORD;
      } else {
        hide Moved;
        var k := 0;
        while k < Size(lw)
          invariant k % 2 == 0 && k <= Size(lw)
          invariant forall i, j | 0 <= i < e.height && 0 <= j < e.stride ::
                      picture[i, j] == if i == y && x <= j < x + k then Moved(e.last, row, j - x, lw, scale, dc)
                                       else old(picture[i, j])
        {
          MovePair(y, x, row, k, lw, scale, dc);
          k := k + 2;
        }
      }
    }

    /** mcdc: moves a block, or fills it when the scale is 0. */
    method MoveBlock(y: nat, x: nat, src: int, lw: nat, lh: nat, scale: nat, dc: nat)
      requires Valid() && lw <= 3 && lh <= 3 && y + Size(lh) <= e.height && x + Size(lw) <= e.stride
      requires scale <= 1 && dc < WORD
      modifies picture
      ensures forall i, j | 0 <= i < e.height && 0 <= j < e.stride ::
                picture[i, j] == if Inside(i, j, y, x, Size(lw), Size(lh))
                                 then Moved(e.last, src + (if scale == 1 then (i - y) * e.stride else 0), j - x, lw, scale, dc)
                                 else old(picture[i, j])
    {
      var row := src;
      for r := 0 to Size(lh)
        invariant row == src + (if scale == 1 then r * e.stride else 0)
        invariant forall i, j | 0 <= i < e.height && 0 <= j < e.stride ::
                    picture[i, j] == if Inside(i, j, y, x, Size(lw), r)
                                     then Moved(e.last, src + (if scale == 1 then (i - y) * e.stride else 0), j - x, lw, scale, dc)
                                     else old(picture[i, j])
      {
        MoveRow(y + r, x, row, lw, scale, dc);
        if scale == 1 {
          row := row + e.stride;
        }
      }
    }

    /** A block that is not split further. */
    method DecodeLeaf(code: nat, y: nat, x: nat, lw: nat, lh: nat)
      requires Valid() && IsBlock(lw, lh) && (code == 6 ==> lw + lh == 1)
      requires y + Size(lh) <= e.height && x + Size(lw) <= e.stride
      modifies this, picture
      ensures Position() == Act(e, old(Position()), code, y, x, lw, lh).1
      ensures var leaf := Leaf(y, x, lw, lh, Act(e, old(Position()), code, y, x, lw, lh).0);
              forall i, j | 0 <= i < e.height && 0 <= j < e.stride :: picture[i, j] == Paint(e, leaf, i, j, old(picture[i, j]))
    {
      hide Moved;
      var src := y * e.stride + x;
      if code == 0 || code == 4 {
        src := src + e.mv[e.bytes(byte)];
        byte := byte + 1;
        if 0 > src || src > e.stride * (e.height - Size(lh) + 1) - Size(lw) {
          return;
        }
        var dc := 0;
        if code == 4 {
          dc := e.words(word);
          word := word + 1;
        }
        MoveBlock(y, x, src, lw, lh, 1, dc);
      } else if code == 3 && e.version < 2 {
        MoveBlock(y, x, src, lw, lh, 1, 0);
      } else if code == 5 {
        var dc := e.words(word);
        word := word + 1;
        MoveBlock(y, x, src, lw, lh, 0, dc);
        forall row: int, k: nat
          ensures Moved(e.last, row, k, lw, 0, dc) == dc
        {
          FillMoved(e.last, row, k, lw, dc);
        }
      } else if code == 6 {
        picture[y, x] := e.words(word);
        if lw > 0 {
          picture[y, x + 1] := e.words(word + 1);
        } else {
          picture[y + 1, x] := e.words(word + 1);
        }
        word := word + 2;
      }
    }

    /** Splits or paints one block, recursively; its effect is that of its leaves painted in order. */
    method DecodeBlock(y: nat, x: nat, lw: nat, lh: nat)
      requires Valid() && IsBlock(lw, lh) && y + Size(lh) <= e.height && x + Size(lw) <= e.stride
      modifies this, picture
      ensures Position() == Leaves(e, old(Position()), y, x, lw, lh).1
      ensures var leaves := Leaves(e, old(Position()), y, x, lw, lh).0;
              forall i, j | 0 <= i < e.height && 0 <= j < e.stride :: picture[i, j] == PaintAll(e, leaves, i, j, old(picture[i, j]))
      decreases lw + lh
    {
      hide Paint, PaintAll, Leaves, Act, Code;
      ghost var c, c0 := Position(), AfterCode(e, Position(), lw, lh);
      LeavesUnfold(e, c, y, x, lw, lh);
      var code := Code(e, bit, lw, lh);
      bit := bit + CodeLength(e, code, lw, lh);
      if code == 1 {
        ghost var (a, c1) := Leaves(e, c0, y, x, lw, lh - 1);
        ghost var (b, c2) := Leaves(e, c1, y + Size(lh - 1), x, lw, lh - 1);
        DecodeBlock(y, x, lw, lh - 1);
        DecodeBlock(y + Size(lh - 1), x, lw, lh - 1);
        PaintAppendAll(e, a, b);
      } else if code == 2 {
        ghost var (a, c1) := Leaves(e, c0, y, x, lw - 1, lh);
        ghost var (b, c2) := Leaves(e, c1, y, x + Size(lw - 1), lw - 1, lh);
        DecodeBlock(y, x, lw - 1, lh);
        DecodeBlock(y, x + Size(lw - 1), lw - 1, lh);
        PaintAppendAll(e, a, b);
      } else {
        ghost var leaf := Leaf(y, x, lw, lh, Act(e, c0, code, y, x, lw, lh).0);
        DecodeLeaf(code, y, x, lw, lh);
        forall i, j | 0 <= i < e.height && 0 <= j < e.stride
          ensures PaintAll(e, [leaf], i, j, old(picture[i, j])) == Paint(e, leaf, i, j, old(picture[i, j]))
        {
          PaintOne(e, leaf, i, j, old(picture[i, j]));
        }
      }
    }

    /** The 8x8 blocks of a frame, row by row. */
    method DecodeFrame(width: nat)
      requires Valid() && width % 8 == 0 && e.height % 8 == 0 && width <= e.stride
      modifies this, picture
      ensures Position() == FrameLeaves(e, old(Position()), 0, width).1
      ensures var leaves := FrameLeaves(e, old(Position()), 0, width).0;
              forall i, j | 0 <= i < e.height && 0 <= j < e.stride :: picture[i, j] == PaintAll(e, leaves, i, j, old(picture[i, j]))
    {
      hide PaintAll, RowLeaves, FrameLeaves, ValidEnv;
      ghost var c := Position();
      ghost var done: seq<Leaf> := [];
      PaintNothing(e);
      assert [] + FrameLeaves(e, c, 0, width).0 == FrameLeaves(e, c, 0, width).0;
      var y := 0;
      while y < e.height
        invariant y % 8 == 0 && y <= e.height
        invariant FrameLeaves(e, c, 0, width) == (done + FrameLeaves(e, Position(), y, width).0, FrameLeaves(e, Position(), y, width).1)
        invariant forall i, j | 0 <= i < e.height && 0 <= j < e.stride :: picture[i, j] == PaintAll(e, done, i, j, old(picture[i, j]))
      {
        ghost var (row, c1) := RowLeaves(e, Position(), y, 0, width);
        FrameUnfold(e, Position(), y, width);
        DecodeRow(y, width);
        PaintAppendAll(e, done, row);
        assert done + (row + FrameLeaves(e, c1, y + 8, width).0) == (done + row) + FrameLeaves(e, c1, y + 8, width).0;
        done := done + row;
        y := y + 8;
      }
      FrameUnfold(e, Position(), y, width);
      assert done + [] == done;
    }

    method DecodeRow(y: nat, width: nat)
      requires Valid() && width % 8 == 0 && y + 8 <= e.height && width <= e.stride
      modifies this, picture
      ensures Position() == RowLeaves(e, old(Position()), y, 0, width).1
      ensures var leaves := RowLeaves(e, old(Position()), y, 0, width).0;
              forall i, j | 0 <= i < e.height && 0 <= j < e.stride :: picture[i, j] == PaintAll(e, leaves, i, j, old(picture[i, j]))
    {
      hide PaintAll, Leaves;
      ghost var c := Position();
      ghost var done: seq<Leaf> := [];
      PaintNothing(e);
      assert [] + RowLeaves(e, c, y, 0, width).0 == RowLeaves(e, c, y, 0, width).0;
      var x := 0;
      while x < width
        invariant x % 8 == 0 && x <= width
        invariant RowLeaves(e, c, y, 0, width) == (done + RowLeaves(e, Position(), y, x, width).0, RowLeaves(e, Position(), y, x, width).1)
        invariant forall i, j | 0 <= i < e.height && 0 <= j < e.stride :: picture[i, j] == PaintAll(e, done, i, j, old(picture[i, j]))
      {
        ghost var (block, c1) := Leaves(e, Position(), y, x, 3, 3);
        DecodeBlock(y, x, 3, 3);
        PaintAppendAll(e, done, block);
        assert done + (block + RowLeaves(e, c1, y, x + 8, width).0) == (done + block) + RowLeaves(e, c1, y, x + 8, width).0;
        done := done + block;
        x := x + 8;
      }
      assert done + [] == done;
    }
  }

  lemma FrameUnfold(e: Env, c: Cursor, y: nat, width: nat)
    requires ValidEnv(e)
    ensures FrameLeaves(e, c, y, width) ==
            if y < e.height then
              var (a, c1) := RowLeaves(e, c, y, 0, width);
              (a + FrameLeaves(e, c1, y + 8, width).0, FrameLeaves(e, c1, y + 8, width).1)
            else ([], c)
  {
  }

  lemma PaintNothing(e: Env)
    ensures forall i: nat, j: nat, v: nat :: PaintAll(e, [], i, j, v) == v
  {
  }
}
