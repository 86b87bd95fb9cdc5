/** Finite sums, powers of two, binary words and prefix codes. */
module PrefixCode {

  import opened Wrappers

  /** A code word, most significant bit first. */
  type Word = seq<bool>

  function Pow2(n: nat): (p: nat)
    ensures p >= 1
  {
    if n == 0 then 1 else 2 * Pow2(n - 1)
  }

  /** 2 to the power -n, exactly. */
  function Half(n: nat): (h: real)
    ensures h > 0.0
  {
    if n == 0 then 1.0 else Half(n - 1) / 2.0
  }

  /** The number a word stands for. */
  function Value(w: Word): nat {
    if w == [] then 0
    else 2 * Value(w[..|w| - 1]) + if w[|w| - 1] then 1 else 0
  }

  lemma {:induction false} ValueOfCons(b: bool, w: Word)
    ensures Value([b] + w) == (if b then Pow2(|w|) else 0) + Value(w)
  {
    if w == [] {
      assert [b] + w == [b];
    } else {
      ValueOfCons(b, w[..|w| - 1]);
      assert ([b] + w)[..|w|] == [b] + w[..|w| - 1];
    }
  }

  /** The n low bits of v as a word. */
  function ToWord(v: nat, n: nat): (w: Word)
    ensures |w| == n
  {
    if n == 0 then [] else ToWord(v / 2, n - 1) + [v % 2 == 1]
  }

  lemma {:induction false} ToWordBack(v: nat, n: nat)
    requires v < Pow2(n)
    ensures Value(ToWord(v, n)) == v
  {
    if n > 0 {
      ToWordBack(v / 2, n - 1);
      assert ToWord(v, n)[..n - 1] == ToWord(v / 2, n - 1);
    }
  }

  /** Reads an n-bit field. */
  function GetBits(stream: Word, n: nat): (r: Option<(nat, Word)>)
    ensures r.Some? ==> |r.value.1| == |stream| - n
  {
    if |stream| < n then None else Some((Value(stream[..n]), stream[n..]))
  }

  lemma GetBack(v: nat, n: nat, rest: Word)
    requires v < Pow2(n)
    ensures GetBits(ToWord(v, n) + rest, n) == Some((v, rest))
  {
    ToWordBack(v, n);
    var s := ToWord(v, n) + rest;
    assert s[..n] == ToWord(v, n) && s[n..] == rest;
  }

  // ----- sums

  function Sum(s: seq<int>): int {
    if s == [] then 0 else Sum(s[..|s| - 1]) + s[|s| - 1]
  }

  function RealSum(s: seq<real>): real {
    if s == [] then 0.0 else RealSum(s[..|s| - 1]) + s[|s| - 1]
  }

  lemma RealSumSnoc(s: seq<real>, n: nat)
    requires 0 < n <= |s|
    ensures RealSum(s[..n]) == RealSum(s[..n - 1]) + s[n - 1]
  {
    assert s[..n][..n - 1] == s[..n - 1];
  }

  lemma {:induction false} SumUpdate(s: seq<int>, i: nat, v: int)
    requires i < |s|
    ensures Sum(s[i := v]) == Sum(s) - s[i] + v
  {
    var n := |s| - 1;
    if i == n {
      assert s[i := v][..n] == s[..n];
    } else {
      SumUpdate(s[..n], i, v);
      assert s[i := v][..n] == s[..n][i := v];
    }
  }

  lemma {:induction false} RealSumUpdate(s: seq<real>, i: nat, v: real)
    requires i < |s|
    ensures RealSum(s[i := v]) == RealSum(s) - s[i] + v
  {
    var n := |s| - 1;
    if i == n {
      assert s[i := v][..n] == s[..n];
    } else {
      RealSumUpdate(s[..n], i, v);
      assert s[i := v][..n] == s[..n][i := v];
    }
  }

  lemma {:induction false} SumNonNegative(s: seq<int>)
    requires forall i | 0 <= i < |s| :: s[i] >= 0
    ensures Sum(s) >= 0
  {
    if s != [] {
      SumNonNegative(s[..|s| - 1]);
    }
  }

  lemma {:induction false} RealSumNonNegative(s: seq<real>)
    requires forall i | 0 <= i < |s| :: s[i] >= 0.0
    ensures RealSum(s) >= 0.0
  {
    if s != [] {
      RealSumNonNegative(s[..|s| - 1]);
    }
  }

  /** A sum of non-negative terms is at least any two of them. */
  lemma SumAtLeastTwo(s: seq<int>, i: nat, j: nat)
    requires i < |s| && j < |s| && i != j
    requires forall k | 0 <= k < |s| :: s[k] >= 0
    ensures Sum(s) >= s[i] + s[j]
  {
    SumUpdate(s, i, 0);
    SumUpdate(s[i := 0], j, 0);
    SumNonNegative(s[i := 0][j := 0]);
  }

  lemma SumAtLeastOne(s: seq<int>, i: nat)
    requires i < |s|
    requires forall k | 0 <= k < |s| :: s[k] >= 0
    ensures Sum(s) >= s[i]
  {
    SumUpdate(s, i, 0);
    SumNonNegative(s[i := 0]);
  }

  lemma {:induction false} SumAppend(s: seq<int>, t: seq<int>)
    ensures Sum(s + t) == Sum(s) + Sum(t)
  {
    if t == [] {
      assert s + t == s;
    } else {
      SumAppend(s, t[..|t| - 1]);
      assert (s + t)[..|s + t| - 1] == s + t[..|t| - 1];
    }
  }

  lemma {:induction false} SumOfZeros(s: seq<int>)
    requires forall i | 0 <= i < |s| :: s[i] == 0
    ensures Sum(s) == 0
  {
    if s != [] {
      SumOfZeros(s[..|s| - 1]);
    }
  }

  // ----- weighted length assignments

  /** The terms 2^-l of the Kraft sum over the items of non-zero weight. */
  function KraftTerms(weight: seq<nat>, len: seq<nat>): (t: seq<real>)
    requires |weight| == |len|
    ensures |t| == |weight|
  {
    seq(|weight|, i requires 0 <= i < |weight| => if weight[i] > 0 then Half(len[i]) else 0.0)
  }

  function Kraft(weight: seq<nat>, len: seq<nat>): real
    requires |weight| == |len|
  {
    RealSum(KraftTerms(weight, len))
  }

  function CostTerms(weight: seq<nat>, len: seq<nat>): seq<int>
    requires |weight| == |len|
  {
    seq(|weight|, i requires 0 <= i < |weight| => weight[i] * len[i])
  }

  /** The number of bits spent when item i occurs weight[i] times. */
  function Cost(weight: seq<nat>, len: seq<nat>): int
    requires |weight| == |len|
  {
    Sum(CostTerms(weight, len))
  }

  function Lengths(words: seq<Word>): (len: seq<nat>)
    ensures |len| == |words|
  {
    seq(|words|, i requires 0 <= i < |words| => |words[i]|)
  }

  /** No word of an item in use starts another one. */
  ghost predicate PrefixFreeOn(weight: seq<nat>, words: seq<Word>)
    requires |weight| == |words|
  {
    forall s, t | 0 <= s < |words| && 0 <= t < |words| && s != t && weight[s] > 0 && weight[t] > 0 ::
      !(words[s] <= words[t])
  }

  // ----- the Kraft inequality

  function Branch(weight: seq<nat>, words: seq<Word>, b: bool): (r: seq<nat>)
    requires |weight| == |words|
    ensures |r| == |weight|
  {
    seq(|weight|, i requires 0 <= i < |weight| =>
      if weight[i] > 0 && words[i] != [] && words[i][0] == b then 1 else 0)
  }

  function Tails(words: seq<Word>): (r: seq<Word>)
    ensures |r| == |words|
  {
    seq(|words|, i requires 0 <= i < |words| => if words[i] == [] then [] else words[i][1..])
  }

  lemma {:induction false} KraftOfBranches(weight: seq<nat>, words: seq<Word>, n: nat)
    requires |weight| == |words| && n <= |weight|
    requires forall i | 0 <= i < |words| && weight[i] > 0 :: words[i] != []
    ensures RealSum(KraftTerms(weight, Lengths(words))[..n]) ==
            (RealSum(KraftTerms(Branch(weight, words, false), Lengths(Tails(words)))[..n]) +
             RealSum(KraftTerms(Branch(weight, words, true), Lengths(Tails(words)))[..n])) / 2.0
  {
    hide RealSum, KraftTerms, Branch, Tails, Lengths;
    var t := Lengths(Tails(words));
    var k, k0, k1 := KraftTerms(weight, Lengths(words)),
                     KraftTerms(Branch(weight, words, false), t), KraftTerms(Branch(weight, words, true), t);
    if n > 0 {
      KraftOfBranches(weight, words, n - 1);
      KraftOfOne(weight, words, n - 1);
      RealSumSnoc(k, n);
      RealSumSnoc(k0, n);
      RealSumSnoc(k1, n);
    } else {
      NoSum(k);
      NoSum(k0);
      NoSum(k1);
    }
  }

  lemma NoSum(k: seq<real>)
    ensures RealSum(k[..0]) == 0.0
  {
  }

  /** An item's term is halved in the branch it is in. */
  lemma KraftOfOne(weight: seq<nat>, words: seq<Word>, i: nat)
    requires |weight| == |words| && i < |weight| && (weight[i] > 0 ==> words[i] != [])
    ensures var t := Lengths(Tails(words));
            KraftTerms(weight, Lengths(words))[i] ==
            (KraftTerms(Branch(weight, words, false), t)[i] + KraftTerms(Branch(weight, words, true), t)[i]) / 2.0
  {
  }

  lemma {:induction false} KraftOfSingle(weight: seq<nat>, len: seq<nat>, i: nat)
    requires |weight| == |len| && i < |weight|
    requires forall k | 0 <= k < |weight| && k != i :: weight[k] == 0
    ensures Kraft(weight, len) <= 1.0
  {
    var t := KraftTerms(weight, len);
    RealSumUpdate(t, i, 0.0);
    RealSumOfZeros(t[i := 0.0]);
    HalfAtMostOne(len[i]);
  }

  lemma {:induction false} RealSumOfZeros(s: seq<real>)
    requires forall i | 0 <= i < |s| :: s[i] == 0.0
    ensures RealSum(s) == 0.0
  {
    if s != [] {
      RealSumOfZeros(s[..|s| - 1]);
    }
  }

  lemma {:induction false} HalfAtMostOne(n: nat)
    ensures Half(n) <= 1.0
  {
    if n > 0 {
      HalfAtMostOne(n - 1);
    }
  }

  lemma ConsPrefix(b: bool, x: Word, y: Word)
    ensures [b] + x <= [b] + y <==> x <= y
  {
    assert ([b] + x)[1..] == x && ([b] + y)[1..] == y;
    if [b] + x <= [b] + y {
      assert forall i | 0 <= i < |x| :: x[i] == ([b] + x)[i + 1] == ([b] + y)[i + 1] == y[i];
    }
  }

  lemma BranchPrefixFree(weight: seq<nat>, words: seq<Word>, b: bool)
    requires |weight| == |words| && PrefixFreeOn(weight, words)
    ensures PrefixFreeOn(Branch(weight, words, b), Tails(words))
  {
    var w, t := Branch(weight, words, b), Tails(words);
    forall s, n | 0 <= s < |words| && 0 <= n < |words| && s != n && w[s] > 0 && w[n] > 0
      ensures !(t[s] <= t[n])
    {
      assert words[s] == [b] + t[s] && words[n] == [b] + t[n];
      ConsPrefix(b, t[s], t[n]);
    }
  }

  /** The lengths of any prefix-free set of words satisfy the Kraft inequality. */
  lemma {:induction false} KraftInequality(weight: seq<nat>, words: seq<Word>, depth: nat)
    requires |weight| == |words|
    requires forall i | 0 <= i < |words| && weight[i] > 0 :: |words[i]| <= depth
    requires PrefixFreeOn(weight, words)
    ensures Kraft(weight, Lengths(words)) <= 1.0
    decreases depth
  {
    if i :| 0 <= i < |words| && weight[i] > 0 && words[i] == [] {
      KraftOfSingle(weight, Lengths(words), i);
    } else if depth == 0 {
      RealSumOfZeros(KraftTerms(weight, Lengths(words)));
    } else {
      var w0, w1, t := Branch(weight, words, false), Branch(weight, words, true), Tails(words);
      BranchPrefixFree(weight, words, false);
      BranchPrefixFree(weight, words, true);
      KraftInequality(w0, t, depth - 1);
      KraftInequality(w1, t, depth - 1);
      KraftOfBranches(weight, words, |words|);
      var k := KraftTerms(weight, Lengths(words));
      var k0, k1 := KraftTerms(w0, Lengths(t)), KraftTerms(w1, Lengths(t));
      assert k[..|words|] == k && k0[..|words|] == k0 && k1[..|words|] == k1;
    }
  }

  function MaxLength(words: seq<Word>): (m: nat)
    ensures forall i | 0 <= i < |words| :: |words[i]| <= m
  {
    if words == [] then 0
    else
      var m := MaxLength(words[..|words| - 1]);
      var n := |words[|words| - 1]|;
      if m < n then n else m
  }

  // ----- decoding

  /** A prefix code; an empty word means "this symbol is not coded". */
  ghost predicate PrefixFree(codes: seq<Word>) {
    forall s, t | 0 <= s < |codes| && 0 <= t < |codes| && s != t && codes[s] != [] && codes[t] != [] ::
      !(codes[s] <= codes[t])
  }

  /** The first symbol below n whose word starts the stream. */
  function Match(codes: seq<Word>, stream: Word, n: nat): (r: Option<nat>)
    requires n <= |codes|
    ensures r.Some? ==> r.value < n && codes[r.value] != [] && codes[r.value] <= stream
    ensures r.None? ==> forall s | 0 <= s < n :: codes[s] == [] || !(codes[s] <= stream)
  {
    if n == 0 then None
    else
      var r := Match(codes, stream, n - 1);
      if r.Some? then r
      else if codes[n - 1] != [] && codes[n - 1] <= stream then Some(n - 1)
      else None
  }

  /** Reads one symbol; the rest of the stream is returned with it. */
  function ReadSymbol(codes: seq<Word>, stream: Word): (r: Option<(nat, Word)>)
    ensures r.Some? ==> |r.value.1| < |stream| && r.value.0 < |codes|
  {
    var m := Match(codes, stream, |codes|);
    if m.None? then None else Some((m.value, stream[|codes[m.value]|..]))
  }

  lemma PrefixesComparable(x: Word, y: Word, stream: Word)
    requires x <= stream && y <= stream
    ensures x <= y || y <= x
  {
    if |x| <= |y| {
      assert x == stream[..|x|] == y[..|x|];
    } else {
      assert y == stream[..|y|] == x[..|y|];
    }
  }

  lemma {:induction false} ReadSymbolBack(codes: seq<Word>, s: nat, rest: Word)
    requires PrefixFree(codes) && s < |codes| && codes[s] != []
    ensures ReadSymbol(codes, codes[s] + rest) == Some((s, rest))
  {
    var stream := codes[s] + rest;
    assert codes[s] <= stream;
    var m := Match(codes, stream, |codes|);
    PrefixesComparable(codes[m.value], codes[s], stream);
    assert stream[|codes[s]|..] == rest;
  }

  function Encode(codes: seq<Word>, syms: seq<nat>): Word
    requires forall k | 0 <= k < |syms| :: syms[k] < |codes|
  {
    if syms == [] then [] else codes[syms[0]] + Encode(codes, syms[1..])
  }

  function Decode(codes: seq<Word>, stream: Word): Option<seq<nat>>
    decreases |stream|
  {
    if stream == [] then Some([])
    else
      var r := ReadSymbol(codes, stream);
      if r.None? then None
      else
        var rest := Decode(codes, r.value.1);
        if rest.None? then None else Some([r.value.0] + rest.value)
  }

  /** Decoding any concatenation of code words gives back the symbols. */
  lemma {:induction false} DecodeBack(codes: seq<Word>, syms: seq<nat>)
    requires PrefixFree(codes)
    requires forall k | 0 <= k < |syms| :: syms[k] < |codes| && codes[syms[k]] != []
    ensures Decode(codes, Encode(codes, syms)) == Some(syms)
  {
    hide ReadSymbol, PrefixFree;
    if syms != [] {
      var rest := Encode(codes, syms[1..]);
      DecodeBack(codes, syms[1..]);
      ReadSymbolBack(codes, syms[0], rest);
      assert codes[syms[0]] + rest != [];
      assert syms == [syms[0]] + syms[1..];
    }
  }

  // ----- length assignments that satisfy the Kraft inequality

  lemma KraftTermsUpdate(weight: seq<nat>, len: seq<nat>, i: nat, x: nat, l: nat)
    requires |weight| == |len| && i < |weight|
    ensures Kraft(weight[i := x], len[i := l]) ==
            Kraft(weight, len) - (if weight[i] > 0 then Half(len[i]) else 0.0) + (if x > 0 then Half(l) else 0.0)
  {
    var t := KraftTerms(weight, len);
    assert KraftTerms(weight[i := x], len[i := l]) == t[i := if x > 0 then Half(l) else 0.0];
    RealSumUpdate(t, i, if x > 0 then Half(l) else 0.0);
  }

  lemma CostTermsUpdate(weight: seq<nat>, len: seq<nat>, i: nat, x: nat, l: nat)
    requires |weight| == |len| && i < |weight|
    ensures Cost(weight[i := x], len[i := l]) == Cost(weight, len) - weight[i] * len[i] + x * l
  {
    var t := CostTerms(weight, len);
    assert CostTerms(weight[i := x], len[i := l]) == t[i := x * l];
    SumUpdate(t, i, x * l);
  }

  lemma KraftNonNegative(weight: seq<nat>, len: seq<nat>)
    requires |weight| == |len|
    ensures Kraft(weight, len) >= 0.0
  {
    RealSumNonNegative(KraftTerms(weight, len));
  }

  /** Giving the heavier of two items the shorter word costs no more. */
  lemma SwapLengths(weight: seq<nat>, len: seq<nat>, x: nat, y: nat)
    requires |weight| == |len| && x < |len| && y < |len| && weight[y] >= weight[x] > 0 && len[x] <= len[y]
    ensures Kraft(weight, len[x := len[y]][y := len[x]]) == Kraft(weight, len)
    ensures Cost(weight, len[x := len[y]][y := len[x]]) <= Cost(weight, len)
  {
    var lx, ly := len[x], len[y];
    var l1 := len[x := ly];
    assert weight[x := weight[x]] == weight && weight[y := weight[y]] == weight;
    KraftTermsUpdate(weight, len, x, weight[x], ly);
    KraftTermsUpdate(weight, l1, y, weight[y], lx);
    CostTermsUpdate(weight, len, x, weight[x], ly);
    CostTermsUpdate(weight, l1, y, weight[y], lx);
    if x != y {
      Rearrange(weight[x], weight[y], lx, ly);
    }
  }

  lemma Rearrange(wx: nat, wy: nat, lx: nat, ly: nat)
    requires wx <= wy && lx <= ly
    ensures wx * ly + wy * lx <= wx * lx + wy * ly
  {
    assert (wy - wx) * (ly - lx) >= 0;
  }

  /** k copies of h, added up. */
  function Copies(k: nat, h: real): real {
    if k == 0 then 0.0 else Copies(k - 1, h) + h
  }

  lemma {:induction false} CopiesAdd(k: nat, n: nat, h: real)
    ensures Copies(k + n, h) == Copies(k, h) + Copies(n, h)
  {
    if n > 0 {
      CopiesAdd(k, n - 1, h);
    }
  }

  lemma {:induction false} CopiesMonotone(k: nat, n: nat, h: real)
    requires k <= n && h > 0.0
    ensures Copies(k, h) <= Copies(n, h)
  {
    if k < n {
      CopiesMonotone(k, n - 1, h);
    }
  }

  lemma {:induction false} CopiesOfHalves(k: nat, h: real)
    ensures Copies(2 * k, h / 2.0) == Copies(k, h)
  {
    if k > 0 {
      CopiesOfHalves(k - 1, h);
    }
  }

  lemma {:induction false} HalfScale(l: nat, m: nat)
    requires l <= m
    ensures Half(l) == Copies(Pow2(m - l), Half(m))
    decreases m
  {
    if l < m {
      HalfScale(l, m - 1);
      CopiesOfHalves(Pow2(m - 1 - l), Half(m - 1));
    }
  }

  /** When no word is longer than m, the Kraft sum is a multiple of 2^-m. */
  lemma {:induction false} KraftMultiple(weight: seq<nat>, len: seq<nat>, m: nat, n: nat) returns (k: nat)
    requires |weight| == |len| && n <= |len|
    requires forall i | 0 <= i < |len| && weight[i] > 0 :: len[i] <= m
    ensures RealSum(KraftTerms(weight, len)[..n]) == Copies(k, Half(m))
  {
    k := 0;
    if n > 0 {
      var t, h := KraftTerms(weight, len), Half(m);
      k := KraftMultiple(weight, len, m, n - 1);
      RealSumSnoc(t, n);
      if weight[n - 1] > 0 {
        HalfScale(len[n - 1], m);
        CopiesAdd(k, Pow2(m - len[n - 1]), h);
        k := k + Pow2(m - len[n - 1]);
      }
    }
  }

  /** A multiple of 2^-m that is below 1 leaves room for one more. */
  lemma RoomForOneMore(k: nat, m: nat)
    requires Copies(k, Half(m)) < 1.0
    ensures Copies(k, Half(m)) + Half(m) <= 1.0
  {
    HalfScale(0, m);
    if k >= Pow2(m) {
      CopiesMonotone(Pow2(m), k, Half(m));
    }
    CopiesMonotone(k + 1, Pow2(m), Half(m));
  }

  /** A longest word with no equal can be cut to the second greatest length. */
  lemma CutLongest(weight: seq<nat>, len: seq<nat>, a: nat, m: nat)
    requires |weight| == |len| && a < |len| && weight[a] > 0 && Kraft(weight, len) <= 1.0 && m <= len[a]
    requires forall i | 0 <= i < |len| && weight[i] > 0 && i != a :: len[i] <= m
    ensures Kraft(weight, len[a := m]) <= 1.0
    ensures Cost(weight, len[a := m]) <= Cost(weight, len)
  {
    hide RealSum, Half, Sum;
    assert weight[a := weight[a]] == weight && len[a := len[a]] == len;
    KraftTermsUpdate(weight, len, a, 0, len[a]);
    var rest := weight[a := 0];
    var k := KraftMultiple(rest, len, m, |len|);
    assert KraftTerms(rest, len)[..|len|] == KraftTerms(rest, len);
    RoomForOneMore(k, m);
    KraftTermsUpdate(weight, len, a, weight[a], m);
    CostTermsUpdate(weight, len, a, weight[a], m);
    assert weight[a] * m <= weight[a] * len[a];
  }

  ghost predicate TwoLightest(weight: seq<nat>, a: nat, b: nat) {
    && a < |weight| && b < |weight| && a != b && weight[a] > 0 && weight[b] > 0
    && (forall i | 0 <= i < |weight| && weight[i] > 0 :: weight[a] <= weight[i])
    && (forall i | 0 <= i < |weight| && weight[i] > 0 && i != a :: weight[b] <= weight[i])
  }

  lemma {:induction false} Longest(weight: seq<nat>, len: seq<nat>, skip: int, n: nat, seed: nat) returns (p: nat)
    requires |weight| == |len| && n <= |len| && seed < |len| && weight[seed] > 0 && seed != skip
    ensures p < |len| && weight[p] > 0 && p != skip && len[seed] <= len[p]
    ensures forall i | 0 <= i < n && weight[i] > 0 && i != skip :: len[i] <= len[p]
  {
    p := seed;
    if n > 0 {
      p := Longest(weight, len, skip, n - 1, seed);
      if weight[n - 1] > 0 && n - 1 != skip && len[n - 1] > len[p] {
        p := n - 1;
      }
    }
  }

  /** Some admissible lengths, no dearer, give the two lightest items the same, greatest length. */
  lemma SiblingsLongest(weight: seq<nat>, len: seq<nat>, a: nat, b: nat) returns (l: seq<nat>)
    requires |weight| == |len| && TwoLightest(weight, a, b) && Kraft(weight, len) <= 1.0
    ensures |l| == |len| && Kraft(weight, l) <= 1.0 && Cost(weight, l) <= Cost(weight, len) && l[a] == l[b]
  {
    var p := Longest(weight, len, -1, |len|, a);
    SwapLengths(weight, len, a, p);
    var l1 := len[a := len[p]][p := len[a]];
    var q := Longest(weight, l1, a, |len|, b);
    SwapLengths(weight, l1, b, q);
    var l2 := l1[b := l1[q]][q := l1[b]];
    CutLongest(weight, l2, a, l2[b]);
    l := l2[a := l2[b]];
  }

  /** Joining the two lightest items into the unused item j saves exactly their weight. */
  lemma MergeBound(weight: seq<nat>, len: seq<nat>, a: nat, b: nat, j: nat) returns (l: seq<nat>)
    requires |weight| == |len| && TwoLightest(weight, a, b) && j < |len| && weight[j] == 0
    requires Kraft(weight, len) <= 1.0
    ensures |l| == |len|
    ensures Kraft(weight[j := weight[a] + weight[b]][a := 0][b := 0], l) <= 1.0
    ensures Cost(weight[j := weight[a] + weight[b]][a := 0][b := 0], l) + weight[a] + weight[b] <= Cost(weight, len)
  {
    hide Kraft, Cost;
    var l0 := SiblingsLongest(weight, len, a, b);
    var m := l0[a];
    SiblingsNotEmpty(weight, l0, a, b);
    l := JoinSiblings(weight, l0, a, b, j);
  }

  lemma SiblingsNotEmpty(weight: seq<nat>, len: seq<nat>, a: nat, b: nat)
    requires |weight| == |len| && a < |len| && b < |len| && a != b && weight[a] > 0 && weight[b] > 0
    requires len[a] == len[b] && Kraft(weight, len) <= 1.0
    ensures len[a] > 0
  {
    hide Kraft;
    var m := len[a];
    assert len[a := m] == len && len[b := m] == len;
    KraftTermsUpdate(weight, len, a, 0, m);
    KraftTermsUpdate(weight[a := 0], len, b, 0, m);
    KraftNonNegative(weight[a := 0][b := 0], len);
  }

  lemma JoinSiblings(weight: seq<nat>, len: seq<nat>, a: nat, b: nat, j: nat) returns (l: seq<nat>)
    requires |weight| == |len| && a < |len| && b < |len| && a != b && weight[a] > 0 && weight[b] > 0
    requires j < |len| && weight[j] == 0 && len[a] == len[b] > 0
    ensures |l| == |len|
    ensures Kraft(weight[j := weight[a] + weight[b]][a := 0][b := 0], l) == Kraft(weight, len)
    ensures Cost(weight[j := weight[a] + weight[b]][a := 0][b := 0], l) + weight[a] + weight[b] == Cost(weight, len)
  {
    hide Kraft, Cost;
    var m, x := len[a], weight[a] + weight[b];
    l := len[j := m - 1];
    KraftTermsUpdate(weight, len, j, x, m - 1);
    CostTermsUpdate(weight, len, j, x, m - 1);
    var w1 := weight[j := x];
    assert l[a := m] == l && l[b := m] == l;
    KraftTermsUpdate(w1, l, a, 0, m);
    KraftTermsUpdate(w1[a := 0], l, b, 0, m);
    CostTermsUpdate(w1, l, a, 0, m);
    CostTermsUpdate(w1[a := 0], l, b, 0, m);
    SaveBits(weight[a], weight[b], m);
  }

  lemma SaveBits(x: nat, y: nat, m: nat)
    requires m > 0
    ensures (x + y) * (m - 1) + x + y == x * m + y * m
  {
  }
}
