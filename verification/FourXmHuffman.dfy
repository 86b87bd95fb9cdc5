/** The Huffman table of a 4XM intra frame: 257 symbols, merged two lightest at a time inside arrays of 512 nodes. */
module FourXmHuffman {
  import opened PrefixCode
  import opened Wrappers

  const SYMBOLS: nat := 257
  const NODES: nat := 512
  const SENTINEL: nat := 256 * 256

  /** The three work arrays: a node of non-zero frequency is a root; up is -1 at a root. */
  datatype Forest = Forest(freq: seq<nat>, up: seq<int>, flag: seq<bool>)

  /** The byte weights read from the stream, and the end-of-block symbol 256 of weight 1. */
  ghost predicate IsWeights(w: seq<nat>) {
    |w| == SYMBOLS && w[256] == 1 && forall s | 0 <= s < 256 :: w[s] <= 255
  }

  ghost predicate Sized(f: Forest) {
    |f.freq| == |f.up| == |f.flag| == NODES
  }

  /** The arrays when j nodes are in use. */
  ghost predicate Shaped(f: Forest, j: nat) {
    && j <= NODES && Sized(f)
    && (forall i | 0 <= i < NODES :: f.up[i] == -1 || i < f.up[i] < j)
    && (forall i | 0 <= i < NODES && f.freq[i] > 0 :: f.up[i] == -1)
    && (forall i | j <= i < NODES :: f.freq[i] == 0 && f.up[i] == -1)
  }

  function Initial(w: seq<nat>): Forest {
    Forest(w + seq(255, _ => 0), seq(NODES, _ => -1), seq(NODES, _ => false))
  }

  // ----- choosing the two lightest nodes

  /** The node below n, other than skip, of least non-zero frequency; the first one among equals; -1 if there is none. */
  function Lightest(freq: seq<nat>, n: nat, skip: int): (r: int)
    requires n <= |freq|
    ensures -1 <= r < n
    ensures r >= 0 ==> freq[r] > 0 && r != skip
    ensures r >= 0 ==> forall i | 0 <= i < n && i != skip && freq[i] > 0 :: freq[r] < freq[i] || (freq[r] == freq[i] && r <= i)
    ensures r == -1 ==> forall i | 0 <= i < n && i != skip :: freq[i] == 0
  {
    if n == 0 then -1
    else
      var m := Lightest(freq, n - 1, skip);
      if freq[n - 1] == 0 || n - 1 == skip then m
      else if m == -1 || freq[n - 1] < freq[m] then n - 1
      else m
  }

  lemma {:induction false} LightestSkipsNothing(freq: seq<nat>, n: nat, skip: int)
    requires n <= |freq| && (skip < 0 || skip >= n)
    ensures Lightest(freq, n, skip) == Lightest(freq, n, -1)
  {
    if n > 0 {
      LightestSkipsNothing(freq, n - 1, skip);
    }
  }

  /** Joins the roots a and b under the new node j. */
  function Merge(f: Forest, a: nat, b: nat, j: nat): (r: Forest)
    requires Sized(f) && a < j && b < j < NODES
    ensures Sized(r)
  {
    Forest(f.freq[j := f.freq[a] + f.freq[b]][a := 0][b := 0], f.up[a := j][b := j], f.flag[a := false][b := true])
  }

  lemma MergeShaped(f: Forest, a: nat, b: nat, j: nat)
    requires Shaped(f, j) && j < NODES && a < j && b < j && a != b && f.freq[a] > 0 && f.freq[b] > 0
    ensures Shaped(Merge(f, a, b, j), j + 1)
  {
  }

  /** The forest once merging stops: at node 512, or when a second root is missing. */
  function Grow(f: Forest, j: nat): (r: Forest)
    requires Shaped(f, j) && j <= NODES
    ensures Sized(r)
    decreases NODES - j
  {
    if j == NODES then f
    else
      var a := Lightest(f.freq, j, -1);
      var b := Lightest(f.freq, j, a);
      if a == -1 || b == -1 then f
      else
        MergeShaped(f, a, b, j);
        Grow(Merge(f, a, b, j), j + 1)
  }

  lemma InitialShaped(w: seq<nat>)
    requires IsWeights(w)
    ensures Shaped(Initial(w), |w|)
  {
  }

  function Built(w: seq<nat>): (f: Forest)
    requires IsWeights(w)
    ensures Sized(f)
  {
    InitialShaped(w);
    Grow(Initial(w), |w|)
  }

  // ----- reading codes off the parent links

  /** The node reached by following parent links, which only point upwards. */
  function Root(f: Forest, i: nat): (r: nat)
    requires Sized(f) && i < NODES
    ensures r < NODES
    decreases NODES - i
  {
    if i < f.up[i] < NODES then Root(f, f.up[i]) else i
  }

  function Path(f: Forest, i: nat): Word
    requires Sized(f) && i < NODES
    decreases NODES - i
  {
    if i < f.up[i] < NODES then Path(f, f.up[i]) + [f.flag[i]] else []
  }

  /** The code words of the 257 symbols. */
  function Codes(w: seq<nat>): (c: seq<Word>)
    requires IsWeights(w)
    ensures |c| == SYMBOLS
  {
    var f := Built(w);
    seq(SYMBOLS, s requires 0 <= s < SYMBOLS => Path(f, s))
  }

  /** A merge puts one more bit in front of the words below its two nodes and changes no other word. */
  lemma {:induction false} MergePath(f: Forest, a: nat, b: nat, j: nat, i: nat)
    requires Shaped(f, j) && j < NODES && a < j && b < j && a != b && f.freq[a] > 0 && f.freq[b] > 0 && i < j
    ensures Root(f, i) < j
    ensures var r, r', p, p' := Root(f, i), Root(Merge(f, a, b, j), i), Path(f, i), Path(Merge(f, a, b, j), i);
            r' == (if r == a || r == b then j else r) &&
            p' == (if r == a then [false] + p else if r == b then [true] + p else p)
    decreases NODES - i
  {
    hide Root, Path;
    var g := Merge(f, a, b, j);
    MergedNode(f, a, b, j, i);
    Climb(f, i, j);
    Climb(g, i, j + 1);
    if f.up[i] == -1 {
      if i == a || i == b {
        Climb(g, j, j + 1);
      }
    } else {
      MergePath(f, a, b, j, f.up[i]);
      var q := Path(f, f.up[i]);
      assert [false] + (q + [f.flag[i]]) == ([false] + q) + [f.flag[i]];
      assert [true] + (q + [f.flag[i]]) == ([true] + q) + [f.flag[i]];
    }
  }

  lemma Climb(f: Forest, i: nat, j: nat)
    requires Shaped(f, j) && i < j <= NODES
    ensures if f.up[i] == -1 then Root(f, i) == i && Path(f, i) == []
            else i < f.up[i] < j && Root(f, i) == Root(f, f.up[i]) && Path(f, i) == Path(f, f.up[i]) + [f.flag[i]]
  {
  }

  lemma MergedNode(f: Forest, a: nat, b: nat, j: nat, i: nat)
    requires Shaped(f, j) && j < NODES && a < j && b < j && a != b && f.freq[a] > 0 && f.freq[b] > 0 && i < j
    ensures var g := Merge(f, a, b, j);
            && Shaped(g, j + 1) && g.up[j] == -1
            && (if i == a || i == b then f.up[i] == -1 && g.up[i] == j && g.flag[i] == (i == b)
                else g.up[i] == f.up[i] && g.flag[i] == f.flag[i])
  {
    MergeShaped(f, a, b, j);
  }

  // ----- what every merge keeps

  /** The sum over the coded symbols below root r of the chosen term. */
  function WeightBelow(f: Forest, w: seq<nat>, r: nat, n: nat): nat
    requires Sized(f) && n <= |w| <= NODES
  {
    if n == 0 then 0
    else WeightBelow(f, w, r, n - 1) + if w[n - 1] > 0 && Root(f, n - 1) == r then w[n - 1] else 0
  }

  function KraftBelow(f: Forest, w: seq<nat>, r: nat, n: nat): real
    requires Sized(f) && n <= |w| <= NODES
  {
    if n == 0 then 0.0
    else KraftBelow(f, w, r, n - 1) + if w[n - 1] > 0 && Root(f, n - 1) == r then Half(|Path(f, n - 1)|) else 0.0
  }

  /** The bits spent on the first n symbols by the words of the forest. */
  function PathCost(f: Forest, w: seq<nat>, n: nat): nat
    requires Sized(f) && n <= |w| <= NODES
  {
    if n == 0 then 0 else PathCost(f, w, n - 1) + w[n - 1] * |Path(f, n - 1)|
  }

  lemma OneMore(x: nat, l: nat)
    ensures x * (l + 1) == x * l + x
  {
  }

  lemma {:induction false} MergeCost(f: Forest, w: seq<nat>, a: nat, b: nat, j: nat, n: nat)
    requires Shaped(f, j) && j < NODES && a < j && b < j && a != b && f.freq[a] > 0 && f.freq[b] > 0
    requires n <= |w| <= j
    ensures PathCost(Merge(f, a, b, j), w, n) == PathCost(f, w, n) + WeightBelow(f, w, a, n) + WeightBelow(f, w, b, n)
  {
    hide Root, Path, Merge;
    if n > 0 {
      MergeCost(f, w, a, b, j, n - 1);
      assert |Path(Merge(f, a, b, j), n - 1)| ==
             |Path(f, n - 1)| + if Root(f, n - 1) == a || Root(f, n - 1) == b then 1 else 0 by {
        MergePath(f, a, b, j, n - 1);
      }
      OneMore(w[n - 1], |Path(f, n - 1)|);
    }
  }

  lemma {:induction false} MergeBelow(f: Forest, w: seq<nat>, a: nat, b: nat, j: nat, n: nat)
    requires Shaped(f, j) && j < NODES && a < j && b < j && a != b && f.freq[a] > 0 && f.freq[b] > 0
    requires n <= |w| <= j
    ensures WeightBelow(Merge(f, a, b, j), w, j, n) == WeightBelow(f, w, a, n) + WeightBelow(f, w, b, n)
    ensures KraftBelow(Merge(f, a, b, j), w, j, n) == (KraftBelow(f, w, a, n) + KraftBelow(f, w, b, n)) / 2.0
  {
    hide Root, Path, Merge;
    if n > 0 {
      MergeBelow(f, w, a, b, j, n - 1);
      MergePath(f, a, b, j, n - 1);
    }
  }

  lemma {:induction false} MergeElsewhere(f: Forest, w: seq<nat>, a: nat, b: nat, j: nat, r: nat, n: nat)
    requires Shaped(f, j) && j < NODES && a < j && b < j && a != b && f.freq[a] > 0 && f.freq[b] > 0
    requires n <= |w| <= j && r < j && r != a && r != b
    ensures WeightBelow(Merge(f, a, b, j), w, r, n) == WeightBelow(f, w, r, n)
    ensures KraftBelow(Merge(f, a, b, j), w, r, n) == KraftBelow(f, w, r, n)
  {
    hide Root, Path, Merge;
    if n > 0 {
      MergeElsewhere(f, w, a, b, j, r, n - 1);
      MergePath(f, a, b, j, n - 1);
    }
  }

  function Fib(n: nat): nat {
    if n < 2 then n else Fib(n - 1) + Fib(n - 2)
  }

  /** Every root carries the weight, and a Kraft sum of exactly 1, of the symbols below it; words below one root are
      prefix-free; frequencies grow like Fibonacci numbers with the depth. */
  ghost predicate Sound(f: Forest, w: seq<nat>, j: nat) {
    && Shaped(f, j) && |w| == SYMBOLS <= j
    && (forall r | 0 <= r < NODES && f.freq[r] > 0 ::
          f.freq[r] == WeightBelow(f, w, r, SYMBOLS) && KraftBelow(f, w, r, SYMBOLS) == 1.0)
    && (forall s | 0 <= s < SYMBOLS && w[s] > 0 :: f.freq[Root(f, s)] > 0)
    && (forall s | 0 <= s < SYMBOLS && w[s] == 0 :: f.freq[s] == 0 && f.up[s] == -1)
    && (forall s, t | 0 <= s < SYMBOLS && 0 <= t < SYMBOLS && s != t && w[s] > 0 && w[t] > 0 && Root(f, s) == Root(f, t) ::
          !(Path(f, s) <= Path(f, t)))
    && (forall s | 0 <= s < SYMBOLS && w[s] > 0 :: Grown(f, s))
  }

  /** Symbol s at depth d: its root weighs at least F(d+2) and every root at least F(d+1). */
  ghost predicate Grown(f: Forest, s: nat)
    requires Sized(f) && s < NODES
  {
    && f.freq[Root(f, s)] >= Fib(|Path(f, s)| + 2)
    && forall r | 0 <= r < NODES && f.freq[r] > 0 :: f.freq[r] >= Fib(|Path(f, s)| + 1)
  }

  lemma LightestAreTwo(f: Forest, j: nat)
    requires Shaped(f, j)
    ensures var a := Lightest(f.freq, j, -1); var b := Lightest(f.freq, j, a);
            a != -1 && b != -1 ==> TwoLightest(f.freq, a, b)
  {
  }

  lemma {:induction false} MergeGrown(f: Forest, a: nat, b: nat, j: nat, s: nat)
    requires Shaped(f, j) && j < NODES && TwoLightest(f.freq, a, b) && s < j
    requires f.freq[Root(f, s)] > 0 && Grown(f, s)
    ensures Grown(Merge(f, a, b, j), s)
  {
    hide Root, Path, Merge;
    MergePath(f, a, b, j, s);
    var g, d, r := Merge(f, a, b, j), |Path(f, s)|, Root(f, s);
    MergeFreq(f, a, b, j);
    FibStep(d + 1);
    FibStep(d);
    hide Fib;
    assert f.freq[a] >= Fib(d + 1) && f.freq[b] >= Fib(d + 1);
    if r == a || r == b {
      assert |Path(g, s)| == d + 1 && Root(g, s) == j;
      forall x | 0 <= x < NODES && g.freq[x] > 0
        ensures g.freq[x] >= Fib(d + 2)
      {
        assert x == j || f.freq[x] >= f.freq[b] >= f.freq[a];
      }
    } else {
      assert |Path(g, s)| == d && Root(g, s) == r;
    }
  }

  lemma MergeFreq(f: Forest, a: nat, b: nat, j: nat)
    requires Shaped(f, j) && j < NODES && TwoLightest(f.freq, a, b)
    ensures var g := Merge(f, a, b, j);
            && a < j && b < j
            && g.freq[j] == f.freq[a] + f.freq[b] && g.freq[a] == g.freq[b] == 0
            && forall x | 0 <= x < NODES && x != a && x != b && x != j :: g.freq[x] == f.freq[x]
  {
  }

  lemma FibStep(n: nat)
    ensures Fib(n + 2) == Fib(n + 1) + Fib(n)
  {
  }

  lemma MergePrefixFree(f: Forest, a: nat, b: nat, j: nat, s: nat, t: nat)
    requires Shaped(f, j) && j < NODES && TwoLightest(f.freq, a, b) && s < j && t < j
    requires Root(f, s) == Root(f, t) ==> !(Path(f, s) <= Path(f, t))
    ensures a < j && b < j
    ensures var g := Merge(f, a, b, j); Root(g, s) == Root(g, t) ==> !(Path(g, s) <= Path(g, t))
  {
    var g := Merge(f, a, b, j);
    MergePath(f, a, b, j, s);
    MergePath(f, a, b, j, t);
    ConsPrefix(false, Path(f, s), Path(f, t));
    ConsPrefix(true, Path(f, s), Path(f, t));
    hide Root, Path, Merge;
    if Root(g, s) == Root(g, t) && Root(f, s) != Root(f, t) {
      assert Path(g, s) != [] && Path(g, t) != [] && Path(g, s)[0] != Path(g, t)[0];
    }
  }

  lemma {:induction false} MergeSound(f: Forest, w: seq<nat>, a: nat, b: nat, j: nat)
    requires Sound(f, w, j) && j < NODES && TwoLightest(f.freq, a, b)
    ensures Sound(Merge(f, a, b, j), w, j + 1)
  {
    MergeShaped(f, a, b, j);
    var g := Merge(f, a, b, j);
    MergeFreq(f, a, b, j);
    forall r | 0 <= r < NODES && g.freq[r] > 0
      ensures g.freq[r] == WeightBelow(g, w, r, SYMBOLS) && KraftBelow(g, w, r, SYMBOLS) == 1.0
    {
      MergeRoot(f, w, a, b, j, r);
    }
    forall s | 0 <= s < SYMBOLS && w[s] > 0
      ensures g.freq[Root(g, s)] > 0 && Grown(g, s)
    {
      MergePath(f, a, b, j, s);
      MergeGrown(f, a, b, j, s);
    }
    forall s, t | 0 <= s < SYMBOLS && 0 <= t < SYMBOLS && s != t && w[s] > 0 && w[t] > 0 && Root(g, s) == Root(g, t)
      ensures !(Path(g, s) <= Path(g, t))
    {
      MergePrefixFree(f, a, b, j, s, t);
    }
  }

  lemma {:induction false} MergeRoot(f: Forest, w: seq<nat>, a: nat, b: nat, j: nat, r: nat)
    requires Sound(f, w, j) && j < NODES && TwoLightest(f.freq, a, b)
    requires r < NODES && Merge(f, a, b, j).freq[r] > 0
    ensures Merge(f, a, b, j).freq[r] == WeightBelow(Merge(f, a, b, j), w, r, SYMBOLS)
    ensures KraftBelow(Merge(f, a, b, j), w, r, SYMBOLS) == 1.0
  {
    MergeFreq(f, a, b, j);
    if r == j {
      MergeBelow(f, w, a, b, j, SYMBOLS);
    } else {
      assert r < j by { assert f.freq[r] > 0; }
      MergeElsewhere(f, w, a, b, j, r, SYMBOLS);
    }
  }

  // ----- counting roots and weight

  function Present(freq: seq<nat>): (r: seq<int>)
    ensures |r| == |freq|
  {
    seq(|freq|, i requires 0 <= i < |freq| => if freq[i] > 0 then 1 else 0)
  }

  /** The number of non-zero entries. */
  function NonZero(freq: seq<nat>): int {
    Sum(Present(freq))
  }

  lemma MergeCounts(f: Forest, a: nat, b: nat, j: nat)
    requires Shaped(f, j) && j < NODES && TwoLightest(f.freq, a, b)
    ensures a < j && b < j
    ensures NonZero(Merge(f, a, b, j).freq) == NonZero(f.freq) - 1
    ensures Sum(Merge(f, a, b, j).freq) == Sum(f.freq)
    ensures NonZero(f.freq) >= 2
  {
    hide Sum, Present, Shaped;
    MergePresent(f, a, b, j);
    var p, fr, x := Present(f.freq), f.freq, f.freq[a] + f.freq[b];
    SumUpdate(p, j, 1);
    SumUpdate(p[j := 1], a, 0);
    SumUpdate(p[j := 1][a := 0], b, 0);
    SumUpdate(fr, j, x);
    SumUpdate(fr[j := x], a, 0);
    SumUpdate(fr[j := x][a := 0], b, 0);
    SumAtLeastTwo(p, a, b);
  }

  lemma MergePresent(f: Forest, a: nat, b: nat, j: nat)
    requires Shaped(f, j) && j < NODES && TwoLightest(f.freq, a, b)
    ensures a < j && b < j && a != b && f.freq[j] == 0 && |Present(f.freq)| == |f.freq| == NODES
    ensures var p := Present(f.freq);
            && p[a] == p[b] == 1 && p[j] == 0 && (forall i | 0 <= i < |p| :: p[i] >= 0)
            && Present(Merge(f, a, b, j).freq) == p[j := 1][a := 0][b := 0]
    ensures Merge(f, a, b, j).freq == f.freq[j := f.freq[a] + f.freq[b]][a := 0][b := 0]
  {
    MergeFreq(f, a, b, j);
  }

  lemma NoSecond(freq: seq<nat>, a: nat)
    requires a < |freq| && freq[a] > 0 && forall i | 0 <= i < |freq| && i != a :: freq[i] == 0
    ensures NonZero(freq) == 1
  {
    SumUpdate(Present(freq), a, 0);
    SumOfZeros(Present(freq)[a := 0]);
  }

  lemma SoundToEnd(f: Forest, w: seq<nat>, j: nat)
    requires Sound(f, w, j)
    ensures Sound(f, w, NODES)
  {
  }

  lemma GrowStep(f: Forest, w: seq<nat>, a: nat, b: nat, j: nat)
    requires Sound(f, w, j) && j < NODES && a == Lightest(f.freq, j, -1) && b == Lightest(f.freq, j, a)
    ensures Shaped(Merge(f, a, b, j), j + 1) && Sound(Merge(f, a, b, j), w, j + 1)
    ensures NonZero(Merge(f, a, b, j).freq) == NonZero(f.freq) - 1 >= 1
    ensures Sum(Merge(f, a, b, j).freq) == Sum(f.freq)
  {
    LightestAreTwo(f, j);
    MergeCounts(f, a, b, j);
    MergeSound(f, w, a, b, j);
  }

  lemma GrowIs(f: Forest, j: nat)
    requires Shaped(f, j) && j <= NODES
    ensures j == NODES ==> Grow(f, j) == f
    ensures j < NODES ==>
              var a := Lightest(f.freq, j, -1);
              var b := Lightest(f.freq, j, a);
              if a == -1 || b == -1 then Grow(f, j) == f
              else Shaped(Merge(f, a, b, j), j + 1) && Grow(f, j) == Grow(Merge(f, a, b, j), j + 1)
  {
    hide Lightest;
    LightestAreTwo(f, j);
  }

  /** When no second root is found there is one. */
  lemma OneIsLeft(f: Forest, j: nat)
    requires Shaped(f, j) && NonZero(f.freq) >= 1
    ensures Lightest(f.freq, j, -1) != -1
    ensures Lightest(f.freq, j, Lightest(f.freq, j, -1)) == -1 ==> NonZero(f.freq) == 1
  {
    var a := Lightest(f.freq, j, -1);
    if a == -1 {
      SumOfZeros(Present(f.freq));
    } else if Lightest(f.freq, j, a) == -1 {
      NoSecond(f.freq, a);
    }
  }

  /** Growing keeps the forest sound and its weight, and leaves one root unless the 512 nodes run out first. */
  lemma {:induction false} GrowSound(f: Forest, w: seq<nat>, j: nat)
    requires Shaped(f, j) && Sound(f, w, j) && NonZero(f.freq) >= 1
    ensures Sound(Grow(f, j), w, NODES)
    ensures Sum(Grow(f, j).freq) == Sum(f.freq)
    ensures NonZero(Grow(f, j).freq) == if NonZero(f.freq) <= NODES - j then 1 else NonZero(f.freq) - (NODES - j)
    decreases NODES - j
  {
    hide Sound, NonZero, Merge, Grow, Lightest;
    GrowIs(f, j);
    SoundToEnd(f, w, j);
    if j < NODES {
      var a := Lightest(f.freq, j, -1);
      var b := Lightest(f.freq, j, a);
      OneIsLeft(f, j);
      if a != -1 && b != -1 {
        GrowStep(f, w, a, b, j);
        GrowSound(Merge(f, a, b, j), w, j + 1);
      }
    }
  }

  lemma {:induction false} InitialBelow(w: seq<nat>, r: nat, n: nat)
    requires IsWeights(w) && n <= SYMBOLS && r < SYMBOLS && w[r] > 0
    ensures WeightBelow(Initial(w), w, r, n) == if r < n then w[r] else 0
    ensures KraftBelow(Initial(w), w, r, n) == if r < n then 1.0 else 0.0
  {
    if n > 0 {
      InitialBelow(w, r, n - 1);
      assert Root(Initial(w), n - 1) == n - 1 && Path(Initial(w), n - 1) == [];
    }
  }

  lemma InitialCounts(w: seq<nat>)
    requires IsWeights(w)
    ensures NonZero(Initial(w).freq) == NonZero(w) && 1 <= NonZero(w) <= SYMBOLS
    ensures Sum(Initial(w).freq) == Sum(w) <= 256 * 255 + 1
  {
    var z: seq<nat> := seq(255, _ => 0);
    assert Present(Initial(w).freq) == Present(w) + Present(z);
    SumAppend(Present(w), Present(z));
    SumOfZeros(Present(z));
    SumAppend(w, z);
    SumOfZeros(z);
    SumAtLeastOne(Present(w), 256);
    SumBound(Present(w), 1);
    assert w == w[..256] + [w[256]];
    SumBound(w[..256], 255);
  }

  lemma InitialSound(w: seq<nat>)
    requires IsWeights(w)
    ensures Shaped(Initial(w), |w|) && Sound(Initial(w), w, |w|)
  {
    var f := Initial(w);
    InitialShaped(w);
    assert Fib(2) == 1 && Fib(1) == 1;
    forall s | 0 <= s < SYMBOLS
      ensures Root(f, s) == s && Path(f, s) == []
    {
    }
    forall s | 0 <= s < SYMBOLS && w[s] > 0
      ensures Grown(f, s)
    {
    }
    forall r | 0 <= r < NODES && f.freq[r] > 0
      ensures f.freq[r] == WeightBelow(f, w, r, SYMBOLS) && KraftBelow(f, w, r, SYMBOLS) == 1.0
    {
      InitialBelow(w, r, SYMBOLS);
    }
  }

  lemma {:induction false} SumBound(s: seq<int>, m: nat)
    requires forall i | 0 <= i < |s| :: s[i] <= m
    ensures Sum(s) <= |s| * m
  {
    if s != [] {
      SumBound(s[..|s| - 1], m);
      OneMore(m, |s| - 1);
    }
  }

  lemma BuiltSound(w: seq<nat>)
    requires IsWeights(w)
    ensures Sound(Built(w), w, NODES)
    ensures Sum(Built(w).freq) == Sum(w) <= 256 * 255 + 1
    ensures 1 <= NonZero(w) <= SYMBOLS && NonZero(Built(w).freq) == if NonZero(w) <= 256 then 1 else 2
  {
    InitialSound(w);
    InitialCounts(w);
    GrowSound(Initial(w), w, |w|);
  }

  // ----- code lengths

  lemma {:induction false} FibMonotone(m: nat, n: nat)
    requires m <= n
    ensures Fib(m) <= Fib(n)
    decreases n
  {
    if m < n {
      FibMonotone(m, n - 1);
    }
  }

  lemma FibJump(n: nat)
    ensures Fib(n + 6) == 8 * Fib(n + 1) + 5 * Fib(n) && Fib(n + 7) == 13 * Fib(n + 1) + 8 * Fib(n)
  {
    hide Fib;
    FibStep(n);
    FibStep(n + 1);
    FibStep(n + 2);
    FibStep(n + 3);
    FibStep(n + 4);
    FibStep(n + 5);
  }

  lemma FibBig(k: nat, n: nat)
    requires Fib(k) == Fib(k + 1) == 1 && n >= k + 24
    ensures Fib(n) >= 75025
  {
    hide Fib;
    FibMonotone(k + 24, n);
    FibJump(k);
    FibJump(k + 6);
    FibJump(k + 12);
    FibJump(k + 18);
  }

  lemma DepthAtMost22(f: Forest, s: nat)
    requires Sized(f) && s < SYMBOLS && Sum(f.freq) <= 256 * 255 + 1 && Grown(f, s)
    ensures |Path(f, s)| <= 22
  {
    assert Fib(1) == 1 && Fib(2) == 1;
    hide Fib, Sum, Root, Path;
    SumAtLeastOne(f.freq, Root(f, s));
    if |Path(f, s)| >= 23 {
      FibBig(1, |Path(f, s)| + 2);
    }
  }

  /** No code word of any table is longer than 22 bits, so the walk never reaches its overflow message at 32. */
  lemma LengthAtMost22(w: seq<nat>, s: nat)
    requires IsWeights(w) && s < SYMBOLS
    ensures |Codes(w)[s]| <= 22
    ensures w[s] == 0 ==> Codes(w)[s] == []
  {
    hide Built, Sum, Grown;
    BuiltSound(w);
    var f := Built(w);
    if w[s] > 0 {
      DepthAtMost22(f, s);
    } else {
      assert f.up[s] == -1;
    }
  }

  /** Two symbols have the same root whenever only one is left. */
  lemma OneRoot(f: Forest, x: nat, y: nat)
    requires x < |f.freq| && y < |f.freq| && f.freq[x] > 0 && f.freq[y] > 0 && NonZero(f.freq) == 1
    ensures x == y
  {
    if x != y {
      SumAtLeastTwo(Present(f.freq), x, y);
    }
  }

  lemma {:induction false} KraftIsBelow(f: Forest, w: seq<nat>, words: seq<Word>, r: nat, n: nat)
    requires Sized(f) && |w| == |words| == SYMBOLS && n <= SYMBOLS
    requires forall s | 0 <= s < SYMBOLS :: words[s] == Path(f, s)
    requires forall s | 0 <= s < n && w[s] > 0 :: Root(f, s) == r
    ensures RealSum(KraftTerms(w, Lengths(words))[..n]) == KraftBelow(f, w, r, n)
  {
    if n > 0 {
      KraftIsBelow(f, w, words, r, n - 1);
      assert KraftTerms(w, Lengths(words))[..n][..n - 1] == KraftTerms(w, Lengths(words))[..n - 1];
    }
  }

  lemma {:induction false} KraftIsTwoBelow(f: Forest, w: seq<nat>, words: seq<Word>, r: nat, q: nat, n: nat)
    requires Sized(f) && |w| == |words| == SYMBOLS && n <= SYMBOLS && r != q
    requires forall s | 0 <= s < SYMBOLS :: words[s] == Path(f, s)
    ensures RealSum(KraftTerms(w, Lengths(words))[..n]) >= KraftBelow(f, w, r, n) + KraftBelow(f, w, q, n)
  {
    if n > 0 {
      KraftIsTwoBelow(f, w, words, r, q, n - 1);
      assert KraftTerms(w, Lengths(words))[..n][..n - 1] == KraftTerms(w, Lengths(words))[..n - 1];
    }
  }

  /** With at most 256 non-zero weights the words form one full binary tree: their Kraft sum is exactly 1. */
  lemma KraftExact(w: seq<nat>)
    requires IsWeights(w) && NonZero(w) <= 256
    ensures Kraft(w, Lengths(Codes(w))) == 1.0
  {
    hide RealSum, NonZero;
    BuiltSound(w);
    var f := Built(w);
    var r := Root(f, 256);
    forall s | 0 <= s < SYMBOLS && w[s] > 0
      ensures Root(f, s) == r
    {
      OneRoot(f, Root(f, s), r);
    }
    KraftIsBelow(f, w, Codes(w), r, SYMBOLS);
    assert KraftTerms(w, Lengths(Codes(w)))[..SYMBOLS] == KraftTerms(w, Lengths(Codes(w)));
  }

  lemma {:induction false} TwoRoots(freq: seq<nat>) returns (x: nat, y: nat)
    requires NonZero(freq) == 2
    ensures x < |freq| && y < |freq| && x != y && freq[x] > 0 && freq[y] > 0
  {
    if forall i | 0 <= i < |freq| :: freq[i] == 0 {
      SumOfZeros(Present(freq));
    }
    x :| 0 <= x < |freq| && freq[x] > 0;
    if forall i | 0 <= i < |freq| && i != x :: freq[i] == 0 {
      NoSecond(freq, x);
    }
    y :| 0 <= y < |freq| && y != x && freq[y] > 0;
  }

  /** The words are a prefix code exactly when at most 256 weights are non-zero: 257 leaves need a 513th node. */
  lemma PrefixFreeIff(w: seq<nat>)
    requires IsWeights(w)
    ensures PrefixFreeOn(w, Codes(w)) <==> NonZero(w) <= 256
  {
    BuiltSound(w);
    var f := Built(w);
    if NonZero(w) <= 256 {
      forall s, t | 0 <= s < SYMBOLS && 0 <= t < SYMBOLS && s != t && w[s] > 0 && w[t] > 0
        ensures !(Codes(w)[s] <= Codes(w)[t])
      {
        OneRoot(f, Root(f, s), Root(f, t));
      }
    } else if PrefixFreeOn(w, Codes(w)) {
      var x, y := TwoRoots(f.freq);
      KraftIsTwoBelow(f, w, Codes(w), x, y, SYMBOLS);
      assert KraftTerms(w, Lengths(Codes(w)))[..SYMBOLS] == KraftTerms(w, Lengths(Codes(w)));
      KraftInequality(w, Codes(w), MaxLength(Codes(w)));
      assert false;
    }
  }

  /** With 2 to 256 non-zero weights, decoding any run of coded symbols returns those symbols. */
  lemma HuffmanRoundTrip(w: seq<nat>, syms: seq<nat>)
    requires IsWeights(w) && 2 <= NonZero(w) <= 256
    requires forall k | 0 <= k < |syms| :: syms[k] < SYMBOLS && w[syms[k]] > 0
    ensures Decode(Codes(w), Encode(Codes(w), syms)) == Some(syms)
  {
    PrefixFreeIff(w);
    forall s | 0 <= s < SYMBOLS
      ensures Codes(w)[s] != [] <==> w[s] > 0
    {
      LengthAtMost22(w, s);
      if w[s] > 0 && Codes(w)[s] == [] {
        var x, y := s, s;
        forall i | 0 <= i < SYMBOLS && i != s
          ensures w[i] == 0
        {
          assert Codes(w)[s] <= Codes(w)[i];
        }
        NoSecond(w, s);
        assert false;
      }
    }
    DecodeBack(Codes(w), syms);
  }

  // ----- optimality

  /** Whatever the admissible lengths for the roots, the finished words cost no more than today's words plus those lengths. */
  lemma {:induction false} GrowCost(f: Forest, w: seq<nat>, j: nat, len: seq<nat>)
    requires Shaped(f, j) && Sound(f, w, j) && |len| == NODES && Kraft(f.freq, len) <= 1.0
    ensures PathCost(Grow(f, j), w, SYMBOLS) <= PathCost(f, w, SYMBOLS) + Cost(f.freq, len)
    decreases NODES - j
  {
    hide Sound, Kraft, PathCost, Merge, Grow, Lightest;
    SumNonNegative(CostTerms(f.freq, len));
    GrowIs(f, j);
    if j < NODES {
      var a := Lightest(f.freq, j, -1);
      var b := Lightest(f.freq, j, a);
      if a != -1 && b != -1 {
        var l := GrowStepCost(f, w, a, b, j, len);
        GrowCost(Merge(f, a, b, j), w, j + 1, l);
      }
    }
  }

  lemma MergePathCost(f: Forest, w: seq<nat>, a: nat, b: nat, j: nat)
    requires Sound(f, w, j) && j < NODES && TwoLightest(f.freq, a, b)
    ensures a < j && b < j
    ensures PathCost(Merge(f, a, b, j), w, SYMBOLS) == PathCost(f, w, SYMBOLS) + f.freq[a] + f.freq[b]
  {
    MergeFreq(f, a, b, j);
    MergeCost(f, w, a, b, j, SYMBOLS);
  }

  lemma GrowStepCost(f: Forest, w: seq<nat>, a: nat, b: nat, j: nat, len: seq<nat>) returns (l: seq<nat>)
    requires Shaped(f, j) && Sound(f, w, j) && j < NODES && a == Lightest(f.freq, j, -1) && b == Lightest(f.freq, j, a)
    requires |len| == NODES && Kraft(f.freq, len) <= 1.0
    ensures var g := Merge(f, a, b, j);
            && Shaped(g, j + 1) && Sound(g, w, j + 1)
            && |l| == NODES && Kraft(g.freq, l) <= 1.0
            && PathCost(g, w, SYMBOLS) + Cost(g.freq, l) <= PathCost(f, w, SYMBOLS) + Cost(f.freq, len)
  {
    GrowStep(f, w, a, b, j);
    LightestAreTwo(f, j);
    MergePathCost(f, w, a, b, j);
    l := MergeLengths(f, a, b, j, len);
  }

  lemma MergeLengths(f: Forest, a: nat, b: nat, j: nat, len: seq<nat>) returns (l: seq<nat>)
    requires Shaped(f, j) && j < NODES && TwoLightest(f.freq, a, b)
    requires |len| == NODES && Kraft(f.freq, len) <= 1.0
    ensures a < j && b < j && |l| == NODES && Kraft(Merge(f, a, b, j).freq, l) <= 1.0
    ensures Cost(Merge(f, a, b, j).freq, l) + f.freq[a] + f.freq[b] <= Cost(f.freq, len)
  {
    l := MergeBound(f.freq, len, a, b, j);
  }

  lemma {:induction false} PathCostIsCost(f: Forest, w: seq<nat>, words: seq<Word>, n: nat)
    requires Sized(f) && |w| == |words| == SYMBOLS && n <= SYMBOLS
    requires forall s | 0 <= s < SYMBOLS :: words[s] == Path(f, s)
    ensures Sum(CostTerms(w, Lengths(words))[..n]) == PathCost(f, w, n)
  {
    if n > 0 {
      PathCostIsCost(f, w, words, n - 1);
      assert CostTerms(w, Lengths(words))[..n][..n - 1] == CostTerms(w, Lengths(words))[..n - 1];
    }
  }

  lemma {:induction false} InitialPathCost(w: seq<nat>, n: nat)
    requires IsWeights(w) && n <= SYMBOLS
    ensures PathCost(Initial(w), w, n) == 0
  {
    if n > 0 {
      InitialPathCost(w, n - 1);
      assert Path(Initial(w), n - 1) == [];
    }
  }

  /** No prefix code for the weighted symbols spends fewer bits than the table built. */
  lemma HuffmanOptimal(w: seq<nat>, words: seq<Word>)
    requires IsWeights(w) && |words| == SYMBOLS && PrefixFreeOn(w, words)
    ensures Cost(w, Lengths(Codes(w))) <= Cost(w, Lengths(words))
  {
    var f, len, z := Initial(w), Lengths(words), seq(255, _ => 0);
    KraftInequality(w, words, MaxLength(words));
    assert KraftTerms(f.freq, len + z) == KraftTerms(w, len) + seq(255, _ => 0.0);
    RealSumAppendZeros(KraftTerms(w, len), 255);
    assert CostTerms(f.freq, len + z) == CostTerms(w, len) + seq(255, _ => 0);
    SumAppend(CostTerms(w, len), seq(255, _ => 0));
    SumOfZeros(seq(255, _ => 0));
    InitialSound(w);
    GrowCost(f, w, |w|, len + z);
    InitialPathCost(w, SYMBOLS);
    PathCostIsCost(Built(w), w, Codes(w), SYMBOLS);
    assert CostTerms(w, Lengths(Codes(w)))[..SYMBOLS] == CostTerms(w, Lengths(Codes(w)));
  }

  lemma {:induction false} RealSumAppendZeros(s: seq<real>, n: nat)
    ensures RealSum(s + seq(n, _ => 0.0)) == RealSum(s)
  {
    var t := s + seq(n, _ => 0.0);
    if n == 0 {
      assert t == s;
    } else {
      RealSumAppendZeros(s, n - 1);
      assert t[..|t| - 1] == s + seq(n - 1, _ => 0.0);
    }
  }

  // ----- the table builder, on arrays

  /** The scan for the two lightest of the first j nodes; second is SENTINEL when there are fewer than two. */
  method TwoSmallest(freq: array<nat>, j: nat) returns (a: nat, first: nat, b: nat, second: nat)
    requires j <= freq.Length
    requires forall i | 0 <= i < j :: freq[i] < SENTINEL
    ensures second == SENTINEL <==>
            Lightest(freq[..], j, -1) == -1 || Lightest(freq[..], j, Lightest(freq[..], j, -1)) == -1
    ensures second != SENTINEL ==>
            && a == Lightest(freq[..], j, -1) && b == Lightest(freq[..], j, a)
            && first == freq[a] && second == freq[b]
  {
    a, first, b, second := 0, SENTINEL, 0, SENTINEL;
    ghost var fr := freq[..];
    for i := 0 to j
      invariant Lightest(fr, i, -1) == -1 ==> first == SENTINEL && second == SENTINEL
      invariant Lightest(fr, i, -1) != -1 ==>
        && a == Lightest(fr, i, -1) && first == fr[a]
        && (if Lightest(fr, i, a) == -1 then second == SENTINEL else b == Lightest(fr, i, a) && second == fr[b])
    {
      LightestSkipsNothing(fr, i, i);
      if freq[i] == 0 {
        continue;
      }
      if freq[i] < second {
        if freq[i] < first {
          second, b := first, a;
          first, a := freq[i], i;
        } else {
          second, b := freq[i], i;
        }
      }
    }
  }

  lemma BelowSentinel(f: Forest, i: nat)
    requires i < |f.freq| && Sum(f.freq) <= 256 * 255 + 1
    ensures f.freq[i] < SENTINEL
  {
    SumAtLeastOne(f.freq, i);
  }

  /** The forest met at node j on the way to the finished one. */
  ghost predicate Underway(f: Forest, w: seq<nat>, j: nat)
    requires IsWeights(w)
  {
    Shaped(f, j) && Sound(f, w, j) && Grow(f, j) == Built(w) && Sum(f.freq) <= 256 * 255 + 1
  }

  lemma UnderwayInitial(w: seq<nat>)
    requires IsWeights(w)
    ensures Underway(Initial(w), w, |w|)
  {
    InitialSound(w);
    InitialCounts(w);
  }

  lemma UnderwayMerge(f: Forest, w: seq<nat>, a: nat, b: nat, j: nat)
    requires IsWeights(w) && Underway(f, w, j) && j < NODES
    requires a == Lightest(f.freq, j, -1) && b == Lightest(f.freq, j, a)
    ensures Underway(Merge(f, a, b, j), w, j + 1)
  {
    GrowStep(f, w, a, b, j);
  }

  lemma UnderwayFacts(f: Forest, w: seq<nat>, j: nat)
    requires IsWeights(w) && Underway(f, w, j)
    ensures Sized(f) && Sum(f.freq) <= 256 * 255 + 1
  {
  }

  lemma UnderwayEnd(f: Forest, w: seq<nat>, j: nat)
    requires IsWeights(w) && Underway(f, w, j)
    requires j == NODES || Lightest(f.freq, j, -1) == -1 || Lightest(f.freq, j, Lightest(f.freq, j, -1)) == -1
    ensures f == Built(w)
  {
  }

  /** The arrays hold forest f. */
  ghost predicate Holds(frequency: array<nat>, up: array<int>, flag: array<bool>, f: Forest)
    reads frequency, up, flag
  {
    frequency[..] == f.freq && up[..] == f.up && flag[..] == f.flag
  }

  /** One merge in the arrays, or none when fewer than two roots are left. */
  method MergeSmallest(frequency: array<nat>, up: array<int>, flag: array<bool>, ghost f: Forest, j: nat) returns (more: bool)
    requires Sized(f) && Holds(frequency, up, flag, f) && j < NODES && Sum(f.freq) <= 256 * 255 + 1
    modifies frequency, up, flag
    ensures var a := Lightest(f.freq, j, -1); var b := Lightest(f.freq, j, a);
            && (more <==> a != -1 && b != -1)
            && Holds(frequency, up, flag, if more then Merge(f, a, b, j) else f)
  {
    hide Lightest, Sum;
    forall i | 0 <= i < j
      ensures frequency[i] < SENTINEL
    {
      BelowSentinel(f, i);
    }
    var a, first, b, second := TwoSmallest(frequency, j);
    more := second != SENTINEL;
    if more {
      frequency[j] := first + second;
      flag[a] := false;
      flag[b] := true;
      up[a] := j;
      up[b] := j;
      frequency[a] := 0;
      frequency[b] := 0;
    }
  }

  /** Merges until the nodes or the roots run out. */
  method BuildForest(frequency: array<nat>, up: array<int>, flag: array<bool>, ghost w: seq<nat>)
    requires IsWeights(w) && Holds(frequency, up, flag, Initial(w))
    modifies frequency, up, flag
    ensures Holds(frequency, up, flag, Built(w))
  {
    hide Underway, Lightest;
    ghost var f := Initial(w);
    UnderwayInitial(w);
    var j, more := SYMBOLS, true;
    while j < NODES && more
      invariant SYMBOLS <= j <= NODES && Holds(frequency, up, flag, f)
      invariant more ==> Underway(f, w, j)
      invariant !more ==> f == Built(w)
      decreases NODES - j, more
    {
      ghost var a := Lightest(f.freq, j, -1);
      ghost var b := Lightest(f.freq, j, a);
      UnderwayFacts(f, w, j);
      more := MergeSmallest(frequency, up, flag, f, j);
      if more {
        UnderwayMerge(f, w, a, b, j);
        f := Merge(f, a, b, j);
        j := j + 1;
      } else {
        UnderwayEnd(f, w, j);
      }
    }
    if more {
      UnderwayEnd(f, w, j);
    }
  }

  /** Walks from a symbol to its root, collecting the flags as bits from the least significant end. */
  method ReadCode(up: array<int>, flag: array<bool>, ghost f: Forest, j: nat) returns (len: nat, value: nat, overflow: bool)
    requires Shaped(f, NODES) && up[..] == f.up && flag[..] == f.flag && j < NODES
    ensures len == |Path(f, j)| && value == Value(Path(f, j))
    ensures overflow <==> len > 31
  {
    var node := j;
    len, value, overflow := 0, 0, false;
    ghost var tail: Word := [];
    while up[node] != -1
      invariant 0 <= node < NODES
      invariant Path(f, j) == Path(f, node) + tail && len == |tail| && value == Value(tail)
      invariant overflow <==> len > 31
      decreases NODES - node
    {
      assert up[node] == f.up[node] && flag[node] == f.flag[node];
      ValueOfCons(flag[node], tail);
      assert Path(f, f.up[node]) + [f.flag[node]] + tail == Path(f, f.up[node]) + ([f.flag[node]] + tail);
      value := value + if flag[node] then Pow2(len) else 0;
      tail := [flag[node]] + tail;
      len := len + 1;
      if len > 31 {
        overflow := true;
      }
      node := up[node];
    }
    assert up[node] == f.up[node];
    assert Path(f, j) == tail;
  }

  /** Lengths and code values of the 257 symbols, and whether the overflow message was ever reached: it was not. */
  method BuildTables(w: seq<nat>) returns (lens: seq<nat>, bits: seq<nat>, overflow: bool)
    requires IsWeights(w)
    ensures |lens| == |bits| == SYMBOLS
    ensures forall s | 0 <= s < SYMBOLS :: lens[s] == |Codes(w)[s]| && bits[s] == Value(Codes(w)[s])
    ensures !overflow
  {
    var frequency := new nat[NODES](i => if 0 <= i < |w| then w[i] else 0);
    var up := new int[NODES](_ => -1);
    var flag := new bool[NODES](_ => false);
    assert frequency[..] == Initial(w).freq;
    BuildForest(frequency, up, flag, w);
    lens, bits, overflow := ReadTables(up, flag, w);
  }

  method ReadTables(up: array<int>, flag: array<bool>, ghost w: seq<nat>) returns (lens: seq<nat>, bits: seq<nat>, overflow: bool)
    requires IsWeights(w) && up[..] == Built(w).up && flag[..] == Built(w).flag
    ensures |lens| == |bits| == SYMBOLS
    ensures forall s | 0 <= s < SYMBOLS :: lens[s] == |Codes(w)[s]| && bits[s] == Value(Codes(w)[s])
    ensures !overflow
  {
    hide Built, Shaped, Value;
    BuiltShaped(w);
    lens, bits, overflow := [], [], false;
    for j := 0 to SYMBOLS
      invariant |lens| == |bits| == j
      invariant forall s | 0 <= s < j :: lens[s] == |Codes(w)[s]| && bits[s] == Value(Codes(w)[s])
      invariant !overflow
    {
      var len, value, over := ReadCode(up, flag, Built(w), j);
      LengthAtMost22(w, j);
      lens, bits, overflow := lens + [len], bits + [value], overflow || over;
    }
  }

  lemma BuiltShaped(w: seq<nat>)
    requires IsWeights(w)
    ensures Shaped(Built(w), NODES)
  {
    BuiltSound(w);
  }

  // ----- the weights in the stream

  ghost predicate AreBytes(b: seq<nat>) {
    forall i | 0 <= i < |b| :: b[i] <= 255
  }

  /** A run of weights from one symbol on. */
  datatype Range = Range(start: nat, weights: seq<nat>)

  ghost predicate RangeOk(r: Range, first: bool) {
    r.weights != [] && r.start + |r.weights| <= 256 && (first || r.start > 0) && AreBytes(r.weights)
  }

  ghost predicate RangesOk(rs: seq<Range>) {
    rs != [] && forall k | 0 <= k < |rs| :: RangeOk(rs[k], k == 0)
  }

  /** What follows the first symbol of a range: the last one, and the weights. */
  function RangeTail(r: Range): (b: seq<nat>)
    requires r.weights != []
  {
    [r.start + |r.weights| - 1] + r.weights
  }

  /** The first symbol of the next range, or a zero after the last, and all that follows. */
  function WriteRest(rs: seq<Range>): (b: seq<nat>)
    requires forall k | 0 <= k < |rs| :: RangeOk(rs[k], false)
    ensures |b| > 0
  {
    if rs == [] then [0] else assert RangeOk(rs[0], false); [rs[0].start] + (RangeTail(rs[0]) + WriteRest(rs[1..]))
  }

  function WriteRanges(rs: seq<Range>): seq<nat>
    requires RangesOk(rs)
  {
    assert RangeOk(rs[0], true);
    assert forall k | 1 <= k < |rs| :: RangeOk(rs[k], false);
    [rs[0].start] + (RangeTail(rs[0]) + WriteRest(rs[1..]))
  }

  /** Later ranges overwrite earlier ones. */
  function Filled(w: seq<nat>, r: Range): (v: seq<nat>)
    requires r.start + |r.weights| <= |w|
    ensures |v| == |w|
    ensures forall i | 0 <= i < |w| :: v[i] == if r.start <= i < r.start + |r.weights| then r.weights[i - r.start] else w[i]
  {
    w[..r.start] + r.weights + w[r.start + |r.weights|..]
  }

  function FilledAll(w: seq<nat>, rs: seq<Range>): (v: seq<nat>)
    requires |w| == 256 && forall k | 0 <= k < |rs| :: rs[k].start + |rs[k].weights| <= 256
    ensures |v| == 256
    decreases |rs|
  {
    if rs == [] then w else FilledAll(Filled(w, rs[0]), rs[1..])
  }

  /** The ranges read from byte p on, the first symbol of the next being known; None when the bytes end first. A range whose last
      symbol is below its first has no weights. */
  function ParseRanges(buf: seq<nat>, p: nat, start: nat, w: seq<nat>): (r: Option<(seq<nat>, nat)>)
    requires |w| == 256 && AreBytes(buf) && start <= 255
    ensures r.Some? ==> |r.value.0| == 256 && p < r.value.1 <= |buf|
    ensures r.Some? && AreBytes(w) ==> AreBytes(r.value.0)
    decreases |buf| - p
  {
    if p >= |buf| then None
    else
      var n := if buf[p] >= start then buf[p] - start + 1 else 0;
      if p + 1 + n >= |buf| then None
      else
        var v := Filled(w, Range(start, buf[p + 1..p + 1 + n]));
        var next := buf[p + 1 + n];
        if next == 0 then Some((v, p + 2 + n)) else ParseRanges(buf, p + 2 + n, next, v)
  }

  function Aligned(n: nat): (m: nat)
    ensures n <= m < n + 4 && m % 4 == 0
  {
    (n + 3) / 4 * 4
  }

  /** All weights, that of the end symbol being 1, and where the data after them starts, on a word. */
  function ParseWeights(buf: seq<nat>): (r: Option<(seq<nat>, nat)>)
    requires AreBytes(buf)
    ensures r.Some? ==> IsWeights(r.value.0) && r.value.1 % 4 == 0
  {
    if buf == [] then None
    else
      var r := ParseRanges(buf, 1, buf[0], seq(256, _ => 0));
      if r.None? then None else Some((r.value.0 + [1], Aligned(r.value.1)))
  }

  /** These bytes stand at place p. */
  predicate Stands(buf: seq<nat>, p: nat, b: seq<nat>) {
    p + |b| <= |buf| && buf[p..p + |b|] == b
  }

  lemma StandsIn(buf: seq<nat>, p: nat, a: seq<nat>, b: seq<nat>)
    requires Stands(buf, p, a + b)
    ensures Stands(buf, p, a) && Stands(buf, p + |a|, b)
  {
    var c := a + b;
    assert forall i | 0 <= i < |c| :: buf[p + i] == buf[p..p + |c|][i] == c[i];
    assert forall i | 0 <= i < |a| :: buf[p..p + |a|][i] == buf[p + i] == c[i] == a[i];
    forall i | 0 <= i < |b|
      ensures buf[p + |a|..p + |a| + |b|][i] == b[i]
    {
      assert buf[p + (|a| + i)] == c[|a| + i];
    }
  }

  lemma OneRange(buf: seq<nat>, p: nat, w: seq<nat>, r: Range, next: nat)
    requires |w| == 256 && AreBytes(buf) && RangeOk(r, true)
    requires Stands(buf, p, RangeTail(r)) && Stands(buf, p + |RangeTail(r)|, [next])
    ensures next <= 255 && p + |RangeTail(r)| + 1 <= |buf|
    ensures ParseRanges(buf, p, r.start, w) ==
            if next == 0 then Some((Filled(w, r), p + |RangeTail(r)| + 1))
            else ParseRanges(buf, p + |RangeTail(r)| + 1, next, Filled(w, r))
  {
    hide Stands, Filled;
    var n := |r.weights|;
    StandsIn(buf, p, [r.start + n - 1], r.weights);
    StandsOne(buf, p, r.start + n - 1);
    StandsOne(buf, p + 1 + n, next);
    StandsAt(buf, p + 1, r.weights);
  }

  lemma StandsOne(buf: seq<nat>, p: nat, x: nat)
    requires Stands(buf, p, [x])
    ensures p < |buf| && buf[p] == x
  {
    assert buf[p..p + 1][0] == buf[p];
  }

  lemma StandsAt(buf: seq<nat>, p: nat, b: seq<nat>)
    requires Stands(buf, p, b)
    ensures p + |b| <= |buf| && buf[p..p + |b|] == b
  {
  }

  lemma {:induction false} RangesBack(rs: seq<Range>, buf: seq<nat>, p: nat, w: seq<nat>, r: Range)
    requires |w| == 256 && AreBytes(buf) && RangeOk(r, true)
    requires forall k | 0 <= k < |rs| :: RangeOk(rs[k], false)
    requires Stands(buf, p, RangeTail(r) + WriteRest(rs))
    ensures forall k | 0 <= k < |rs| :: rs[k].start + |rs[k].weights| <= 256
    ensures ParseRanges(buf, p, r.start, w) == Some((FilledAll(Filled(w, r), rs), p + |RangeTail(r) + WriteRest(rs)|))
    decreases |rs|
  {
    hide ParseRanges, Stands, AreBytes, Filled, RangeTail;
    assert forall k | 0 <= k < |rs| :: RangeOk(rs[k], false) ==> rs[k].start + |rs[k].weights| <= 256;
    StandsIn(buf, p, RangeTail(r), WriteRest(rs));
    if rs == [] {
      OneRange(buf, p, w, r, 0);
    } else {
      var s := rs[0];
      assert RangeOk(s, false);
      StandsIn(buf, p + |RangeTail(r)|, [s.start], RangeTail(s) + WriteRest(rs[1..]));
      OneRange(buf, p, w, r, s.start);
      RangesBack(rs[1..], buf, p + |RangeTail(r)| + 1, Filled(w, r), s);
    }
  }

  /** Weights written as ranges are read back, and so is where they end. */
  lemma WeightsBack(rs: seq<Range>, rest: seq<nat>)
    requires RangesOk(rs) && AreBytes(WriteRanges(rs) + rest)
    ensures forall k | 0 <= k < |rs| :: rs[k].start + |rs[k].weights| <= 256
    ensures ParseWeights(WriteRanges(rs) + rest)
         == Some((FilledAll(seq(256, _ => 0), rs) + [1], Aligned(|WriteRanges(rs)|)))
  {
    hide ParseRanges, AreBytes, Filled;
    var r, buf := rs[0], WriteRanges(rs) + rest;
    assert RangeOk(r, true) && forall k | 1 <= k < |rs| :: RangeOk(rs[k], false);
    StandsIn(buf, 0, WriteRanges(rs), rest) by {
      assert buf[0..|buf|] == buf;
    }
    StandsIn(buf, 0, [r.start], RangeTail(r) + WriteRest(rs[1..]));
    StartIsByte(buf, r.start);
    RangesBack(rs[1..], buf, 1, seq(256, _ => 0), r);
  }

  lemma StartIsByte(buf: seq<nat>, start: nat)
    requires AreBytes(buf) && Stands(buf, 0, [start])
    ensures buf[0] == start <= 255
  {
    assert buf[0..1][0] == start;
  }

  /** Any weights can be sent. */
  lemma AnyWeights(w: seq<nat>, rest: seq<nat>)
    requires IsWeights(w) && AreBytes(rest)
    ensures AreBytes([0, 255] + w[..256] + [0] + rest)
    ensures ParseWeights([0, 255] + w[..256] + [0] + rest) == Some((w, 260))
  {
    hide ParseWeights, AreBytes, FilledAll, WriteRanges, RangesOk;
    var rs := [Range(0, w[..256])];
    FullRange(w);
    assert AreBytes(WriteRanges(rs) + rest) by {
      BytesJoin([0, 255] + w[..256] + [0], rest);
    }
    WeightsBack(rs, rest);
    assert w[..256] + [1] == w;
  }

  /** One range has them all. */
  lemma FullRange(w: seq<nat>)
    requires IsWeights(w)
    ensures RangesOk([Range(0, w[..256])]) && AreBytes([0, 255] + w[..256] + [0])
    ensures WriteRanges([Range(0, w[..256])]) == [0, 255] + w[..256] + [0]
    ensures FilledAll(seq(256, _ => 0), [Range(0, w[..256])]) == w[..256]
  {
    hide Filled, FilledAll, WriteRanges;
    var r, zeros := Range(0, w[..256]), seq(256, _ => 0);
    assert RangeOk(r, true) && RangesOk([r]);
    WriteOne(r);
    FilledOne(zeros, r);
    assert Filled(zeros, r) == w[..256];
  }

  lemma WriteOne(r: Range)
    requires RangesOk([r])
    ensures r.weights != [] && WriteRanges([r]) == [r.start] + (RangeTail(r) + [0])
  {
    hide AreBytes;
    assert RangeOk([r][0], true);
    assert [r][1..] == [];
  }

  lemma FilledOne(w: seq<nat>, r: Range)
    requires |w| == 256 && r.start + |r.weights| <= 256
    ensures FilledAll(w, [r]) == Filled(w, r)
  {
    hide Filled;
    assert [r][1..] == [];
  }

  lemma BytesJoin(a: seq<nat>, b: seq<nat>)
    requires AreBytes(a) && AreBytes(b)
    ensures AreBytes(a + b)
  {
  }

  /** Reads the weights into the array. */
  method ReadWeights(buf: seq<nat>) returns (r: Option<(seq<nat>, nat)>)
    requires AreBytes(buf)
    ensures r == ParseWeights(buf)
  {
    if buf == [] {
      return None;
    }
    var frequency: seq<nat> := seq(256, _ => 0);
    var p, start := 1, buf[0];
    while true
      invariant 1 <= p <= |buf| && |frequency| == 256 && start <= 255
      invariant ParseRanges(buf, p, start, frequency) == ParseRanges(buf, 1, buf[0], seq(256, _ => 0))
      decreases |buf| - p
    {
      if p >= |buf| {
        return None;
      }
      var end := buf[p];
      var i, q, before := start, p + 1, frequency;
      while i <= end && q < |buf|
        invariant start <= i && (i <= end + 1 || i == start) && q == p + 1 + (i - start) <= |buf| && |frequency| == 256
        invariant forall k | 0 <= k < 256 ::
                    frequency[k] == if start <= k < i then buf[p + 1 + (k - start)] else before[k]
        decreases |buf| - q
      {
        frequency, i, q := frequency[i := buf[q]], i + 1, q + 1;
      }
      if q >= |buf| {
        return None;
      }
      assert frequency == Filled(before, Range(start, buf[p + 1..q]));
      p := q + 1;
      if buf[q] == 0 {
        break;
      }
      start := buf[q];
    }
    r := Some((frequency + [1], Aligned(p)));
  }

  /** The tables of the weights in the stream, and where the data after them starts. */
  method ReadHuffmanTables(buf: seq<nat>) returns (r: Option<(seq<nat>, seq<nat>, nat)>)
    requires AreBytes(buf)
    ensures r.None? <==> ParseWeights(buf).None?
    ensures r.Some? ==>
              var (w, end) := ParseWeights(buf).value;
              && |r.value.0| == |r.value.1| == SYMBOLS && r.value.2 == end
              && forall s | 0 <= s < SYMBOLS :: r.value.0[s] == |Codes(w)[s]| && r.value.1[s] == Value(Codes(w)[s])
  {
    hide ParseRanges, Codes, Value;
    var p := ReadWeights(buf);
    if p.None? {
      return None;
    }
    var lens, bits, overflow := BuildTables(p.value.0);
    r := Some((lens, bits, p.value.1));
  }
}
