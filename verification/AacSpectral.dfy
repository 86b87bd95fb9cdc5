/** The noiseless code of quantised AAC coefficients: mixed-radix index, sign bits and escape words. */
module AacSpectral {
  import opened PrefixCode
  import opened Wrappers

  /** Spectral codebooks are numbered 1..11; 11 is the escape codebook. */
  ghost predicate IsBook(cb: nat) {
    1 <= cb <= 11
  }

  function Range(cb: nat): (r: nat)
    ensures r > 0
  {
    if cb <= 4 then 3 else if cb <= 6 then 9 else if cb <= 8 then 8 else if cb <= 10 then 13 else 17
  }

  function MaxVal(cb: nat): nat {
    if cb <= 2 then 1 else if cb <= 4 then 2 else if cb <= 6 then 4 else if cb <= 8 then 7 else if cb <= 10 then 12 else 16
  }

  function Dim(cb: nat): nat {
    if cb < 5 then 4 else 2
  }

  /** A band is a whole number of vectors. */
  predicate Whole(cb: nat, n: nat) {
    n == 0 || (n >= Dim(cb) && Whole(cb, n - Dim(cb)))
  }

  predicate Unsigned(cb: nat) {
    cb == 3 || cb == 4 || cb >= 7
  }

  function Abs(x: int): nat {
    if x < 0 then -x else x
  }

  /** The values a codebook can carry: its range, and up to 8191 in the escape codebook. */
  predicate Fits(cb: nat, v: seq<int>) {
    forall k | 0 <= k < |v| :: Abs(v[k]) <= if cb == 11 then 8191 else MaxVal(cb)
  }

  /** The digit of a value: offset to be non-negative, or its magnitude cut at 16. */
  function Digit(cb: nat, x: int): nat
    requires Unsigned(cb) || x + MaxVal(cb) >= 0
  {
    if !Unsigned(cb) then x + MaxVal(cb) else if Abs(x) < MaxVal(cb) then Abs(x) else MaxVal(cb)
  }

  function Digits(cb: nat, v: seq<int>): (d: seq<nat>)
    requires Fits(cb, v) && cb <= 11
    ensures |d| == |v| && forall k | 0 <= k < |d| :: d[k] < Range(cb)
  {
    seq(|v|, k requires 0 <= k < |v| => Digit(cb, v[k]))
  }

  /** The mixed-radix index of a vector of digits. */
  function Index(cb: nat, digits: seq<nat>): nat {
    if digits == [] then 0 else Index(cb, digits[..|digits| - 1]) * Range(cb) + digits[|digits| - 1]
  }

  function Quotient(cb: nat, i: nat): nat {
    if cb <= 4 then i / 3 else if cb <= 6 then i / 9 else if cb <= 8 then i / 8 else if cb <= 10 then i / 13 else i / 17
  }

  function Remainder(cb: nat, i: nat): nat {
    if cb <= 4 then i % 3 else if cb <= 6 then i % 9 else if cb <= 8 then i % 8 else if cb <= 10 then i % 13 else i % 17
  }

  function FromIndex(cb: nat, index: nat, n: nat): (d: seq<nat>)
    ensures |d| == n
    decreases n
  {
    if n == 0 then [] else FromIndex(cb, Quotient(cb, index), n - 1) + [Remainder(cb, index)]
  }

  lemma RangeDivision(cb: nat, i: nat, d: nat)
    requires d < Range(cb)
    ensures Quotient(cb, i * Range(cb) + d) == i && Remainder(cb, i * Range(cb) + d) == d
  {
  }

  lemma FromIndexStep(cb: nat, i: nat, d: nat, n: nat)
    requires d < Range(cb)
    ensures FromIndex(cb, i * Range(cb) + d, n + 1) == FromIndex(cb, i, n) + [d]
    ensures FromIndex(cb, i, 0) == []
  {
    RangeDivision(cb, i, d);
    hide Range, Quotient, Remainder;
  }

  lemma {:induction false} IndexBack(cb: nat, digits: seq<nat>)
    requires forall k | 0 <= k < |digits| :: digits[k] < Range(cb)
    ensures FromIndex(cb, Index(cb, digits), |digits|) == digits
  {
    hide Range, FromIndex;
    if digits != [] {
      var n := |digits| - 1;
      IndexBack(cb, digits[..n]);
      FromIndexStep(cb, Index(cb, digits[..n]), digits[n], n);
    }
  }

  /** The number of entries of a codebook. */
  function Entries(cb: nat): nat {
    if cb <= 6 then 81 else if cb <= 8 then 64 else if cb <= 10 then 169 else 289
  }

  lemma IndexBound(cb: nat, d: seq<nat>)
    requires IsBook(cb) && |d| == Dim(cb) && forall k | 0 <= k < |d| :: d[k] < Range(cb)
    ensures Index(cb, d) < Entries(cb)
  {
    var r := Range(cb);
    if cb < 5 {
      assert d[..3][..2][..1][..0] == [] && d[..3][..2] == d[..2] && d[..3][..2][..1] == d[..1];
      assert Index(cb, d[..1]) == d[0];
      assert Index(cb, d[..2]) == d[0] * r + d[1];
      assert Index(cb, d[..3]) == (d[0] * r + d[1]) * r + d[2];
    } else {
      assert d[..1][..0] == [] && Index(cb, d[..1]) == d[0];
    }
  }

  // ----- escapes

  function Log2(n: nat): (l: nat)
    requires n > 0
    ensures Pow2(l) <= n < Pow2(l + 1)
  {
    if n == 1 then 0 else Log2(n / 2) + 1
  }

  lemma {:induction false} Log2Range(n: nat)
    requires 16 <= n <= 8191
    ensures 4 <= Log2(n) <= 12
  {
    assert Pow2(4) == 16;
    assert Pow2(13) == 8192;
    if Log2(n) < 4 {
      Pow2Monotone(Log2(n) + 1, 4);
    }
    if Log2(n) > 12 {
      Pow2Monotone(13, Log2(n));
    }
  }

  lemma {:induction false} Pow2Monotone(m: nat, n: nat)
    requires m <= n
    ensures Pow2(m) <= Pow2(n)
  {
    if m < n {
      Pow2Monotone(m, n - 1);
    }
  }

  /** A prefix of len-4 ones and a zero, written as one field, then the value without its leading one. */
  function WriteEscape(c: nat): (w: Word)
    requires 16 <= c <= 8191
    ensures |w| == 2 * Log2(c) - 4 + 1
  {
    Log2Range(c);
    var len := Log2(c);
    ToWord(Pow2(len - 4 + 1) - 2, len - 4 + 1) + ToWord(c % Pow2(len), len)
  }

  /** The number of ones before the first zero, at most 8. */
  function ReadPrefix(stream: Word, n: nat): (r: Option<(nat, Word)>)
    decreases |stream|
  {
    if stream == [] || n > 8 then None
    else if stream[0] then ReadPrefix(stream[1..], n + 1)
    else Some((n, stream[1..]))
  }

  function ReadEscape(stream: Word): Option<(nat, Word)> {
    var p := ReadPrefix(stream, 0);
    if p.None? then None
    else
      var f := GetBits(p.value.1, p.value.0 + 4);
      if f.None? then None else Some((Pow2(p.value.0 + 4) + f.value.0, f.value.1))
  }

  /** n ones, then a zero. */
  function Unary(n: nat): Word {
    if n == 0 then [false] else [true] + Unary(n - 1)
  }

  lemma {:induction false} UnaryIsField(n: nat)
    ensures ToWord(Pow2(n + 1) - 2, n + 1) == Unary(n)
  {
    if n > 0 {
      OnesWord(n);
    }
  }

  /** 2^(n+1)-2 in n+1 bits starts with a one followed by 2^n-2 in n bits. */
  lemma {:induction false} OnesWord(n: nat)
    requires n > 0
    ensures ToWord(Pow2(n + 1) - 2, n + 1) == Unary(n)
  {
    AllOnes(n);
    assert (Pow2(n + 1) - 2) / 2 == Pow2(n) - 1 && (Pow2(n + 1) - 2) % 2 == 0;
    UnaryEnd(n);
  }

  function Ones(n: nat): Word {
    seq(n, _ => true)
  }

  lemma {:induction false} AllOnes(n: nat)
    ensures ToWord(Pow2(n) - 1, n) == Ones(n)
  {
    if n > 0 {
      AllOnes(n - 1);
      assert (Pow2(n) - 1) / 2 == Pow2(n - 1) - 1 && (Pow2(n) - 1) % 2 == 1;
    }
  }

  lemma {:induction false} UnaryEnd(n: nat)
    ensures Unary(n) == Ones(n) + [false]
  {
    if n > 0 {
      UnaryEnd(n - 1);
      assert [true] + Ones(n - 1) == Ones(n);
    }
  }

  lemma {:induction false} PrefixBack(n: nat, m: nat, rest: Word)
    requires n + m <= 8
    ensures ReadPrefix(Unary(n) + rest, m) == Some((n + m, rest))
    decreases n
  {
    var s := Unary(n) + rest;
    if n == 0 {
      assert s[1..] == rest;
    } else {
      assert s[1..] == Unary(n - 1) + rest;
      PrefixBack(n - 1, m + 1, rest);
    }
  }

  lemma TopBit(n: nat)
    ensures Pow2(n + 1) == 2 * Pow2(n)
  {
  }

  lemma DivMod(a: nat, r: nat, d: nat)
    requires d < r
    ensures (a * r + d) / r == a && (a * r + d) % r == d
  {
    var q := (a * r + d) / r;
    TimesMonotone(q, a, r);
    TimesMonotone(a, q, r);
  }

  lemma TimesMonotone(a: int, b: int, r: nat)
    ensures a < b ==> a * r + r <= b * r
  {
    if a < b {
      assert b * r == (a + 1) * r + (b - a - 1) * r;
    }
  }

  lemma EscapeBack(c: nat, rest: Word)
    requires 16 <= c <= 8191
    ensures ReadEscape(WriteEscape(c) + rest) == Some((c, rest))
  {
    hide Pow2, ToWord, GetBits, Unary, ReadPrefix, Log2, Value;
    Log2Range(c);
    LowPart(c);
    var len := Log2(c);
    var low := c - Pow2(len);
    UnaryIsField(len - 4);
    assert WriteEscape(c) + rest == Unary(len - 4) + (ToWord(low, len) + rest);
    PrefixBack(len - 4, 0, ToWord(low, len) + rest);
    GetBack(low, len, rest);
  }

  /** What is left of a number below its top bit. */
  lemma LowPart(c: nat)
    requires c > 0
    ensures Pow2(Log2(c)) <= c && c % Pow2(Log2(c)) == c - Pow2(Log2(c)) < Pow2(Log2(c))
  {
    hide Log2;
    TopBit(Log2(c));
    DivMod(1, Pow2(Log2(c)), c - Pow2(Log2(c)));
  }

  // ----- one vector

  function SignBits(digits: seq<nat>, v: seq<int>): Word
    requires |digits| == |v|
  {
    if v == [] then [] else (if digits[0] != 0 then [v[0] < 0] else []) + SignBits(digits[1..], v[1..])
  }

  function Escapes(digits: seq<nat>, v: seq<int>): Word
    requires |digits| == |v| && forall k | 0 <= k < |v| && digits[k] == 16 :: 16 <= Abs(v[k]) <= 8191
  {
    if v == [] then [] else (if digits[0] == 16 then WriteEscape(Abs(v[0])) else []) + Escapes(digits[1..], v[1..])
  }

  /** The code of one vector: its index, one sign bit for each non-zero value of an unsigned codebook, and the escapes. */
  function WriteVector(cb: nat, codes: seq<Word>, v: seq<int>): Word
    requires IsBook(cb) && |v| == Dim(cb) && Fits(cb, v) && |codes| == Entries(cb)
  {
    var d := Digits(cb, v);
    IndexBound(cb, d);
    codes[Index(cb, d)] +
    (if Unsigned(cb) then SignBits(d, v) else []) +
    if cb == 11 then Escapes(d, v) else []
  }

  function ReadSigns(digits: seq<nat>, stream: Word): (r: Option<(seq<int>, Word)>)
    ensures r.Some? ==> |r.value.0| == |digits|
    decreases |digits|
  {
    if digits == [] then Some(([], stream))
    else if digits[0] == 0 then
      var rest := ReadSigns(digits[1..], stream);
      if rest.None? then None else Some(([0] + rest.value.0, rest.value.1))
    else if stream == [] then None
    else
      var rest := ReadSigns(digits[1..], stream[1..]);
      if rest.None? then None
      else Some(([if stream[0] then -(digits[0] as int) else digits[0] as int] + rest.value.0, rest.value.1))
  }

  /** Replaces every value of magnitude 16 by the escape read for it. */
  function ReadEscapes(v: seq<int>, stream: Word): (r: Option<(seq<int>, Word)>)
    decreases |v|
  {
    if v == [] then Some(([], stream))
    else if Abs(v[0]) != 16 then
      var rest := ReadEscapes(v[1..], stream);
      if rest.None? then None else Some(([v[0]] + rest.value.0, rest.value.1))
    else
      var e := ReadEscape(stream);
      if e.None? then None
      else
        var rest := ReadEscapes(v[1..], e.value.1);
        if rest.None? then None
        else Some(([if v[0] < 0 then -(e.value.0 as int) else e.value.0 as int] + rest.value.0, rest.value.1))
  }

  function ReadVector(cb: nat, codes: seq<Word>, stream: Word): Option<(seq<int>, Word)>
    requires IsBook(cb)
  {
    var s := ReadSymbol(codes, stream);
    if s.None? then None
    else
      var d := FromIndex(cb, s.value.0, Dim(cb));
      if !Unsigned(cb) then
        Some((seq(|d|, k requires 0 <= k < |d| => d[k] - MaxVal(cb)), s.value.1))
      else
        var v := ReadSigns(d, s.value.1);
        if v.None? || cb != 11 then v else ReadEscapes(v.value.0, v.value.1)
  }

  /** The value a digit and a sign stand for before escapes are read. */
  function Signed(digit: nat, x: int): int {
    if x < 0 then -(digit as int) else digit as int
  }

  function SignedAll(digits: seq<nat>, v: seq<int>): (s: seq<int>)
    requires |digits| == |v|
    ensures |s| == |v| && forall k | 0 <= k < |v| :: s[k] == Signed(digits[k], v[k])
  {
    seq(|v|, k requires 0 <= k < |v| => Signed(digits[k], v[k]))
  }

  lemma SignedFirst(digits: seq<nat>, v: seq<int>)
    requires |digits| == |v| && v != []
    ensures SignedAll(digits, v) == [Signed(digits[0], v[0])] + SignedAll(digits[1..], v[1..])
    ensures SignedAll(digits, v)[1..] == SignedAll(digits[1..], v[1..])
  {
    hide Signed;
  }

  lemma {:induction false} SignsBack(digits: seq<nat>, v: seq<int>, rest: Word)
    requires |digits| == |v| && forall k | 0 <= k < |v| :: digits[k] == 0 <==> v[k] == 0
    ensures ReadSigns(digits, SignBits(digits, v) + rest) ==
            Some((SignedAll(digits, v), rest))
    decreases |v|
  {
    hide SignedAll, SignBits, ReadSigns;
    if v == [] {
      NoSigns(rest);
      assert SignedAll(digits, v) == [] && SignBits(digits, v) + rest == rest;
    } else {
      SignsBack(digits[1..], v[1..], rest);
      var tail := SignBits(digits[1..], v[1..]) + rest;
      SignedFirst(digits, v);
      FirstSign(digits, v);
      ReadFirstSign(digits, SignBits(digits, v) + rest);
      if digits[0] == 0 {
        assert SignBits(digits, v) + rest == tail;
      } else {
        assert SignBits(digits, v) + rest == [v[0] < 0] + tail;
        assert ([v[0] < 0] + tail)[1..] == tail;
      }
    }
  }

  lemma NoSigns(rest: Word)
    ensures SignBits([], []) == [] && ReadSigns([], rest) == Some(([], rest))
  {
  }

  lemma FirstSign(digits: seq<nat>, v: seq<int>)
    requires |digits| == |v| && v != []
    ensures SignBits(digits, v) == (if digits[0] != 0 then [v[0] < 0] else []) + SignBits(digits[1..], v[1..])
  {
  }

  lemma ReadFirstSign(digits: seq<nat>, stream: Word)
    requires digits != [] && (digits[0] != 0 ==> stream != [])
    ensures var rest := ReadSigns(digits[1..], if digits[0] == 0 then stream else stream[1..]);
            ReadSigns(digits, stream) ==
              if rest.None? then None
              else Some(([Signed(digits[0], if digits[0] != 0 && stream[0] then -1 else 1)] + rest.value.0, rest.value.1))
  {
  }

  lemma {:induction false} EscapesBack(digits: seq<nat>, v: seq<int>, rest: Word)
    requires |digits| == |v|
    requires forall k | 0 <= k < |v| :: Abs(v[k]) <= 8191 && digits[k] == if Abs(v[k]) < 16 then Abs(v[k]) else 16
    ensures ReadEscapes(SignedAll(digits, v), Escapes(digits, v) + rest) == Some((v, rest))
    decreases |v|
  {
    hide WriteEscape, ReadEscape, SignedAll, Escapes, ReadEscapes;
    if v == [] {
      NoEscapes(rest);
      assert SignedAll(digits, v) == [] && Escapes(digits, v) + rest == rest;
    } else {
      EscapesBack(digits[1..], v[1..], rest);
      var tail := Escapes(digits[1..], v[1..]) + rest;
      FirstEscape(digits, v);
      SignedFirst(digits, v);
      ReadFirst(SignedAll(digits, v), Escapes(digits, v) + rest);
      assert v == [v[0]] + v[1..];
      if digits[0] == 16 {
        assert Escapes(digits, v) + rest == WriteEscape(Abs(v[0])) + tail;
        EscapeBack(Abs(v[0]), tail);
      } else {
        assert Escapes(digits, v) + rest == tail;
      }
    }
  }

  lemma NoEscapes(rest: Word)
    ensures Escapes([], []) == [] && ReadEscapes([], rest) == Some(([], rest))
  {
  }

  lemma FirstEscape(digits: seq<nat>, v: seq<int>)
    requires |digits| == |v| && v != []
    requires forall k | 0 <= k < |v| :: digits[k] == 16 ==> 16 <= Abs(v[k]) <= 8191
    ensures Escapes(digits, v) == (if digits[0] == 16 then WriteEscape(Abs(v[0])) else []) + Escapes(digits[1..], v[1..])
  {
    hide WriteEscape;
  }

  lemma ReadFirst(v: seq<int>, stream: Word)
    requires v != []
    ensures var w := if Abs(v[0]) != 16 then Some((v[0], stream)) else
                       var e := ReadEscape(stream);
                       if e.None? then None
                       else Some((if v[0] < 0 then -(e.value.0 as int) else e.value.0 as int, e.value.1));
            ReadEscapes(v, stream) ==
              if w.None? then None
              else
                var rest := ReadEscapes(v[1..], w.value.1);
                if rest.None? then None else Some(([w.value.0] + rest.value.0, rest.value.1))
  {
    hide ReadEscape;
  }

  /** The 11 codes. */
  ghost predicate IsCode(cb: nat, codes: seq<Word>) {
    IsBook(cb) && |codes| == Entries(cb) && PrefixFree(codes) && forall k | 0 <= k < |codes| :: codes[k] != []
  }

  /** The decoder gets back the values of the vector. */
  lemma VectorBack(cb: nat, codes: seq<Word>, v: seq<int>, rest: Word)
    requires IsCode(cb, codes) && |v| == Dim(cb) && Fits(cb, v)
    ensures ReadVector(cb, codes, WriteVector(cb, codes, v) + rest) == Some((v, rest))
  {
    hide PrefixFree, ReadSymbol, Index, FromIndex, SignBits, Escapes, ReadSigns, ReadEscapes;
    var d := Digits(cb, v);
    var signs := if Unsigned(cb) then SignBits(d, v) else [];
    var escapes := if cb == 11 then Escapes(d, v) else [];
    IndexBound(cb, d);
    IndexBack(cb, d);
    assert WriteVector(cb, codes, v) + rest == codes[Index(cb, d)] + (signs + (escapes + rest));
    ReadSymbolBack(codes, Index(cb, d), signs + (escapes + rest));
    if Unsigned(cb) {
      SignsBack(d, v, escapes + rest);
      if cb == 11 {
        EscapesBack(d, v, rest);
      } else {
        assert SignedAll(d, v) == v;
        assert escapes + rest == rest;
      }
    } else {
      assert seq(|d|, k requires 0 <= k < |d| => d[k] - MaxVal(cb)) == v;
      assert [] + ([] + rest) == rest;
    }
  }

  // ----- what a vector is charged, and a whole band

  /** Quantised values are cut to the largest magnitude the codebook carries. */
  function Clamp(cb: nat, x: int): (y: int) {
    var most := if cb == 11 then 8191 else MaxVal(cb);
    if x > most then most else if x < -(most as int) then -(most as int) else x
  }

  function ClampAll(cb: nat, raw: seq<int>): (v: seq<int>)
    ensures |v| == |raw| && Fits(cb, v)
  {
    seq(|raw|, k requires 0 <= k < |raw| => Clamp(cb, raw[k]))
  }

  /** The rate charged for the values of an unsigned vector beyond its index: a sign bit each, and the escape lengths. */
  function Extra(cb: nat, raw: seq<int>): nat {
    if raw == [] then 0
    else
      (if raw[0] != 0 then 1 else 0) +
      (if cb == 11 && Abs(raw[0]) >= 16 then if Abs(raw[0]) > 8191 then 21 else 2 * Log2(Abs(raw[0])) - 4 + 1 else 0) +
      Extra(cb, raw[1..])
  }

  lemma {:induction false} LogOf8191()
    ensures Log2(8191) == 12
  {
    Log2Range(8191);
    assert Pow2(12) == 4096;
    Pow2Grows(Log2(8191), 12);
  }

  lemma Pow2Grows(m: nat, n: nat)
    ensures m < n ==> Pow2(m + 1) <= Pow2(n)
  {
    if m < n {
      Pow2Monotone(m + 1, n);
    }
  }

  lemma {:induction false} ExtraIsWritten(cb: nat, digits: seq<nat>, raw: seq<int>)
    requires IsBook(cb) && Unsigned(cb) && digits == Digits(cb, ClampAll(cb, raw))
    ensures cb == 11 ==> forall k | 0 <= k < |raw| && digits[k] == 16 :: 16 <= Abs(ClampAll(cb, raw)[k]) <= 8191
    ensures Extra(cb, raw) == |SignBits(digits, ClampAll(cb, raw))| + if cb == 11 then |Escapes(digits, ClampAll(cb, raw))| else 0
    decreases |raw|
  {
    hide Log2;
    if raw != [] {
      assert ClampAll(cb, raw)[1..] == ClampAll(cb, raw[1..]);
      assert digits[1..] == Digits(cb, ClampAll(cb, raw[1..]));
      ExtraIsWritten(cb, digits[1..], raw[1..]);
      LogOf8191();
    }
  }

  /** The rate charged for one vector. */
  function Charge(cb: nat, codes: seq<Word>, raw: seq<int>): nat
    requires IsBook(cb) && |raw| == Dim(cb) && |codes| == Entries(cb)
  {
    var d := Digits(cb, ClampAll(cb, raw));
    IndexBound(cb, d);
    |codes[Index(cb, d)]| + if Unsigned(cb) then Extra(cb, raw) else 0
  }

  /** The bits charged are the bits written. */
  lemma ChargeIsWritten(cb: nat, codes: seq<Word>, raw: seq<int>)
    requires IsBook(cb) && |raw| == Dim(cb) && |codes| == Entries(cb)
    ensures Charge(cb, codes, raw) == |WriteVector(cb, codes, ClampAll(cb, raw))|
  {
    hide Extra, SignBits, Escapes, Index;
    if Unsigned(cb) {
      ExtraIsWritten(cb, Digits(cb, ClampAll(cb, raw)), raw);
    }
  }

  /** A band, vector by vector. */
  function WriteBand(cb: nat, codes: seq<Word>, raw: seq<int>): Word
    requires IsBook(cb) && |codes| == Entries(cb) && Whole(cb, |raw|)
    decreases |raw|
  {
    if raw == [] then []
    else WriteVector(cb, codes, ClampAll(cb, raw[..Dim(cb)])) + WriteBand(cb, codes, raw[Dim(cb)..])
  }

  /** The rate charged for a band, vector by vector. */
  function BandCharge(cb: nat, codes: seq<Word>, raw: seq<int>): nat
    requires IsBook(cb) && |codes| == Entries(cb) && Whole(cb, |raw|)
    decreases |raw|
  {
    if raw == [] then 0
    else Charge(cb, codes, raw[..Dim(cb)]) + BandCharge(cb, codes, raw[Dim(cb)..])
  }

  /** A band is charged what it is written with. */
  lemma BandChargePositive(cb: nat, codes: seq<Word>, raw: seq<int>)
    requires IsCode(cb, codes) && Whole(cb, |raw|) && raw != []
    ensures IsBook(cb) && BandCharge(cb, codes, raw) > 0
  {
    ChargePositive(cb, codes, raw[..Dim(cb)]);
  }

  lemma ChargePositive(cb: nat, codes: seq<Word>, raw: seq<int>)
    requires IsCode(cb, codes) && |raw| == Dim(cb)
    ensures Charge(cb, codes, raw) > 0
  {
    var d := Digits(cb, ClampAll(cb, raw));
    IndexBound(cb, d);
    assert codes[Index(cb, d)] != [];
  }

  lemma {:induction false} BandChargeIsWritten(cb: nat, codes: seq<Word>, raw: seq<int>)
    requires IsBook(cb) && |codes| == Entries(cb) && Whole(cb, |raw|)
    ensures BandCharge(cb, codes, raw) == |WriteBand(cb, codes, raw)|
    decreases |raw|
  {
    hide Charge, WriteVector, ClampAll, Fits;
    if raw != [] {
      ChargeIsWritten(cb, codes, raw[..Dim(cb)]);
      BandChargeIsWritten(cb, codes, raw[Dim(cb)..]);
    }
  }

  /** Code words of at most 12 bits, as those of the escape codebook are. */
  ghost predicate ShortWords(codes: seq<Word>) {
    forall k | 0 <= k < |codes| :: |codes[k]| <= 12
  }

  /** A value of the escape codebook is charged at most a sign and 21 bits beyond its index. */
  lemma {:induction false} ExtraBound(raw: seq<int>)
    ensures Extra(11, raw) <= 22 * |raw|
  {
    if raw != [] {
      ExtraBound(raw[1..]);
      if 16 <= Abs(raw[0]) <= 8191 {
        Log2Range(Abs(raw[0]));
      }
      hide Log2;
    }
  }

  /** Any band costs at most 28 bits a value in the escape codebook. */
  lemma {:induction false} BandChargeBound(codes: seq<Word>, raw: seq<int>)
    requires |codes| == Entries(11) && ShortWords(codes) && Whole(11, |raw|)
    ensures BandCharge(11, codes, raw) <= 28 * |raw|
    decreases |raw|
  {
    hide Extra, ClampAll, Index, Digits, Fits;
    if raw != [] {
      var v := raw[..2];
      ExtraBound(v);
      assert Charge(11, codes, v) <= 56 by { PairCharge(codes, v); }
      BandChargeBound(codes, raw[2..]);
    }
  }

  lemma PairCharge(codes: seq<Word>, v: seq<int>)
    requires |codes| == Entries(11) && |v| == 2
    ensures exists k :: 0 <= k < |codes| && Charge(11, codes, v) == |codes[k]| + Extra(11, v)
  {
    hide Extra, Digits, ClampAll, Index;
    var d := Digits(11, ClampAll(11, v));
    IndexBound(11, d);
    assert Charge(11, codes, v) == |codes[Index(11, d)]| + Extra(11, v);
  }

  /** n equal values. */
  function Equal(x: int, n: nat): (v: seq<int>)
    ensures |v| == n
  {
    seq(n, _ => x)
  }

  /** Larger escapes take longer words: a band of values of at least 32 costs more than one of values in 16..31. */
  lemma {:induction false} LongerEscapes(codes: seq<Word>, u: nat, v: nat, n: nat)
    requires |codes| == Entries(11) && Whole(11, n) && u >= 32 && 16 <= v <= 31
    ensures BandCharge(11, codes, Equal(u, n)) >= BandCharge(11, codes, Equal(v, n)) + 2 * n
    decreases n
  {
    hide Charge;
    if n > 0 {
      LongerEscapes(codes, u, v, n - 2);
      assert Equal(u, n)[2..] == Equal(u, n - 2) && Equal(v, n)[2..] == Equal(v, n - 2);
      assert Equal(u, n)[..2] == Equal(u, 2) && Equal(v, n)[..2] == Equal(v, 2);
      EscapePair(codes, u, v);
    }
  }

  lemma EscapePair(codes: seq<Word>, u: nat, v: nat)
    requires |codes| == Entries(11) && u >= 32 && 16 <= v <= 31
    ensures Charge(11, codes, Equal(u, 2)) >= Charge(11, codes, Equal(v, 2)) + 4
  {
    hide Log2, Extra;
    assert Digits(11, ClampAll(11, Equal(u, 2))) == [16, 16] == Digits(11, ClampAll(11, Equal(v, 2)));
    IndexBound(11, [16, 16]);
    ExtraOfPair(u);
    ExtraOfPair(v);
    LogOfEscapes(u);
    LogOfEscapes(v);
    hide Index, Digits, ClampAll, Fits;
  }

  lemma ExtraOfPair(u: nat)
    requires u >= 16
    ensures Extra(11, Equal(u, 2)) == 2 * (1 + if u > 8191 then 21 else 2 * Log2(u) - 3)
  {
    hide Log2;
    assert [u][1..] == [];
    assert Extra(11, [u]) == 1 + if u > 8191 then 21 else 2 * Log2(u) - 3;
    assert Equal(u, 2)[1..] == [u];
  }

  lemma LogOfEscapes(u: nat)
    ensures 16 <= u <= 31 ==> Log2(u) == 4
    ensures u >= 32 ==> Log2(u) >= 5
  {
    if u >= 16 {
      assert Pow2(4) == 16 && Pow2(5) == 32;
      Pow2Grows(Log2(u), 4);
      Pow2Grows(Log2(u), 5);
      Pow2Grows(4, Log2(u));
      Pow2Grows(5, Log2(u));
    }
  }

  function ReadBand(cb: nat, codes: seq<Word>, stream: Word, n: nat): Option<(seq<int>, Word)>
    requires IsBook(cb) && Whole(cb, n)
    decreases n
  {
    if n == 0 then Some(([], stream))
    else
      var v := ReadVector(cb, codes, stream);
      if v.None? then None
      else
        var rest := ReadBand(cb, codes, v.value.1, n - Dim(cb));
        if rest.None? then None else Some((v.value.0 + rest.value.0, rest.value.1))
  }

  /** The decoder gets back every value of the band, cut to the range of the codebook. */
  lemma {:induction false} BandBack(cb: nat, codes: seq<Word>, raw: seq<int>, rest: Word)
    requires IsCode(cb, codes) && Whole(cb, |raw|)
    ensures ReadBand(cb, codes, WriteBand(cb, codes, raw) + rest, |raw|) == Some((ClampAll(cb, raw), rest))
    decreases |raw|
  {
    hide WriteVector, ReadVector, PrefixFree, Fits, ClampAll;
    if raw == [] {
      assert ClampAll(cb, raw) == [];
      assert WriteBand(cb, codes, raw) + rest == rest;
    } else {
      var n := Dim(cb);
      var v, tail := ClampAll(cb, raw[..n]), WriteBand(cb, codes, raw[n..]) + rest;
      assert WriteBand(cb, codes, raw) + rest == WriteVector(cb, codes, v) + tail;
      VectorBack(cb, codes, v, tail);
      BandBack(cb, codes, raw[n..], rest);
      ClampParts(cb, raw, n);
    }
  }

  lemma ClampParts(cb: nat, raw: seq<int>, n: nat)
    requires n <= |raw|
    ensures ClampAll(cb, raw) == ClampAll(cb, raw[..n]) + ClampAll(cb, raw[n..])
  {
  }

  /** Codes the quantised values of a band and counts the bits charged for them: as many as it writes. */
  method EncodeBand(cb: nat, codes: seq<Word>, raw: seq<int>) returns (out: Word, resbits: nat)
    requires IsCode(cb, codes) && Whole(cb, |raw|)
    ensures out == WriteBand(cb, codes, raw)
    ensures resbits == |out| == BandCharge(cb, codes, raw)
  {
    hide WriteVector, Charge, PrefixFree, Fits, Digits, BandCharge;
    BandChargeIsWritten(cb, codes, raw);
    out, resbits := [], 0;
    var i := 0;
    while i < |raw|
      invariant 0 <= i <= |raw| && Whole(cb, |raw| - i)
      invariant resbits == |out|
      invariant out + WriteBand(cb, codes, raw[i..]) == WriteBand(cb, codes, raw)
    {
      var n := Dim(cb);
      var vec := raw[i..i + n];
      assert raw[i..][..n] == vec && raw[i..][n..] == raw[i + n..];
      var curbits := Charge(cb, codes, vec);
      ChargeIsWritten(cb, codes, vec);
      resbits := resbits + curbits;
      out := out + WriteVector(cb, codes, ClampAll(cb, vec));
      i := i + n;
    }
  }
}
