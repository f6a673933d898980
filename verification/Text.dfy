/** Strings as the source's library calls see them: splitting on a doubled delimiter
    character (`strings.Split` with "--" or "||"), decimal rendering and `strconv.Atoi`. */
module Text {

  datatype Option<+T> = None | Some(value: T)

  const MAX_INT64 := 0x7FFF_FFFF_FFFF_FFFF

  // ---------------------------------------------------------------- splitting on "dd"

  predicate DoubleAt(s: string, j: int, d: char) {
    0 <= j && j + 1 < |s| && s[j] == d && s[j + 1] == d
  }

  predicate HasDouble(s: string, d: char) {
    exists j :: 0 <= j < |s| && DoubleAt(s, j, d)
  }

  /** The position of the leftmost `dd` in `s`, or `|s|` when there is none. */
  function FindDouble(s: string, d: char): (i: nat)
    ensures i <= |s|
    ensures i < |s| ==> DoubleAt(s, i, d)
    ensures forall j :: j < i ==> !DoubleAt(s, j, d)
  {
    if |s| < 2 then |s|
    else if DoubleAt(s, 0, d) then 0
    else
      assert forall j :: 0 < j ==> DoubleAt(s, j, d) == DoubleAt(s[1..], j - 1, d);
      1 + FindDouble(s[1..], d)
  }

  /** Leftmost, non-overlapping split on `dd`. */
  function Split(s: string, d: char): (parts: seq<string>)
    ensures |parts| >= 1
    decreases |s|
  {
    var i := FindDouble(s, d);
    if i == |s| then [s] else [s[..i]] + Split(s[i + 2..], d)
  }

  /** `parts[len(parts)-1]` of the split; see SplitLast. */
  function LastToken(s: string, d: char): (t: string)
    decreases |s|
  {
    var i := FindDouble(s, d);
    if i == |s| then s else LastToken(s[i + 2..], d)
  }

  lemma {:induction false} SplitLast(s: string, d: char)
    ensures var parts := Split(s, d); parts[|parts| - 1] == LastToken(s, d)
    decreases |s|
  {
    var i := FindDouble(s, d);
    if i < |s| { SplitLast(s[i + 2..], d); }
  }

  predicate EndsWith(s: string, c: char) {
    s != "" && s[|s| - 1] == c
  }

  /** How many copies of `d` end `s`. */
  function TrailingRun(s: string, d: char): (n: nat)
    ensures n <= |s|
  {
    if s == "" || s[|s| - 1] != d then 0 else 1 + TrailingRun(s[..|s| - 1], d)
  }

  lemma {:induction false} FindAt(s: string, d: char, i: nat)
    requires DoubleAt(s, i, d)
    requires forall j :: 0 <= j < i ==> !DoubleAt(s, j, d)
    ensures FindDouble(s, d) == i
  {
  }

  lemma {:induction false} FindNone(s: string, d: char)
    requires forall j :: 0 <= j < |s| ==> !DoubleAt(s, j, d)
    ensures FindDouble(s, d) == |s|
    ensures Split(s, d) == [s]
    ensures LastToken(s, d) == s
  {
  }

  lemma {:induction false} LastTokenNoDouble(s: string, d: char)
    ensures !HasDouble(LastToken(s, d), d)
    decreases |s|
  {
    var i := FindDouble(s, d);
    if i < |s| { LastTokenNoDouble(s[i + 2..], d); }
  }

  /** The last token is a suffix of the string and is empty only when the string ends in `d`. */
  lemma {:induction false} LastTokenSuffix(s: string, d: char)
    ensures var t := LastToken(s, d);
            && |t| <= |s| && s[|s| - |t|..] == t
            && (t == "" ==> s == "" || EndsWith(s, d))
    decreases |s|
  {
    var i := FindDouble(s, d);
    if i < |s| {
      var rest := s[i + 2..];
      LastTokenSuffix(rest, d);
      var t := LastToken(rest, d);
      assert s[|s| - |t|..] == rest[|rest| - |t|..];
    } else {
      assert s[0..] == s;
    }
  }

  /** A first token that neither holds nor ends in the delimiter is cut off exactly. */
  lemma {:induction false} SplitHead(a: string, b: string, d: char)
    requires !HasDouble(a, d) && !EndsWith(a, d)
    ensures Split(a + [d, d] + b, d) == [a] + Split(b, d)
    ensures LastToken(a + [d, d] + b, d) == LastToken(b, d)
  {
    var s := a + [d, d] + b;
    forall j | 0 <= j < |a| ensures !DoubleAt(s, j, d) {
      assert j + 1 < |a| ==> DoubleAt(s, j, d) == DoubleAt(a, j, d);
    }
    FindAt(s, d, |a|);
    assert s[..|a|] == a && s[|a| + 2..] == b;
  }

  /** Appending `dd` and a token without `dd` yields that token back from the split exactly
      when the text before it ends in an even run of the delimiter character. */
  lemma {:induction false} LastTokenAppend(s: string, u: string, d: char)
    requires !HasDouble(u, d)
    ensures LastToken(s + [d, d] + u, d) == u <==> TrailingRun(s, d) % 2 == 0
    decreases |s|
  {
    var r := s + [d, d] + u;
    var i := FindDouble(s, d);
    if i < |s| {
      forall j | 0 <= j < i ensures !DoubleAt(r, j, d) {
        assert DoubleAt(r, j, d) == DoubleAt(s, j, d);
      }
      FindAt(r, d, i);
      var rest := s[i + 2..];
      assert r[i + 2..] == rest + [d, d] + u;
      LastTokenAppend(rest, u, d);
      TrailingRunDrop(s, d);
    } else if EndsWith(s, d) {
      OddTail(s, u, d);
    } else {
      SplitHead(s, u, d);
      FindNone(u, d);
    }
  }

  lemma {:induction false} OddTail(s: string, u: string, d: char)
    requires FindDouble(s, d) == |s| && EndsWith(s, d) && !HasDouble(u, d)
    ensures LastToken(s + [d, d] + u, d) != u && TrailingRun(s, d) % 2 == 1
  {
    var x := s[..|s| - 1];
    assert !DoubleAt(s, |s| - 2, d);
    forall j | 0 <= j < |x| ensures !DoubleAt(x, j, d) {
      assert !DoubleAt(s, j, d);
    }
    var v := [d] + u;
    assert s + [d, d] + u == x + [d, d] + v;
    SplitHead(x, v, d);
    DelimThenToken(u, d);
    assert TrailingRun(x, d) == 0;
  }

  lemma {:induction false} DelimThenToken(u: string, d: char)
    requires !HasDouble(u, d)
    ensures LastToken([d] + u, d) != u
  {
    var v := [d] + u;
    forall j | 0 < j ensures DoubleAt(v, j, d) == DoubleAt(u, j - 1, d) { }
    if DoubleAt(v, 0, d) {
      FindAt(v, d, 0);
      assert v[2..] == u[1..];
      forall j | 0 <= j < |u[1..]| ensures !DoubleAt(u[1..], j, d) {
        assert DoubleAt(u[1..], j, d) == DoubleAt(u, j + 1, d);
      }
      FindNone(u[1..], d);
    } else {
      FindNone(v, d);
    }
  }

  lemma {:induction false} RunOfTwo(x: string, d: char)
    requires !EndsWith(x, d)
    ensures TrailingRun(x + [d, d], d) == 2
  {
    var y := x + [d, d];
    assert y[..|y| - 1] == x + [d];
    var z := x + [d];
    assert z[..|z| - 1] == x;
    assert TrailingRun(z, d) == 1 + TrailingRun(x, d);
  }

  /** Cutting the leftmost `dd` off keeps the parity of the trailing run. */
  lemma {:induction false} TrailingRunDrop(s: string, d: char)
    requires FindDouble(s, d) < |s|
    ensures TrailingRun(s, d) % 2 == TrailingRun(s[FindDouble(s, d) + 2..], d) % 2
  {
    var i: int := FindDouble(s, d);
    var x, rest := s[..i], s[i + 2..];
    assert !DoubleAt(s, i - 1, d);
    RunOfTwo(x, d);
    assert s == (x + [d, d]) + rest;
    RunConcat(x + [d, d], rest, d);
  }

  lemma {:induction false} RunConcat(a: string, b: string, d: char)
    ensures TrailingRun(a + b, d) ==
            if TrailingRun(b, d) == |b| then TrailingRun(a, d) + |b| else TrailingRun(b, d)
    decreases |b|
  {
    if b == "" {
      assert a + b == a;
    } else {
      assert (a + b)[..|a + b| - 1] == a + b[..|b| - 1];
      if b[|b| - 1] == d { RunConcat(a, b[..|b| - 1], d); }
    }
  }

  /** No `dd` straddles the seam when the right part starts with another character. */
  lemma {:induction false} LastTokenConcat(a: string, b: string, d: char)
    requires b != "" && b[0] != d
    ensures LastToken(a + b, d) == if HasDouble(b, d) then LastToken(b, d) else LastToken(a, d) + b
    decreases |a|
  {
    var s := a + b;
    var i := FindDouble(a, d);
    if i < |a| {
      forall j | 0 <= j < i ensures !DoubleAt(s, j, d) {
        assert DoubleAt(s, j, d) == DoubleAt(a, j, d);
      }
      FindAt(s, d, i);
      assert s[i + 2..] == a[i + 2..] + b;
      LastTokenConcat(a[i + 2..], b, d);
    } else {
      LastTokenConcatBase(a, b, d);
    }
  }

  lemma {:induction false} LastTokenConcatBase(a: string, b: string, d: char)
    requires b != "" && b[0] != d && FindDouble(a, d) == |a|
    ensures LastToken(a + b, d) == if HasDouble(b, d) then LastToken(b, d) else LastToken(a, d) + b
  {
    var s := a + b;
    var k := FindDouble(b, d);
    forall j | 0 <= j < |a| ensures !DoubleAt(s, j, d) {
      assert j + 1 < |a| ==> DoubleAt(s, j, d) == DoubleAt(a, j, d);
    }
    forall j | |a| <= j ensures DoubleAt(s, j, d) == DoubleAt(b, j - |a|, d) { }
    if k < |b| {
      FindAt(s, d, |a| + k);
      assert s[|a| + k + 2..] == b[k + 2..];
    } else {
      FindNone(s, d);
    }
  }

  // ---------------------------------------------------------------- decimals

  predicate IsDigit(c: char) { '0' <= c <= '9' }

  predicate AllDigits(s: string) { forall i :: 0 <= i < |s| ==> IsDigit(s[i]) }

  function DigitChar(n: nat): (c: char)
    requires n < 10
    ensures IsDigit(c) && c as int - '0' as int == n
  {
    ('0' as int + n) as char
  }

  /** `%d` of a non-negative integer. */
  function Decimal(n: nat): (s: string)
    ensures s != "" && AllDigits(s)
  {
    if n < 10 then [DigitChar(n)] else Decimal(n / 10) + [DigitChar(n % 10)]
  }

  function DecimalValue(s: string): (n: nat)
    requires AllDigits(s)
  {
    if s == "" then 0
    else 10 * DecimalValue(s[..|s| - 1]) + (s[|s| - 1] as int - '0' as int)
  }

  /** `strconv.Itoa`. */
  function Itoa(n: int): (s: string)
    ensures s != ""
  {
    if n >= 0 then Decimal(n) else "-" + Decimal(-n)
  }

  /** `strconv.Atoi` on a 64-bit platform: an optional sign, digits, and the int64 range. */
  function Atoi(s: string): (r: Option<int>) {
    var signed := s != "" && (s[0] == '-' || s[0] == '+');
    var digits := if signed then s[1..] else s;
    if digits == "" || !AllDigits(digits) then None
    else
      var v: int := DecimalValue(digits);
      var n := if signed && s[0] == '-' then -v else v;
      if -MAX_INT64 - 1 <= n <= MAX_INT64 then Some(n) else None
  }

  lemma {:induction false} DecimalRoundTrip(n: nat)
    ensures DecimalValue(Decimal(n)) == n
  {
    if n >= 10 {
      DecimalRoundTrip(n / 10);
      var s := Decimal(n);
      assert s[..|s| - 1] == Decimal(n / 10);
    }
  }

  /** What else is read as a number: a sign in front, and zeros; what is out of range is none. */
  lemma {:induction false} AtoiReads(n: nat)
    ensures Atoi("+" + Decimal(n)) == Atoi("0" + Decimal(n)) == if n <= 0x7FFF_FFFF_FFFF_FFFF then Some(n) else None
    ensures Atoi("-" + Decimal(n)) == if n <= 0x8000_0000_0000_0000 then Some(0 - n as int) else None
    ensures Atoi("") == Atoi("+") == Atoi("-") == None
  {
    DecimalRoundTrip(n);
    LeadingZero(Decimal(n));
    assert ("+" + Decimal(n))[1..] == Decimal(n) == ("-" + Decimal(n))[1..];
    assert ("0" + Decimal(n))[0] == '0';
  }

  lemma {:induction false} LeadingZero(s: string)
    requires AllDigits(s)
    ensures AllDigits("0" + s) && DecimalValue("0" + s) == DecimalValue(s)
  {
    var t := "0" + s;
    if s == "" {
      assert t[..0] == "";
    } else {
      LeadingZero(s[..|s| - 1]);
      assert t[..|t| - 1] == "0" + s[..|s| - 1];
    }
  }

  /** Reading back what was printed: `Atoi(Itoa(n)) == n` for every int64. */
  lemma {:induction false} AtoiItoa(n: int)
    requires -MAX_INT64 - 1 <= n <= MAX_INT64
    ensures Atoi(Itoa(n)) == Some(n)
  {
    if n >= 0 {
      DecimalRoundTrip(n);
      assert IsDigit(Decimal(n)[0]);
    } else {
      DecimalRoundTrip(-n);
      assert Itoa(n)[1..] == Decimal(-n);
    }
  }

  function Pow10(k: nat): (p: nat)
    ensures p > 0
  {
    if k == 0 then 1 else 10 * Pow10(k - 1)
  }

  lemma {:induction false} DecimalLength(n: nat, k: nat)
    requires k > 0 && n < Pow10(k)
    ensures |Decimal(n)| <= k
  {
    if n >= 10 {
      assert Pow10(k) == 10 * Pow10(k - 1);
      DecimalLength(n / 10, k - 1);
    }
  }

  lemma {:induction false} DecimalInt64Length(n: nat)
    requires n <= MAX_INT64
    ensures |Decimal(n)| <= 19
  {
    assert Pow10(5) == 100000;
    assert Pow10(10) == 10000000000;
    assert Pow10(15) == 1000000000000000;
    assert Pow10(19) == 10000000000000000000;
    DecimalLength(n, 19);
  }
}
