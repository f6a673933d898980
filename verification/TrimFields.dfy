/** `trimFieldsEvenly`: proportional truncation of a list of fields to a total length. */
module TrimFields {
  import opened Text

  function TotalLength(fields: seq<string>): (n: nat) {
    if fields == [] then 0 else TotalLength(fields[..|fields| - 1]) + |fields[|fields| - 1]|
  }

  /** First guess for one field of length `len`: proportional share, rounded down, minus one. */
  function FirstGuess(len: nat, excess: nat, total: nat): (l: int)
    requires total > 0
  {
    len - len * excess / total - 1
  }

  function GuessSum(fields: seq<string>, excess: nat, total: nat): (n: int)
    requires total > 0
  {
    if fields == [] then 0
    else GuessSum(fields[..|fields| - 1], excess, total) + FirstGuess(|fields[|fields| - 1]|, excess, total)
  }

  function NonEmpty(fields: seq<string>): (n: nat)
    ensures n <= |fields|
  {
    if fields == [] then 0
    else NonEmpty(fields[..|fields| - 1]) + (if fields[|fields| - 1] == "" then 0 else 1)
  }

  /** What the first pass leaves to hand out, one character to each of the leading fields. */
  function Remainder(max: nat, fields: seq<string>): (r: int)
    requires TotalLength(fields) > max
  {
    max - GuessSum(fields, TotalLength(fields) - max, TotalLength(fields))
  }

  /** The length at which field `i` is finally cut; -1 marks the out-of-range slice. */
  function FinalLength(max: nat, fields: seq<string>, i: nat): (l: int)
    requires TotalLength(fields) > max && i < |fields|
  {
    var total := TotalLength(fields);
    FirstGuess(|fields[i]|, total - max, total) + (if i < Remainder(max, fields) then 1 else 0)
  }

  lemma {:induction false} GuessBounds(len: nat, excess: nat, total: nat)
    requires 0 < excess < total
    ensures len > 0 ==> 0 <= FirstGuess(len, excess, total) < len
    ensures len == 0 ==> FirstGuess(len, excess, total) == -1
    ensures var q := len * excess / total;
            total * q <= len * excess && (len > 0 ==> len * excess < total * (q + 1))
  {
    var p := len * excess;
    var q := p / total;
    assert p == total * q + p % total;
    if len > 0 {
      assert p < len * total by { MulStrict(len, excess, total); }
      assert q < len by { DivBelow(p, total, len); }
    }
  }

  lemma {:induction false} MulStrict(a: nat, x: nat, y: nat)
    requires a > 0 && x < y
    ensures a * x < a * y
  {
  }

  lemma {:induction false} DivBelow(p: nat, t: nat, k: nat)
    requires t > 0 && p < k * t
    ensures p / t < k
  {
    assert p == t * (p / t) + p % t;
    assert t * (p / t) < t * k;
    CancelLess(t, p / t, k);
  }

  /** Adding one field of length `len` to a prefix of length `sum` that kept `k` and has `m` non-empty fields. */
  lemma {:induction false} BoundsStep(total: nat, excess: nat, sum: nat, k: int, m: nat, len: nat, q: nat)
    requires total * k <= excess * sum <= total * (k + m)
    requires total * q <= len * excess && (len > 0 ==> len * excess < total * (q + 1))
    requires len == 0 ==> q == 0
    ensures total * (k + q) <= excess * (sum + len)
    ensures len > 0 ==> excess * (sum + len) < total * (k + q + (m + 1))
    ensures len == 0 ==> excess * (sum + len) == excess * sum
  {
    assert total * (k + q) == total * k + total * q;
    assert excess * (sum + len) == excess * sum + len * excess;
    assert total * (k + q + (m + 1)) == total * (k + m) + total * (q + 1);
  }

  /** The rounding loss, summed: between nothing and one per non-empty field, strictly. */
  lemma {:induction false} GuessSumBounds(fields: seq<string>, excess: nat, total: nat)
    requires 0 < excess < total
    ensures var kept := TotalLength(fields) - GuessSum(fields, excess, total) - |fields|;
            && total * kept <= excess * TotalLength(fields) <= total * (kept + NonEmpty(fields))
            && (NonEmpty(fields) > 0 ==> excess * TotalLength(fields) < total * (kept + NonEmpty(fields)))
  {
    if fields != [] {
      var init, f := fields[..|fields| - 1], fields[|fields| - 1];
      GuessSumBounds(init, excess, total);
      GuessBounds(|f|, excess, total);
      var k := TotalLength(init) - GuessSum(init, excess, total) - |init|;
      BoundsStep(total, excess, TotalLength(init), k, NonEmpty(init), |f|, |f| * excess / total);
    }
  }

  lemma {:induction false} CancelLess(t: nat, a: int, b: int)
    requires t > 0 && t * a < t * b
    ensures a < b
  {
    assert t * (b - a) > 0;
  }

  lemma {:induction false} CancelLeq(t: nat, a: int, b: int)
    requires t > 0 && t * a <= t * b
    ensures a <= b
  {
    assert t * (b - a) >= 0;
  }

  lemma {:induction false} NonEmptyPositive(fields: seq<string>)
    requires TotalLength(fields) > 0
    ensures NonEmpty(fields) > 0
  {
    if fields[|fields| - 1] == "" { NonEmptyPositive(fields[..|fields| - 1]); }
  }

  /** The pre-increment remainder lies between 1 and the number of fields, and covers at least
      the empty fields, so `lengths[i]++` never runs past the slice. */
  lemma {:induction false} RemainderBounds(max: nat, fields: seq<string>)
    requires 0 < max < TotalLength(fields)
    ensures 1 <= Remainder(max, fields) <= |fields|
    ensures Remainder(max, fields) > |fields| - NonEmpty(fields)
  {
    var total := TotalLength(fields);
    var excess := total - max;
    GuessSumBounds(fields, excess, total);
    NonEmptyPositive(fields);
    var kept := total - GuessSum(fields, excess, total) - |fields|;
    assert total * kept <= total * excess;
    CancelLeq(total, kept, excess);
    assert total * excess < total * (kept + NonEmpty(fields));
    CancelLess(total, excess, kept + NonEmpty(fields));
  }

  /** Some empty field lies past the remainder: the one input on which the slice is out of range. */
  predicate CutsNegative(max: int, fields: seq<string>) {
    && 0 < max < TotalLength(fields)
    && exists i :: 0 <= i < |fields| && Remainder(max, fields) <= i && fields[i] == ""
  }

  predicate TrimmedTo(max: int, fields: seq<string>, ret: seq<string>) {
    && |ret| == |fields|
    && (forall i :: 0 <= i < |fields| ==> ret[i] <= fields[i])
    && TotalLength(ret) == (if 0 < max < TotalLength(fields) then max else TotalLength(fields))
  }

  lemma {:induction false} FinalLengthBounds(max: nat, fields: seq<string>, i: nat)
    requires 0 < max < TotalLength(fields) && i < |fields|
    ensures FinalLength(max, fields, i) <= |fields[i]|
    ensures FinalLength(max, fields, i) < 0 <==> fields[i] == "" && i >= Remainder(max, fields)
  {
    GuessBounds(|fields[i]|, TotalLength(fields) - max, TotalLength(fields));
  }

  /** Summing the cuts of the first `n` fields: the guesses plus the characters handed out so far. */
  lemma {:induction false} CutSum(max: nat, fields: seq<string>, ret: seq<string>, n: nat)
    requires 0 < max < TotalLength(fields) && n <= |ret| == |fields|
    requires forall i :: 0 <= i < n ==> |ret[i]| == FinalLength(max, fields, i)
    ensures var r := Remainder(max, fields); var total := TotalLength(fields);
            TotalLength(ret[..n]) == GuessSum(fields[..n], total - max, total) + (if n <= r then n else r)
  {
    RemainderBounds(max, fields);
    if n > 0 {
      CutSum(max, fields, ret, n - 1);
      assert ret[..n][..n - 1] == ret[..n - 1] && fields[..n][..n - 1] == fields[..n - 1];
    }
  }

  lemma {:induction false} TotalLengthPrefix(fields: seq<string>, n: nat)
    requires n < |fields|
    ensures TotalLength(fields[..n + 1]) == TotalLength(fields[..n]) + |fields[n]|
  {
    assert fields[..n + 1][..n] == fields[..n];
  }

  lemma {:induction false} GuessSumPrefix(fields: seq<string>, n: nat, excess: nat, total: nat)
    requires n < |fields| && total > 0
    ensures GuessSum(fields[..n + 1], excess, total) ==
            GuessSum(fields[..n], excess, total) + FirstGuess(|fields[n]|, excess, total)
  {
    assert fields[..n + 1][..n] == fields[..n];
  }

  /** The fields cut to their final lengths; None is the run-time panic of a negative slice bound. */
  function Trimmed(max: int, fields: seq<string>): (r: Option<seq<string>>)
    ensures r == None <==> CutsNegative(max, fields)
  {
    if max <= 0 || TotalLength(fields) <= max then Some(fields)
    else if CutsNegative(max, fields) then None
    else Some(CutFields(max, fields, |fields|))
  }

  function CutFields(max: nat, fields: seq<string>, n: nat): (ret: seq<string>)
    requires 0 < max < TotalLength(fields) && n <= |fields| && !CutsNegative(max, fields)
    ensures |ret| == n
    ensures forall i :: 0 <= i < n ==> 0 <= FinalLength(max, fields, i) <= |fields[i]|
                                       && ret[i] == fields[i][..FinalLength(max, fields, i)]
  {
    if n == 0 then []
    else
      FinalLengthBounds(max, fields, n - 1);
      CutFields(max, fields, n - 1) + [fields[n - 1][..FinalLength(max, fields, n - 1)]]
  }

  /** Unless the slice panics, every result is a prefix of its field and the lengths add up to exactly
      min(total, max). */
  lemma {:induction false} TrimmedFits(max: int, fields: seq<string>)
    requires !CutsNegative(max, fields)
    ensures Trimmed(max, fields).Some? && TrimmedTo(max, fields, Trimmed(max, fields).value)
  {
    if 0 < max < TotalLength(fields) {
      var ret := CutFields(max, fields, |fields|);
      CutSum(max, fields, ret, |fields|);
      RemainderBounds(max, fields);
      assert ret[..|fields|] == ret && fields[..|fields|] == fields;
    }
  }

  /** The share of a field in `max` characters, in proportion to its length and rounded up. */
  function Share(len: nat, max: nat, total: nat): (n: nat)
    requires total > 0
  {
    (len * max + total - 1) / total
  }

  lemma {:induction false} DivUnique(a: int, t: nat, k: int, r: nat)
    requires t > 0 && a == t * k + r && r < t
    ensures a / t == k
  {
    var q, m := a / t, a % t;
    assert a == t * q + m;
    assert t * (q - k) == t * q - t * k == r - m;
    CancelLess(t, q - k, 1);
    CancelLess(t, -1, q - k);
  }

  lemma {:induction false} GuessIsShare(len: nat, max: nat, total: nat)
    requires 0 < max < total
    ensures FirstGuess(len, total - max, total) == Share(len, max, total) - 1
  {
    var p := len * (total - max);
    var q, r := p / total, p % total;
    assert p == total * q + r;
    assert p == len * total - len * max;
    assert total * (len - q) == len * total - total * q;
    DivUnique(len * max + total - 1, total, len - q, total - 1 - r);
  }

  /** Every field gets its share, or one character less than that, as all do behind the first `r`. */
  predicate Even(max: int, fields: seq<string>, ret: seq<string>, r: int) {
    && |ret| == |fields| && 0 < max
    && forall i :: 0 <= i < |fields| && TotalLength(fields) > 0 ==>
         |ret[i]| == Share(|fields[i]|, max, TotalLength(fields)) - (if i < r then 0 else 1)
  }

  lemma {:induction false} TrimmedEvenly(max: int, fields: seq<string>)
    requires 0 < max < TotalLength(fields) && !CutsNegative(max, fields)
    ensures Even(max, fields, Trimmed(max, fields).value, Remainder(max, fields))
  {
    var ret := CutFields(max, fields, |fields|);
    forall i | 0 <= i < |fields|
      ensures |ret[i]| == Share(|fields[i]|, max, TotalLength(fields)) - (if i < Remainder(max, fields) then 0 else 1) {
      GuessIsShare(|fields[i]|, max, TotalLength(fields));
    }
  }

  /** `trimFieldsEvenly`, loop by loop; None is the slice out of range. It comes about exactly when an empty field
      stands at or behind the remainder, and otherwise the result is prefixes of the fields that add up to min(total,
      max). */
  method TrimFieldsEvenly(max: int, fields: seq<string>) returns (r: Option<seq<string>>)
    ensures r == Trimmed(max, fields)
    ensures r.None? <==> CutsNegative(max, fields)
    ensures r.Some? ==> TrimmedTo(max, fields, r.value)
    ensures r.Some? && 0 < max < TotalLength(fields) ==> exists k :: Even(max, fields, r.value, k)
  {
    if !CutsNegative(max, fields) {
      TrimmedFits(max, fields);
      if 0 < max < TotalLength(fields) { TrimmedEvenly(max, fields); }
    }
    if max <= 0 {
      return Some(fields);
    }
    var total := 0;
    for i := 0 to |fields|
      invariant total == TotalLength(fields[..i])
    {
      TotalLengthPrefix(fields, i);
      total := total + |fields[i]|;
    }
    assert fields[..|fields|] == fields;
    if total <= max {
      return Some(fields);
    }
    var lengths, remaining := FirstPass(max, fields, total);
    RemainderBounds(max, fields);
    for i := 0 to remaining
      invariant |lengths| == |fields|
      invariant forall j :: 0 <= j < |fields| ==>
                  lengths[j] == FirstGuess(|fields[j]|, total - max, total) + (if j < i then 1 else 0)
    {
      lengths := lengths[i := lengths[i] + 1];
    }
    r := CutAll(max, fields, lengths);
  }

  method FirstPass(max: nat, fields: seq<string>, total: nat) returns (lengths: seq<int>, remaining: int)
    requires 0 < max < total == TotalLength(fields)
    ensures |lengths| == |fields|
    ensures forall j :: 0 <= j < |fields| ==> lengths[j] == FirstGuess(|fields[j]|, total - max, total)
    ensures remaining == Remainder(max, fields)
  {
    var excess := total - max;
    remaining := max;
    lengths := [];
    for i := 0 to |fields|
      invariant |lengths| == i
      invariant forall j :: 0 <= j < i ==> lengths[j] == FirstGuess(|fields[j]|, excess, total)
      invariant remaining == max - GuessSum(fields[..i], excess, total)
    {
      GuessSumPrefix(fields, i, excess, total);
      var l := |fields[i]| - |fields[i]| * excess / total - 1;
      lengths := lengths + [l];
      remaining := remaining - l;
    }
    assert fields[..|fields|] == fields;
  }

  method CutAll(max: nat, fields: seq<string>, lengths: seq<int>) returns (r: Option<seq<string>>)
    requires 0 < max < TotalLength(fields) && |lengths| == |fields|
    requires forall j :: 0 <= j < |fields| ==> lengths[j] == FinalLength(max, fields, j)
    ensures r == Trimmed(max, fields)
  {
    var ret: seq<string> := [];
    for i := 0 to |fields|
      invariant |ret| == i
      invariant forall j :: 0 <= j < i ==> 0 <= lengths[j] <= |fields[j]| && ret[j] == fields[j][..lengths[j]]
      invariant forall j :: 0 <= j < i ==> !(fields[j] == "" && j >= Remainder(max, fields))
    {
      FinalLengthBounds(max, fields, i);
      if lengths[i] < 0 {
        return None;
      }
      ret := ret + [fields[i][..lengths[i]]];
    }
    assert ret == CutFields(max, fields, |fields|);
    return Some(ret);
  }

  /** An instance of the slice out of range, with the maximum and the number of fields that a NEG name has. */
  lemma {:induction false} EmptyFieldOutOfRange(a: string, b: string)
    requires |a| == 21 && |b| == 20
    ensures CutsNegative(30, [a, b, ""])
  {
    var f := [a, b, ""];
    for i := 0 to 3
      invariant TotalLength(f[..i]) == [0, 21, 41, 41][i] && GuessSum(f[..i], 11, 41) == [0, 15, 29, 28][i]
    {
      TotalLengthPrefix(f, i);
      GuessSumPrefix(f, i, 11, 41);
    }
    assert f[..3] == f;
    assert Remainder(30, f) == 2 && f[2] == "";
  }
}
