/** The list idioms every indicator loop in Calculations/Oscillator.cs shares,
    with `decimal` modelled as `real` and `List<decimal>` as `seq<real>`:
    - `list.ElementAtOrDefault(i)` and the guard `i >= k ? list[i - k] : 0` are `At`,
      which reads 0 at every index outside the list (negative ones included);
    - `list.LastOrDefault()` is `Last`, 0 on an empty list;
    - `list.TakeLast(n)`, `.Sum()` and `.Average()` are `TakeLast`, `Sum` and `Average`;
    - `Math.Abs`, `Math.Max`, `Math.Min`, the clamp `MinOrMax(v, hi, lo)` and
      `List.LastIndexOf` are `Abs`, `Max`, `Min`, `MinOrMax` and `LastIndexOf`. */
module Series {

  /** `ElementAtOrDefault`: the element at `i`, or the neutral default 0. */
  function At(s: seq<real>, i: int): real {
    if 0 <= i < |s| then s[i] else 0.0
  }

  /** `LastOrDefault`: the last element, or 0 for an empty list. */
  function Last(s: seq<real>): real {
    if |s| == 0 then 0.0 else s[|s| - 1]
  }

  function Abs(x: real): real { if x < 0.0 then -x else x }

  function Max(a: real, b: real): real { if a >= b then a else b }

  function Min(a: real, b: real): real { if a <= b then a else b }

  function MaxInt(a: int, b: int): int { if a >= b then a else b }

  function MinInt(a: int, b: int): int { if a <= b then a else b }

  /** `MinOrMax(value, maxValue, minValue)` is taken to clamp `value` to
      `[minValue, maxValue]` (its body is not part of this model). */
  function MinOrMax(value: real, maxValue: real, minValue: real): (r: real)
    requires minValue <= maxValue
    ensures minValue <= r <= maxValue
    ensures minValue <= value <= maxValue ==> r == value
    ensures value < minValue ==> r == minValue
    ensures value > maxValue ==> r == maxValue
  {
    if value > maxValue then maxValue else if value < minValue then minValue else value
  }

  /** `TakeLast(n)`: the suffix of length min(n, |s|), empty when n <= 0. */
  function TakeLast(s: seq<real>, n: int): seq<real> {
    if n <= 0 then [] else if n >= |s| then s else s[|s| - n..]
  }

  function Sum(s: seq<real>): real {
    if |s| == 0 then 0.0 else Sum(s[..|s| - 1]) + s[|s| - 1]
  }

  /** `Average()`; LINQ throws on an empty sequence, hence the precondition. */
  function Average(s: seq<real>): real
    requires |s| > 0
  {
    Sum(s) / (|s| as real)
  }

  /** The sum of `s[lo]`, ..., `s[hi - 1]`, written index by index: the
      reference semantics of a trailing-window sum. */
  function SumRange(s: seq<real>, lo: int, hi: int): real
    requires 0 <= lo && hi <= |s|
    decreases hi - lo
  {
    if lo >= hi then 0.0 else SumRange(s, lo, hi - 1) + s[hi - 1]
  }

  /** First index of the trailing window of `length` bars that ends at bar `i`. */
  function WindowStart(i: int, length: int): int {
    MaxInt(0, i - length + 1)
  }

  /** The trailing window `s[max(0, i - length + 1) .. i]`, partial at the series start. */
  function Window(s: seq<real>, i: int, length: int): (r: seq<real>)
    requires 0 <= i < |s| && length >= 1
    ensures 1 <= |r| <= length
  {
    s[WindowStart(i, length)..i + 1]
  }

  /** `den != 0 ? num / den : 0`, the guarded division the formulas share. */
  function Ratio(num: real, den: real): real {
    if den != 0.0 then num / den else 0.0
  }

  /** The largest element of a non-empty sequence. */
  function SeqMax(s: seq<real>): (r: real)
    requires |s| > 0
    ensures forall k :: 0 <= k < |s| ==> s[k] <= r
    ensures exists k :: 0 <= k < |s| && s[k] == r
  {
    if |s| == 1 then s[0]
    else
      var m := SeqMax(s[..|s| - 1]);
      assert forall k :: 0 <= k < |s| - 1 ==> s[..|s| - 1][k] == s[k];
      Max(m, s[|s| - 1])
  }

  /** The smallest element of a non-empty sequence. */
  function SeqMin(s: seq<real>): (r: real)
    requires |s| > 0
    ensures forall k :: 0 <= k < |s| ==> r <= s[k]
    ensures exists k :: 0 <= k < |s| && s[k] == r
  {
    if |s| == 1 then s[0]
    else
      var m := SeqMin(s[..|s| - 1]);
      assert forall k :: 0 <= k < |s| - 1 ==> s[..|s| - 1][k] == s[k];
      Min(m, s[|s| - 1])
  }

  /** `List.LastIndexOf(x)`: the last index holding `x`, or -1 when there is none. */
  function LastIndexOf(s: seq<real>, x: real): (r: int)
    ensures -1 <= r < |s|
    ensures r >= 0 ==> s[r] == x
    ensures forall k :: r < k < |s| ==> s[k] != x
  {
    if |s| == 0 then -1
    else if s[|s| - 1] == x then |s| - 1
    else LastIndexOf(s[..|s| - 1], x)
  }

  /** The source's bars padded to `n` entries with `ElementAtOrDefault`:
      what a loop that appends `list.ElementAtOrDefault(i)` for every bar holds. */
  function Padded(s: seq<real>, n: nat): (r: seq<real>)
    ensures |r| == n
  {
    if n == 0 then [] else Padded(s, n - 1) + [At(s, n - 1)]
  }

  /** The values `f(0)`, ..., `f(n - 1)`: the list a loop fills with one
      value per bar when each value depends on the inputs and the bar alone. */
  function Tabulate(f: nat -> real, n: nat): (r: seq<real>)
    ensures |r| == n
  {
    if n == 0 then [] else Tabulate(f, n - 1) + [f(n - 1)]
  }

  /** The list a loop fills when bar k's value is `step(prev, k)` and `prev`
      is the list's `LastOrDefault()`: the previous bar's value, 0 at bar 0. */
  function Scan(step: (real, nat) -> real, n: nat): (r: seq<real>)
    ensures |r| == n
  {
    if n == 0 then [] else var prev := Scan(step, n - 1); prev + [step(Last(prev), n - 1)]
  }

  /** The state a loop reaches after bars 0 .. n - 1 when each bar maps the
      state it finds to `step(state, bar)`. */
  function Iterate<T>(step: (T, nat) -> T, init: T, n: nat): T {
    if n == 0 then init else step(Iterate(step, init, n - 1), n - 1)
  }

  /** `a[k] - b[k]` for every bar k < n, reading 0 past either list's end. */
  function Differences(a: seq<real>, b: seq<real>, n: nat): (r: seq<real>)
    ensures |r| == n
  {
    Tabulate((k: nat) => At(a, k) - At(b, k), n)
  }

  // ---------------------------------------------------------------------------
  // Lemmas

  lemma IterateStep<T>(step: (T, nat) -> T, init: T, n: nat)
    ensures Iterate(step, init, n + 1) == step(Iterate(step, init, n), n)
  {
  }

  lemma TabulateStep(f: nat -> real, n: nat)
    ensures Tabulate(f, n + 1) == Tabulate(f, n) + [f(n)]
  {
  }

  lemma {:induction false} TabulateAt(f: nat -> real, n: nat, k: nat)
    requires k < n
    ensures Tabulate(f, n)[k] == f(k)
  {
    if k < n - 1 {
      TabulateAt(f, n - 1, k);
    }
  }

  lemma ScanStep(step: (real, nat) -> real, n: nat)
    ensures Scan(step, n + 1) == Scan(step, n) + [step(Last(Scan(step, n)), n)]
  {
  }

  lemma {:induction false} ScanPrefix(step: (real, nat) -> real, m: nat, n: nat)
    requires m <= n
    ensures Scan(step, m) == Scan(step, n)[..m]
    decreases n
  {
    if m < n {
      ScanPrefix(step, m, n - 1);
    }
  }

  lemma {:induction false} TabulatePrefix(f: nat -> real, m: nat, n: nat)
    requires m <= n
    ensures Tabulate(f, m) == Tabulate(f, n)[..m]
    decreases n
  {
    if m < n {
      TabulatePrefix(f, m, n - 1);
    }
  }

  /** A sum from the start depends only on the elements it covers. */
  lemma {:induction false} SumRangeOfPrefix(s: seq<real>, t: seq<real>, hi: nat)
    requires hi <= |s| && hi <= |t|
    requires s[..hi] == t[..hi]
    ensures SumRange(s, 0, hi) == SumRange(t, 0, hi)
  {
    if hi > 0 {
      assert s[hi - 1] == s[..hi][hi - 1] == t[..hi][hi - 1] == t[hi - 1];
      assert s[..hi - 1] == s[..hi][..hi - 1];
      assert t[..hi - 1] == t[..hi][..hi - 1];
      SumRangeOfPrefix(s, t, hi - 1);
    }
  }

  /** Bar k's value is the step applied to bar k - 1's value (0 before bar 0). */
  lemma ScanAt(step: (real, nat) -> real, n: nat, k: nat)
    requires k < n
    ensures Scan(step, n)[k] == step(At(Scan(step, n), k - 1), k)
  {
    ScanPrefix(step, k + 1, n);
    ScanPrefix(step, k, n);
  }

  lemma DifferencesStep(a: seq<real>, b: seq<real>, d: seq<real>, n: nat)
    requires d == Differences(a, b, n)
    ensures Differences(a, b, n + 1) == d + [At(a, n) - At(b, n)]
  {
    TabulateStep((k: nat) => At(a, k) - At(b, k), n);
  }

  lemma DifferencesAt(a: seq<real>, b: seq<real>, n: nat, k: nat)
    requires k < n
    ensures Differences(a, b, n)[k] == At(a, k) - At(b, k)
  {
    TabulateAt((j: nat) => At(a, j) - At(b, j), n, k);
  }

  lemma {:induction false} PaddedAt(s: seq<real>, n: nat, k: int)
    requires 0 <= k < n
    ensures Padded(s, n)[k] == At(s, k)
  {
    if k < n - 1 {
      PaddedAt(s, n - 1, k);
    }
  }

  lemma {:induction false} SumAppend(a: seq<real>, b: seq<real>)
    ensures Sum(a + b) == Sum(a) + Sum(b)
  {
    if |b| == 0 {
      assert a + b == a;
    } else {
      assert (a + b)[..|a + b| - 1] == a + b[..|b| - 1];
      SumAppend(a, b[..|b| - 1]);
    }
  }

  /** Slicing and summing agrees with the index-by-index window sum. */
  lemma {:induction false} SumSliceIsSumRange(s: seq<real>, lo: int, hi: int)
    requires 0 <= lo <= hi <= |s|
    ensures Sum(s[lo..hi]) == SumRange(s, lo, hi)
    decreases hi - lo
  {
    if lo < hi {
      assert s[lo..hi][..hi - lo - 1] == s[lo..hi - 1];
      SumSliceIsSumRange(s, lo, hi - 1);
    }
  }

  lemma {:induction false} SumNonNegative(s: seq<real>)
    requires forall k :: 0 <= k < |s| ==> s[k] >= 0.0
    ensures Sum(s) >= 0.0
  {
    if |s| > 0 {
      SumNonNegative(s[..|s| - 1]);
    }
  }

  /** Summing is monotone in every element. */
  lemma {:induction false} SumMonotone(a: seq<real>, b: seq<real>)
    requires |a| == |b|
    requires forall k :: 0 <= k < |a| ==> a[k] <= b[k]
    ensures Sum(a) <= Sum(b)
  {
    if |a| > 0 {
      SumMonotone(a[..|a| - 1], b[..|b| - 1]);
    }
  }

  /** A sum of 0/1 flags is at most the number of flags. */
  lemma {:induction false} SumOfFlagsAtMostLength(s: seq<real>)
    requires forall k :: 0 <= k < |s| ==> 0.0 <= s[k] <= 1.0
    ensures 0.0 <= Sum(s) <= |s| as real
  {
    if |s| > 0 {
      SumOfFlagsAtMostLength(s[..|s| - 1]);
    }
  }

  /** `TakeLast(n)` is the suffix of `min(n, |s|)` elements (none when n <= 0). */
  lemma TakeLastIsSuffix(s: seq<real>, n: int)
    ensures |TakeLast(s, n)| == (if n <= 0 then 0 else MinInt(n, |s|))
    ensures TakeLast(s, n) == s[|s| - |TakeLast(s, n)|..]
  {
  }

  /** The rolling-window property shared by every `TakeLast(length).Sum()`:
      right after bar `i`'s element was appended (the list holds bars 0..i),
      the sum is that of bars max(0, i - length + 1) .. i, a partial window
      at the series start; with `length >= 1` the window is never empty. */
  lemma TakeLastSumIsWindowSum(list: seq<real>, i: int, length: int)
    requires |list| == i + 1 && i >= 0 && length >= 1
    ensures TakeLast(list, length) == Window(list, i, length)
    ensures |TakeLast(list, length)| == i + 1 - WindowStart(i, length) >= 1
    ensures Sum(TakeLast(list, length)) == SumRange(list, WindowStart(i, length), i + 1)
  {
    SumSliceIsSumRange(list, WindowStart(i, length), i + 1);
  }

  /** The naive trailing-window sum can be maintained incrementally: appending
      `x` adds `x` and, once the window is full, drops the element that leaves it. */
  lemma RollingSumIncremental(s: seq<real>, x: real, length: int)
    requires length >= 1
    ensures Sum(TakeLast(s + [x], length))
         == Sum(TakeLast(s, length)) + x - (if |s| >= length then s[|s| - length] else 0.0)
  {
    var t := s + [x];
    if |s| >= length {
      var w := s[|s| - length..];
      assert TakeLast(s, length) == w;
      assert TakeLast(t, length) == w[1..] + [x];
      assert w == [w[0]] + w[1..];
      SumAppend([w[0]], w[1..]);
      SumAppend(w[1..], [x]);
      assert Sum([w[0]]) == w[0] by {
        assert [w[0]][..0] == [];
      }
    } else {
      assert TakeLast(t, length) == t;
      assert TakeLast(s, length) == s;
      assert t[..|t| - 1] == s;
    }
  }

  /** A trailing average is the window sum divided by the actual window size. */
  lemma {:induction false} TrailingAverage(list: seq<real>, i: int, length: int)
    requires |list| == i + 1 && i >= 0 && length >= 1
    ensures |TakeLast(list, length)| == MinInt(length, i + 1)
    ensures Average(TakeLast(list, length))
         == SumRange(list, WindowStart(i, length), i + 1) / (MinInt(length, i + 1) as real)
  {
    TakeLastSumIsWindowSum(list, i, length);
  }

  /** The maximum of a trailing window is one of the window's elements. */
  lemma WindowMaxAttained(s: seq<real>, i: int, length: int)
    requires 0 <= i < |s| && length >= 1
    ensures exists k :: WindowStart(i, length) <= k <= i && s[k] == SeqMax(Window(s, i, length))
  {
    var w := Window(s, i, length);
    var j :| 0 <= j < |w| && w[j] == SeqMax(w);
    assert s[WindowStart(i, length) + j] == w[j];
  }

  /** Dividing by a positive number keeps the sign. */
  lemma QuotientSign(num: real, den: real)
    requires den > 0.0
    ensures num / den > 0.0 <==> num > 0.0
    ensures num / den < 0.0 <==> num < 0.0
  {
    var q := num / den;
    assert q * den == num;
    if q > 0.0 { assert q * den > 0.0; }
    if q < 0.0 { assert (-q) * den > 0.0; }
  }

  /** A quotient is the only number that gives the dividend back. */
  lemma QuotientUnique(q: real, num: real, den: real)
    requires den != 0.0 && q * den == num
    ensures q == num / den
  {
  }

  /** `0 <= num <= den` with `den > 0` puts `num / den` in [0, 1]. */
  lemma UnitQuotient(num: real, den: real)
    requires 0.0 <= num <= den && den > 0.0
    ensures 0.0 <= num / den <= 1.0
  {
    var q := num / den;
    assert q * den == num;
    QuotientSign(num, den);
    assert (q - 1.0) * den == num - den <= 0.0;
  }

  /** `|num| <= den` with `den > 0` puts `num / den` in [-1, 1]. */
  lemma DivisionBounds(num: real, den: real)
    requires den > 0.0 && -den <= num <= den
    ensures -1.0 <= num / den <= 1.0
  {
    assert num / den * den == num;
  }

  /** A sum of non-negative elements is non-negative. */
  lemma {:induction false} SumRangeNonNegative(s: seq<real>, lo: int, hi: int)
    requires 0 <= lo && hi <= |s|
    requires forall k :: lo <= k < hi ==> s[k] >= 0.0
    ensures SumRange(s, lo, hi) >= 0.0
    decreases hi - lo
  {
    if lo < hi {
      SumRangeNonNegative(s, lo, hi - 1);
    }
  }

  /** `0 <= num <= den` bounds the guarded ratio to [0, 1]. */
  lemma RatioInUnitInterval(num: real, den: real)
    requires 0.0 <= num <= den
    ensures 0.0 <= Ratio(num, den) <= 1.0
  {
    if den != 0.0 {
      UnitQuotient(num, den);
    }
  }

  /** When every element of `a` lies in [0, b[k]], the ratio of the two
      trailing-window sums lies in [0, 1]. */
  lemma WindowRatioInUnitInterval(a: seq<real>, b: seq<real>, length: int)
    requires |a| == |b|
    requires forall k :: 0 <= k < |a| ==> 0.0 <= a[k] <= b[k]
    ensures 0.0 <= Ratio(Sum(TakeLast(a, length)), Sum(TakeLast(b, length))) <= 1.0
  {
    TakeLastIsSuffix(a, length);
    TakeLastIsSuffix(b, length);
    var ta, tb := TakeLast(a, length), TakeLast(b, length);
    var d := |a| - |ta|;
    assert forall j :: 0 <= j < |ta| ==> ta[j] == a[d + j] && tb[j] == b[d + j];
    SumNonNegative(ta);
    SumMonotone(ta, tb);
    RatioInUnitInterval(Sum(ta), Sum(tb));
  }

  /** Bar i lies in its own trailing window, so it is bounded by the window's extremes. */
  lemma WindowBoundsBar(s: seq<real>, i: int, length: int)
    requires 0 <= i < |s| && length >= 1
    ensures SeqMin(Window(s, i, length)) <= s[i] <= SeqMax(Window(s, i, length))
  {
    var w := Window(s, i, length);
    assert w[|w| - 1] == s[i];
  }

  lemma WindowMinAttained(s: seq<real>, i: int, length: int)
    requires 0 <= i < |s| && length >= 1
    ensures exists k :: WindowStart(i, length) <= k <= i && s[k] == SeqMin(Window(s, i, length))
  {
    var w := Window(s, i, length);
    var j :| 0 <= j < |w| && w[j] == SeqMin(w);
    assert s[WindowStart(i, length) + j] == w[j];
  }
}
