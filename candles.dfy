/** The candle series shared by the live detector and the backtester, with the
    pandas idioms both of them use: positional slicing (`iloc[a:b]`), boolean
    filtering (`df[mask]`) and the one-neighbour swing test built on `shift(±1)`. */
module Candles {

  datatype Option<T> = None | Some(value: T)

  /** One OHLC bar. `time` is the bar's timestamp in seconds, `volume` its tick volume. */
  datatype Candle = Candle(time: int, open: real, high: real, low: real, close: real, volume: int)

  datatype Direction = Bullish | Bearish

  function Opposite(d: Direction): (r: Direction)
    ensures r != d
  {
    if d == Bullish then Bearish else Bullish
  }

  /** A bar whose wick range covers its body, as every bar from a price feed does. */
  predicate WellFormed(c: Candle) {
    c.low <= c.open <= c.high && c.low <= c.close <= c.high
  }

  predicate IsBearishCandle(c: Candle) { c.close < c.open }

  predicate IsBullishCandle(c: Candle) { c.close > c.open }

  /** The colour that opposes a move in direction d: a bearish bar for a bullish
      move and a bullish bar for a bearish one. */
  predicate Opposes(c: Candle, d: Direction) {
    if d == Bullish then IsBearishCandle(c) else IsBullishCandle(c)
  }

  predicate InRange(p: real, lo: real, hi: real) { lo <= p <= hi }

  function Min(a: real, b: real): real { if a <= b then a else b }

  function Max(a: real, b: real): real { if a >= b then a else b }

  function Abs(x: real): real { if x < 0.0 then -x else x }

  function MinNat(a: int, b: int): int { if a <= b then a else b }

  /** Python's normalisation of a slice bound k against a sequence of length n:
      a negative bound counts from the end, and both are clamped to [0, n]. */
  function SliceBound(k: int, n: nat): (r: nat)
    ensures r <= n
    ensures 0 <= k <= n ==> r == k
    ensures k < 0 && n + k >= 0 ==> r == n + k
  {
    if k < 0 then (if n + k < 0 then 0 else n + k) else if k > n then n else k
  }

  /** `s.iloc[a:b]`: a positional slice that clamps its bounds and never fails. */
  function ILoc<T>(s: seq<T>, a: int, b: int): (r: seq<T>)
    ensures |r| <= |s|
    ensures SliceBound(a, |s|) < SliceBound(b, |s|) ==> r == s[SliceBound(a, |s|)..SliceBound(b, |s|)]
    ensures SliceBound(a, |s|) >= SliceBound(b, |s|) ==> r == []
  {
    var lo, hi := SliceBound(a, |s|), SliceBound(b, |s|);
    if lo < hi then s[lo..hi] else []
  }

  /** `s.iloc[-k:]`, the last k rows. Because -0 == 0 in Python, k == 0 selects
      the whole series rather than nothing. */
  function Tail<T>(s: seq<T>, k: nat): (r: seq<T>)
    ensures k == 0 || k >= |s| ==> r == s
    ensures 0 < k <= |s| ==> r == s[|s| - k..] && |r| == k
  {
    ILoc(s, -(k as int), |s|)
  }

  /** Row i of w is a swing high: its high is strictly above both neighbours'.
      The first and last rows lack a neighbour (`shift` yields NaN there and
      every comparison with NaN is false), so they are never swing points. */
  predicate IsSwingHigh(w: seq<Candle>, i: int) {
    0 < i < |w| - 1 && w[i].high > w[i - 1].high && w[i].high > w[i + 1].high
  }

  /** Row i of w is a swing low: its low is strictly below both neighbours'. */
  predicate IsSwingLow(w: seq<Candle>, i: int) {
    0 < i < |w| - 1 && w[i].low < w[i - 1].low && w[i].low < w[i + 1].low
  }

  /** The `swing_high` column. */
  function SwingHighMask(w: seq<Candle>): (m: seq<bool>)
    ensures |m| == |w|
    ensures forall i :: 0 <= i < |w| ==> m[i] == IsSwingHigh(w, i)
  {
    seq(|w|, i => IsSwingHigh(w, i))
  }

  /** The `swing_low` column. */
  function SwingLowMask(w: seq<Candle>): (m: seq<bool>)
    ensures |m| == |w|
    ensures forall i :: 0 <= i < |w| ==> m[i] == IsSwingLow(w, i)
  {
    seq(|w|, i => IsSwingLow(w, i))
  }

  /** The column `close < open`. */
  function BearishMask(w: seq<Candle>): (m: seq<bool>)
    ensures |m| == |w|
    ensures forall i :: 0 <= i < |w| ==> m[i] == IsBearishCandle(w[i])
  {
    seq(|w|, i requires 0 <= i < |w| => IsBearishCandle(w[i]))
  }

  /** The column `close > open`. */
  function BullishMask(w: seq<Candle>): (m: seq<bool>)
    ensures |m| == |w|
    ensures forall i :: 0 <= i < |w| ==> m[i] == IsBullishCandle(w[i])
  {
    seq(|w|, i requires 0 <= i < |w| => IsBullishCandle(w[i]))
  }

  /** The rows a boolean mask selects, in order: the index of `df[mask]`. */
  function Positions(mask: seq<bool>): (r: seq<nat>)
    ensures |r| <= |mask|
    ensures forall k :: 0 <= k < |r| ==> r[k] < |mask| && mask[r[k]]
    ensures forall i :: 0 <= i < |mask| && mask[i] ==> i in r
    ensures forall j, k :: 0 <= j < k < |r| ==> r[j] < r[k]
  {
    if mask == [] then []
    else Positions(mask[..|mask| - 1]) + (if mask[|mask| - 1] then [|mask| - 1] else [])
  }

  /** The mask selects fewer than two rows. */
  predicate AtMostOne(mask: seq<bool>) {
    forall i, j :: 0 <= i < j < |mask| ==> !(mask[i] && mask[j])
  }

  /** `len(df[mask])`, and `sum(mask)` for a boolean column. */
  function Count(mask: seq<bool>): (n: nat)
    ensures n <= |mask|
  {
    if mask == [] then 0 else Count(mask[..|mask| - 1]) + (if mask[|mask| - 1] then 1 else 0)
  }

  /** The count is zero exactly when no row is selected, one or more exactly
      when some row is, and two or more exactly when two distinct rows are. */
  lemma {:induction false} CountMeaning(mask: seq<bool>)
    ensures Count(mask) == 0 <==> forall i :: 0 <= i < |mask| ==> !mask[i]
    ensures Count(mask) >= 2 <==> !AtMostOne(mask)
  {
    if mask != [] {
      var init, n := mask[..|mask| - 1], |mask| - 1;
      CountMeaning(init);
      assert forall i :: 0 <= i < n ==> init[i] == mask[i];
      if Count(mask) >= 2 {
        if Count(init) >= 2 {
          var i, j :| 0 <= i < j < n && init[i] && init[j];
          assert mask[i] && mask[j];
        } else {
          var i :| 0 <= i < n && init[i];
          assert mask[i] && mask[n];
        }
      }
      if !AtMostOne(mask) {
        var i, j :| 0 <= i < j < |mask| && mask[i] && mask[j];
        if j < n {
          assert init[i] && init[j];
        } else {
          assert init[i];
        }
      }
    }
  }

  /** The row of `df[mask].iloc[-1]`, the last row the mask selects, or None
      when the filter is empty. */
  function LastTrue(mask: seq<bool>): (r: Option<nat>)
    ensures r.None? <==> forall i :: 0 <= i < |mask| ==> !mask[i]
    ensures r.Some? ==> r.value < |mask| && mask[r.value]
    ensures r.Some? ==> forall j :: r.value < j < |mask| ==> !mask[j]
  {
    if mask == [] then None
    else if mask[|mask| - 1] then Some(|mask| - 1)
    else LastTrue(mask[..|mask| - 1])
  }

  // ---------------------------------------------------------------------------
  // Ratios

  /** A quotient of s by a positive n lies in [lo, hi] when s lies in [n*lo, n*hi]. */
  lemma QuotientBetween(s: real, n: real, lo: real, hi: real)
    requires n > 0.0 && n * lo <= s <= n * hi
    ensures lo <= s / n <= hi
  {
    var q := s / n;
    assert q * n == s;
    CancelPositive(lo, q, n);
    CancelPositive(q, hi, n);
  }

  /** A positive factor can be cancelled from both sides of an inequality. */
  lemma CancelPositive(a: real, b: real, n: real)
    requires n > 0.0 && a * n <= b * n
    ensures a <= b
  {
  }

  /** part out of whole, in percent, lies in [0, 100] and is 100 exactly for the whole. */
  lemma PercentOfWhole(part: nat, whole: nat)
    requires part <= whole && whole > 0
    ensures 0.0 <= part as real / whole as real * 100.0 <= 100.0
    ensures part as real / whole as real * 100.0 == 100.0 <==> part == whole
  {
    QuotientBetween(part as real, whole as real, 0.0, 1.0);
    if part == whole {
      assert part as real / whole as real == 1.0;
    }
    if part as real / whole as real * 100.0 == 100.0 {
      assert part as real / whole as real == 1.0;
    }
  }
}
