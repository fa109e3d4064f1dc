/** Trend detection on one timeframe and the agreement of a lower-timeframe
    signal with the structure of several higher timeframes. */
module Mtf {
  import opened Candles

  datatype Trend = Trending(dir: Direction) | Ranging

  // ---------------------------------------------------------------------------
  // Trend

  /** i and j are the last two rows the mask selects, in order. */
  predicate IsLastTwo(mask: seq<bool>, i: int, j: int) {
    && 0 <= i < j < |mask| && mask[i] && mask[j]
    && forall k :: i < k < |mask| && k != j ==> !mask[k]
  }

  /** The rows of the last two values of a filtered column (`values[-2]`,
      `values[-1]`), or None when the filter keeps fewer than two rows. */
  function LastTwo(mask: seq<bool>): (r: Option<(nat, nat)>)
    ensures r.None? <==> AtMostOne(mask)
    ensures r.Some? ==> IsLastTwo(mask, r.value.0, r.value.1)
    ensures forall i, j :: IsLastTwo(mask, i, j) ==> r == Some((i, j))
  {
    var last := LastTrue(mask);
    if last.None? then None
    else
      var prev := LastTrue(mask[..last.value]);
      if prev.None? then None else Some((prev.value, last.value))
  }

  /** The trend read off a window's swing columns: bullish when both its swing
      highs and its swing lows rose from their second-to-last to their last
      value, bearish when both fell, ranging otherwise. */
  function TrendFromSwings(w: seq<Candle>, hm: seq<bool>, lm: seq<bool>): (t: Trend)
    requires |hm| == |w| && |lm| == |w|
    ensures AtMostOne(hm) || AtMostOne(lm) ==> t == Ranging
  {
    var hs, ls := LastTwo(hm), LastTwo(lm);
    if hs.None? || ls.None? then Ranging
    else
      var (h0, h1) := hs.value;
      var (l0, l1) := ls.value;
      if w[h1].high > w[h0].high && w[l1].low > w[l0].low then Trending(Bullish)
      else if w[h1].high < w[h0].high && w[l1].low < w[l0].low then Trending(Bearish)
      else Ranging
  }

  /** The trend of the last `lookback` candles; `iloc[-0:]` is the whole
      frame, so lookback 0 analyses every candle. With fewer than two swing
      highs or fewer than two swing lows the market is ranging. */
  function DetectTrend(df: seq<Candle>, lookback: nat): (t: Trend)
    ensures var w := Tail(df, lookback);
      AtMostOne(SwingHighMask(w)) || AtMostOne(SwingLowMask(w)) ==> t == Ranging
  {
    var w := Tail(df, lookback);
    TrendFromSwings(w, SwingHighMask(w), SwingLowMask(w))
  }

  /** Given the last two swing highs (rows i < j) and the last two swing lows
      (rows k < l) of the analysed window, the trend is bullish exactly when
      both rose and bearish exactly when both fell. */
  lemma TrendFollowsLastSwings(df: seq<Candle>, lookback: nat, i: nat, j: nat, k: nat, l: nat)
    requires IsLastTwo(SwingHighMask(Tail(df, lookback)), i, j) && IsLastTwo(SwingLowMask(Tail(df, lookback)), k, l)
    ensures var w, t := Tail(df, lookback), DetectTrend(df, lookback);
      && (t == Trending(Bullish) <==> w[j].high > w[i].high && w[l].low > w[k].low)
      && (t == Trending(Bearish) <==> w[j].high < w[i].high && w[l].low < w[k].low)
  {
    var w := Tail(df, lookback);
    assert LastTwo(SwingHighMask(w)) == Some((i, j));
    assert LastTwo(SwingLowMask(w)) == Some((k, l));
  }

  // ---------------------------------------------------------------------------
  // Multi-timeframe alignment

  /** One timeframe's entry in the multi-timeframe analysis. */
  datatype TimeframeStructure = TimeframeStructure(name: string, trend: Trend, mss: Option<Direction>)

  datatype Strength = Perfect | Strong | Weak | Poor

  /** How one timeframe stands towards the signal. */
  datatype Stance = AlignedTf | RangingTf | MisalignedTf

  datatype Alignment =
    | NoSignal
    | Alignment(aligned: bool, strength: Strength, alignmentPct: real,
                alignedTfs: seq<string>, rangingTfs: seq<string>, misalignedTfs: seq<string>, totalTfs: nat)

  /** A timeframe agrees when its trend or its own shift points the signal's
      way; otherwise a ranging timeframe is neutral and any other is against. */
  function StanceOf(tf: TimeframeStructure, signal: Direction): (c: Stance)
    ensures c == AlignedTf <==> tf.trend == Trending(signal) || tf.mss == Some(signal)
    ensures c == RangingTf <==> tf.trend == Ranging && tf.mss != Some(signal)
  {
    if tf.trend == Trending(signal) || tf.mss == Some(signal) then AlignedTf
    else if tf.trend == Ranging then RangingTf
    else MisalignedTf
  }

  /** The names of the timeframes with stance c, in analysis order. */
  function NamesWith(tfs: seq<TimeframeStructure>, signal: Direction, c: Stance): (names: seq<string>)
    ensures |names| <= |tfs|
    ensures forall x :: x in names <==> exists i :: 0 <= i < |tfs| && tfs[i].name == x && StanceOf(tfs[i], signal) == c
  {
    if tfs == [] then []
    else NamesWith(tfs[..|tfs| - 1], signal, c)
         + (if StanceOf(tfs[|tfs| - 1], signal) == c then [tfs[|tfs| - 1].name] else [])
  }

  function NamesOf(tfs: seq<TimeframeStructure>): seq<string>
  {
    seq(|tfs|, i requires 0 <= i < |tfs| => tfs[i].name)
  }

  /** Strength tiers of the aligned share: 100%, 50%, 30%. */
  function StrengthOf(pct: real): (s: Strength)
    ensures s == Perfect <==> pct >= 100.0
    ensures s == Strong <==> 50.0 <= pct < 100.0
    ensures s == Weak <==> 30.0 <= pct < 50.0
    ensures s == Poor <==> pct < 30.0
  {
    if pct >= 100.0 then Perfect else if pct >= 50.0 then Strong else if pct >= 30.0 then Weak else Poor
  }

  /** The share of aligned timeframes in percent, 0 when there are none. */
  function AlignmentPct(alignedCount: nat, total: nat): real
  {
    if total > 0 then alignedCount as real / total as real * 100.0 else 0.0
  }

  /** The alignment report for a signal over the analysed timeframes. With
      requireAll every timeframe must agree; otherwise at least half of them
      must agree or be ranging. */
  function AlignmentOf(signal: Option<Direction>, tfs: seq<TimeframeStructure>, requireAll: bool): Alignment
  {
    if signal.None? then NoSignal
    else
      var aligned := NamesWith(tfs, signal.value, AlignedTf);
      var ranging := NamesWith(tfs, signal.value, RangingTf);
      var misaligned := NamesWith(tfs, signal.value, MisalignedTf);
      var isAligned := if requireAll then |aligned| == |tfs|
                       else (|aligned| + |ranging|) as real >= |tfs| as real * 0.5;
      var pct := AlignmentPct(|aligned|, |tfs|);
      Alignment(isAligned, StrengthOf(pct), pct, aligned, ranging, misaligned, |tfs|)
  }

  /** Sorts each timeframe by its stance towards the signal and grades the result. */
  method CheckMtfAlignment(signal: Option<Direction>, tfs: seq<TimeframeStructure>, requireAll: bool)
    returns (r: Alignment)
    ensures r == AlignmentOf(signal, tfs, requireAll)
    ensures r.Alignment? ==> 0.0 <= r.alignmentPct <= 100.0
  {
    if signal.None? {
      return NoSignal;
    }
    var s := signal.value;
    var aligned, ranging, misaligned := [], [], [];
    for i := 0 to |tfs|
      invariant aligned == NamesWith(tfs[..i], s, AlignedTf)
      invariant ranging == NamesWith(tfs[..i], s, RangingTf)
      invariant misaligned == NamesWith(tfs[..i], s, MisalignedTf)
    {
      assert tfs[..i + 1][..i] == tfs[..i];
      var stance := StanceOf(tfs[i], s);
      if stance == AlignedTf {
        aligned := aligned + [tfs[i].name];
      } else if stance == RangingTf {
        ranging := ranging + [tfs[i].name];
      } else {
        misaligned := misaligned + [tfs[i].name];
      }
    }
    assert tfs[..|tfs|] == tfs;
    var total := |tfs|;
    var isAligned: bool;
    if requireAll {
      isAligned := |aligned| == total;
    } else {
      isAligned := (|aligned| + |ranging|) as real >= total as real * 0.5;
    }
    var pct := AlignmentPct(|aligned|, total);
    AlignmentPctInRange(s, tfs, requireAll);
    r := Alignment(isAligned, StrengthOf(pct), pct, aligned, ranging, misaligned, total);
  }

  /** The last timeframe adds its name to exactly one of the three lists. */
  lemma NamesWithStep(tfs: seq<TimeframeStructure>, s: Direction)
    requires tfs != []
    ensures var init, name := tfs[..|tfs| - 1], tfs[|tfs| - 1].name;
      multiset(NamesWith(tfs, s, AlignedTf)) + multiset(NamesWith(tfs, s, RangingTf)) + multiset(NamesWith(tfs, s, MisalignedTf))
      == multiset(NamesWith(init, s, AlignedTf)) + multiset(NamesWith(init, s, RangingTf))
         + multiset(NamesWith(init, s, MisalignedTf)) + multiset{name}
  {
  }

  lemma NamesOfStep(tfs: seq<TimeframeStructure>)
    requires tfs != []
    ensures multiset(NamesOf(tfs)) == multiset(NamesOf(tfs[..|tfs| - 1])) + multiset{tfs[|tfs| - 1].name}
  {
    assert NamesOf(tfs) == NamesOf(tfs[..|tfs| - 1]) + [tfs[|tfs| - 1].name];
  }

  /** Every timeframe lands in exactly one of the three lists: together they
      hold each timeframe's name once. */
  lemma {:induction false} StancesPartition(tfs: seq<TimeframeStructure>, s: Direction)
    ensures multiset(NamesWith(tfs, s, AlignedTf)) + multiset(NamesWith(tfs, s, RangingTf))
            + multiset(NamesWith(tfs, s, MisalignedTf)) == multiset(NamesOf(tfs))
  {
    if tfs != [] {
      StancesPartition(tfs[..|tfs| - 1], s);
      NamesWithStep(tfs, s);
      NamesOfStep(tfs);
    }
  }

  /** Hence the three lists together are as long as the analysis. */
  lemma StanceCounts(tfs: seq<TimeframeStructure>, s: Direction)
    ensures |NamesWith(tfs, s, AlignedTf)| + |NamesWith(tfs, s, RangingTf)| + |NamesWith(tfs, s, MisalignedTf)| == |tfs|
  {
    StancesPartition(tfs, s);
    var a, r, m := NamesWith(tfs, s, AlignedTf), NamesWith(tfs, s, RangingTf), NamesWith(tfs, s, MisalignedTf);
    assert |multiset(a) + multiset(r) + multiset(m)| == |a| + |r| + |m|;
    assert |multiset(NamesOf(tfs))| == |tfs|;
  }

  /** A stance list is complete exactly when every timeframe has that stance. */
  lemma {:induction false} AllWithStance(tfs: seq<TimeframeStructure>, s: Direction, c: Stance)
    ensures |NamesWith(tfs, s, c)| == |tfs| <==> forall i :: 0 <= i < |tfs| ==> StanceOf(tfs[i], s) == c
  {
    if tfs != [] {
      var init := tfs[..|tfs| - 1];
      AllWithStance(init, s, c);
      assert forall i :: 0 <= i < |init| ==> init[i] == tfs[i];
    }
  }

  /** The aligned share reaches 100% exactly when every one of a non-empty set
      of timeframes agrees with the signal. */
  lemma PctFullIffAllAgree(n: nat, total: nat)
    requires n <= total
    ensures AlignmentPct(n, total) >= 100.0 <==> total > 0 && n == total
  {
    if total > 0 {
      var q := n as real / total as real;
      assert q * total as real == n as real;
      if n < total {
        assert q < 1.0;
      }
    }
  }

  /** The aligned share is a percentage: it lies in [0, 100]. */
  lemma AlignmentPctInRange(s: Direction, tfs: seq<TimeframeStructure>, requireAll: bool)
    ensures var a := AlignmentOf(Some(s), tfs, requireAll);
      a.Alignment? && 0.0 <= a.alignmentPct <= 100.0
  {
    StanceCounts(tfs, s);
    if |tfs| > 0 {
      PercentOfWhole(|NamesWith(tfs, s, AlignedTf)|, |tfs|);
    }
  }

  /** Without requireAll, the signal counts as aligned exactly when at most
      half of the timeframes stand against it. */
  lemma AlignedIffFewAgainst(s: Direction, tfs: seq<TimeframeStructure>)
    ensures var a := AlignmentOf(Some(s), tfs, false);
      a.aligned <==> 2 * |a.misalignedTfs| <= |tfs|
  {
    StanceCounts(tfs, s);
  }

  /** With requireAll, the signal counts as aligned exactly when every
      timeframe agrees with it. */
  lemma RequireAllMeansEveryTimeframe(s: Direction, tfs: seq<TimeframeStructure>)
    ensures AlignmentOf(Some(s), tfs, true).aligned <==> forall i :: 0 <= i < |tfs| ==> StanceOf(tfs[i], s) == AlignedTf
  {
    AllWithStance(tfs, s, AlignedTf);
  }

  /** Bonus points for the alignment: none when not aligned, then 20, 15, 10
      or 5 by strength. */
  function MtfScoreBonus(a: Alignment): (b: int)
    ensures b == 0 <==> a.NoSignal? || !a.aligned
    ensures b in {0, 5, 10, 15, 20}
    ensures a.Alignment? && a.aligned ==> (b == 20 <==> a.strength == Perfect)
    ensures a.Alignment? && a.aligned ==> (b == 15 <==> a.strength == Strong)
    ensures a.Alignment? && a.aligned ==> (b == 10 <==> a.strength == Weak)
    ensures a.Alignment? && a.aligned ==> (b == 5 <==> a.strength == Poor)
  {
    if a.NoSignal? || !a.aligned then 0
    else match a.strength
      case Perfect => 20
      case Strong => 15
      case Weak => 10
      case Poor => 5
  }

  /** The full 20 points are given exactly when there is at least one
      timeframe and every timeframe agrees with the signal. */
  lemma FullBonusIffAllAgree(s: Direction, tfs: seq<TimeframeStructure>, requireAll: bool)
    ensures MtfScoreBonus(AlignmentOf(Some(s), tfs, requireAll)) == 20 <==>
              |tfs| > 0 && forall i :: 0 <= i < |tfs| ==> StanceOf(tfs[i], s) == AlignedTf
  {
    AllWithStance(tfs, s, AlignedTf);
    StanceCounts(tfs, s);
    PctFullIffAllAgree(|NamesWith(tfs, s, AlignedTf)|, |tfs|);
  }

  /** An empty analysis counts as aligned with POOR strength and earns 5 points. */
  lemma EmptyAnalysisEarnsFive(s: Direction, requireAll: bool)
    ensures var a := AlignmentOf(Some(s), [], requireAll);
      a.aligned && a.strength == Poor && a.alignmentPct == 0.0 && MtfScoreBonus(a) == 5
  {
  }
}
