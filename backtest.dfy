/** The bar-by-bar replay of the strategy over a historical candle series:
    per-index detectors, the limit-order simulator, the scan that keeps the
    running balance, equity curve and trade log, and the summary metrics. */
module Backtest {
  import opened Candles
  import Patterns

  // ---------------------------------------------------------------------------
  // Detectors evaluated at a scan index

  /** The up to 20 candles before `index` in which swing points are sought. */
  function MssWindow(df: seq<Candle>, index: nat): (w: seq<Candle>)
    ensures index <= |df| ==> w == df[index - MinNat(20, index)..index]
  {
    ILoc(df, index - MinNat(20, index), index)
  }

  /** The close of candle index-1 is above the window's last swing high. */
  predicate BreaksLastHigh(df: seq<Candle>, index: nat)
    requires 1 <= index <= |df|
  {
    var w := MssWindow(df, index);
    var k := LastTrue(SwingHighMask(w));
    k.Some? && df[index - 1].close > w[k.value].high
  }

  /** The close of candle index-1 is below the window's last swing low. */
  predicate BreaksLastLow(df: seq<Candle>, index: nat)
    requires 1 <= index <= |df|
  {
    var w := MssWindow(df, index);
    var k := LastTrue(SwingLowMask(w));
    k.Some? && df[index - 1].close < w[k.value].low
  }

  /** The shift at a scan index: the close of candle index-1 against the last
      swing high and the last swing low of the window before `index`. Both
      kinds of swing must be present; bullish is tested first. */
  function DetectMss(df: seq<Candle>, index: nat): (r: Option<Patterns.Shift>)
    requires index < 3 || index <= |df|
    ensures index < 3 ==> r.None?
  {
    if index < 3 then None
    else
      var w := MssWindow(df, index);
      var current := df[index - 1];
      var sh, sl := LastTrue(SwingHighMask(w)), LastTrue(SwingLowMask(w));
      if sh.None? || sl.None? then None
      else if current.close > w[sh.value].high then Some(Patterns.Shift(Bullish, current.low))
      else if current.close < w[sl.value].low then Some(Patterns.Shift(Bearish, current.high))
      else None
  }

  /** A shift needs both a swing high and a swing low in the window; it is
      bullish, with the stop at the signal candle's low, exactly when that
      candle closes above the last swing high, and otherwise bearish, with
      the stop at its high, exactly when it closes below the last swing low. */
  lemma DetectMssMeaning(df: seq<Candle>, index: nat)
    requires 3 <= index <= |df|
    ensures var r := DetectMss(df, index);
      var hasBoth := LastTrue(SwingHighMask(MssWindow(df, index))).Some?
                     && LastTrue(SwingLowMask(MssWindow(df, index))).Some?;
      && (r.Some? ==> hasBoth)
      && (r.Some? && r.value.kind == Bullish <==> hasBoth && BreaksLastHigh(df, index))
      && (r.Some? && r.value.kind == Bearish <==> hasBoth && !BreaksLastHigh(df, index) && BreaksLastLow(df, index))
      && (r.Some? && r.value.kind == Bullish ==> r.value.stopLoss == df[index - 1].low)
      && (r.Some? && r.value.kind == Bearish ==> r.value.stopLoss == df[index - 1].high)
  {
  }

  /** The shift at `index` depends only on the up to 20 candles before it:
      two series that agree there give the same answer, so in particular
      nothing at or after `index` is looked at. */
  lemma DetectMssSeesOnlyItsWindow(df1: seq<Candle>, df2: seq<Candle>, index: nat)
    requires 3 <= index <= |df1| && index <= |df2|
    requires df1[index - MinNat(20, index)..index] == df2[index - MinNat(20, index)..index]
    ensures DetectMss(df1, index) == DetectMss(df2, index)
  {
    assert df1[index - 1] == df1[index - MinNat(20, index)..index][MinNat(20, index) - 1];
    assert df2[index - 1] == df2[index - MinNat(20, index)..index][MinNat(20, index) - 1];
  }

  /** Over a window whose lows rise bar after bar there is no swing low, so
      no shift at all, and in particular never a bearish one. */
  lemma RisingLowsGiveNoShift(df: seq<Candle>, index: nat)
    requires 3 <= index <= |df|
    requires forall k :: index - MinNat(20, index) <= k < index - 1 ==> df[k].low < df[k + 1].low
    ensures DetectMss(df, index) == None
  {
    var base := index - MinNat(20, index);
    var w := MssWindow(df, index);
    forall j | 0 <= j < |w|
      ensures !SwingLowMask(w)[j]
    {
      if 0 < j < |w| - 1 {
        assert w[j - 1] == df[base + j - 1] && w[j] == df[base + j];
      }
    }
    assert LastTrue(SwingLowMask(w)).None?;
  }

  /** The `lookback` candles before `index`, ending with the shift candle. */
  function ObWindowAt(df: seq<Candle>, index: nat, lookback: nat): (w: seq<Candle>)
    requires lookback <= index
    ensures index <= |df| ==> w == df[index - lookback..index]
  {
    ILoc(df, index - lookback, index)
  }

  /** The order block at a scan index: the last candle opposing the shift among
      the `lookback` candles before `index`; none without a shift or when
      fewer than `lookback` candles precede `index`. */
  function FindOrderBlock(df: seq<Candle>, index: nat, mss: Option<Direction>, lookback: nat)
    : (r: Option<Patterns.OrderBlock>)
    ensures mss.None? || index < lookback ==> r.None?
  {
    if mss.None? || index < lookback then None
    else Patterns.LastOpposingBlock(ObWindowAt(df, index, lookback), mss.value)
  }

  /** There is a block exactly when the window holds a candle opposing the
      shift, and it is built from the last such candle, in the shift's direction. */
  lemma FindOrderBlockMeaning(df: seq<Candle>, index: nat, d: Direction, lookback: nat)
    requires lookback <= index
    ensures var r := FindOrderBlock(df, index, Some(d), lookback);
      var w := ObWindowAt(df, index, lookback);
      && (r.None? <==> forall k :: 0 <= k < |w| ==> !Opposes(w[k], d))
      && (r.Some? ==> && r.value.kind == d && r.value.bodyLow <= r.value.bodyHigh
                      && exists k :: 0 <= k < |w| && Opposes(w[k], d) && r.value == Patterns.BlockOf(w[k], d)
                                     && forall j :: k < j < |w| ==> !Opposes(w[j], d))
  {
  }

  /** Replaying the live detector on the series cut just after `index` finds
      the same order block: both windows end with the shift candle. */
  lemma OrderBlockMatchesLiveDetector(df: seq<Candle>, index: nat, mss: Option<Direction>, lookback: nat)
    requires lookback <= index < |df|
    ensures FindOrderBlock(df, index, mss, lookback) == Patterns.FindOrderBlock(df[..index + 1], mss, lookback)
  {
    assert Patterns.ObWindow(df[..index + 1], lookback) == ObWindowAt(df, index, lookback);
  }

  /** The gap at a scan index, over candles index-4 and index-2. */
  function FindFvg(df: seq<Candle>, index: nat): (r: Option<Patterns.Fvg>)
    requires index < 4 || index < |df| + 2
    ensures index < 4 ==> r.None?
    ensures r.Some? ==> r.value.low < r.value.high
    ensures index >= 4 ==> (r.Some? && r.value.kind == Bullish <==> df[index - 2].low > df[index - 4].high)
    ensures index >= 4 ==> (r.None? <==> df[index - 2].low <= df[index - 4].high && df[index - 2].high >= df[index - 4].low)
  {
    if index < 4 then None else Patterns.GapOf(df[index - 4], df[index - 2])
  }

  /** ... and it is the live detector's gap on the series cut at `index`. */
  lemma FvgMatchesLiveDetector(df: seq<Candle>, index: nat)
    requires 4 <= index <= |df|
    ensures FindFvg(df, index) == Patterns.FindFvg(df[..index])
  {
  }

  /** The confluence figures the replay keeps: the overlap share and its tier. */
  datatype Confluence = Confluence(overlapPct: real, quality: Patterns.Tier)

  /** The default minimum overlap, in percent. */
  const DefaultMinOverlap: real := 40.0

  function CheckConfluence(ob: Option<Patterns.OrderBlock>, fvg: Option<Patterns.Fvg>, minOverlap: real)
    : (r: Option<Confluence>)
  {
    var c := Patterns.CheckConfluence(ob, fvg, minOverlap);
    if c.None? then None else Some(Confluence(c.value.overlapPct, c.value.quality))
  }

  /** The replay's confluence is the live engine's, reduced to its share and
      tier: present under the same conditions, at least the minimum and at
      most the whole gap, and tiered by the 70 and 50 percent thresholds. */
  lemma ConfluenceMatchesLiveEngine(ob: Option<Patterns.OrderBlock>, fvg: Option<Patterns.Fvg>, minOverlap: real)
    ensures var r := CheckConfluence(ob, fvg, minOverlap);
      var c := Patterns.CheckConfluence(ob, fvg, minOverlap);
      && (r.None? <==> c.None?)
      && (r.Some? ==> r.value.overlapPct == c.value.overlapPct && r.value.quality == c.value.quality)
      && (r.Some? ==> minOverlap <= r.value.overlapPct <= 100.0 && r.value.quality == Patterns.TierOf(r.value.overlapPct))
  {
  }

  datatype Quality = Quality(score: int, rating: Patterns.Rating)

  function ConfluenceTier(c: Option<Confluence>): Option<Patterns.Tier>
  {
    if c.None? then None else Some(c.value.quality)
  }

  /** The replay scores a setup exactly as the live engine does. */
  function CalculateSetupQuality(mss: Option<Direction>, ob: Option<Patterns.OrderBlock>, fvg: Option<Patterns.Fvg>,
                                 confluence: Option<Confluence>): (q: Quality)
    ensures 0 <= q.score <= 100 && q.rating == Patterns.RatingOf(q.score)
  {
    var score := Patterns.SetupScore(mss.Some?, ob.Some?, fvg.Some?, ConfluenceTier(confluence));
    Quality(score, Patterns.RatingOf(score))
  }

  /** The replay scores a setup and rates it exactly as the live engine does. */
  lemma ScoreMatchesLiveEngine(mss: Option<Direction>, ob: Option<Patterns.OrderBlock>, fvg: Option<Patterns.Fvg>,
                               minOverlap: real)
    ensures var q := CalculateSetupQuality(mss, ob, fvg, CheckConfluence(ob, fvg, minOverlap));
      var a := Patterns.AnalyzeSetupQuality(mss, ob, fvg, Patterns.CheckConfluence(ob, fvg, minOverlap));
      q.score == a.score && q.rating == a.rating
  {
  }

  /** The limit price: the middle of the overlap for a high confluence,
      otherwise the order block's body edge (low for a bullish block, high
      for a bearish one), otherwise none. */
  function GetEntryPrice(ob: Option<Patterns.OrderBlock>, fvg: Option<Patterns.Fvg>, confluence: Option<Confluence>)
    : (r: Option<real>)
    requires confluence.Some? && confluence.value.quality == Patterns.High ==> ob.Some? && fvg.Some?
    ensures confluence.Some? && confluence.value.quality == Patterns.High ==>
              r == Some((Min(ob.value.high, fvg.value.high) + Max(ob.value.low, fvg.value.low)) / 2.0)
    ensures !(confluence.Some? && confluence.value.quality == Patterns.High) ==>
              r == (if ob.None? then None
                    else Some(if ob.value.kind == Bullish then ob.value.bodyLow else ob.value.bodyHigh))
  {
    if confluence.Some? && confluence.value.quality == Patterns.High then
      Some((Min(ob.value.high, fvg.value.high) + Max(ob.value.low, fvg.value.low)) / 2.0)
    else if ob.Some? then Some(if ob.value.kind == Bullish then ob.value.bodyLow else ob.value.bodyHigh)
    else None
  }

  /** On the confluence the replay computes, there is an entry exactly when
      there is an order block, and it lies within the block's range; for a
      high confluence it lies within the gap as well. */
  lemma EntryLiesInOrderBlock(ob: Option<Patterns.OrderBlock>, fvg: Option<Patterns.Fvg>, minOverlap: real)
    requires ob.Some? ==> Patterns.SaneBlock(ob.value)
    ensures var c := CheckConfluence(ob, fvg, minOverlap);
      var e := GetEntryPrice(ob, fvg, c);
      && (e.Some? <==> ob.Some?)
      && (e.Some? ==> InRange(e.value, ob.value.low, ob.value.high))
      && (c.Some? && c.value.quality == Patterns.High ==> InRange(e.value, fvg.value.low, fvg.value.high))
  {
    var pc := Patterns.CheckConfluence(ob, fvg, minOverlap);
    if pc.Some? {
      assert Patterns.IsZoneOf(pc.value, ob.value, fvg.value);
    }
  }

  // ---------------------------------------------------------------------------
  // Risk and reward

  /** Position-risk multiplier by setup score: 1.5 from 90, 1.3 from 85, 1.1 from 75. */
  function RiskMultiplier(score: int): (m: real)
    ensures 1.0 <= m <= 1.5
    ensures score >= 90 <==> m == 1.5
    ensures 85 <= score < 90 <==> m == 1.3
    ensures 75 <= score < 85 <==> m == 1.1
    ensures score < 75 <==> m == 1.0
  {
    if score >= 90 then 1.5 else if score >= 85 then 1.3 else if score >= 75 then 1.1 else 1.0
  }

  /** Reward-to-risk ratio by setup score: 3.0 from 90, 2.5 from 75, else 2.0. */
  function RrRatio(score: int): (rr: real)
    ensures 2.0 <= rr <= 3.0
    ensures score >= 90 <==> rr == 3.0
    ensures 75 <= score < 90 <==> rr == 2.5
    ensures score < 75 <==> rr == 2.0
  {
    if score >= 90 then 3.0 else if score >= 75 then 2.5 else 2.0
  }

  /** A better score never lowers the risk multiplier or the reward ratio. */
  lemma BetterScoreNeverRisksOrAimsLess(s1: int, s2: int)
    requires s1 <= s2
    ensures RiskMultiplier(s1) <= RiskMultiplier(s2) && RrRatio(s1) <= RrRatio(s2)
  {
  }

  /** The target: rr times the stop distance beyond the entry, in the trade's direction. */
  function TakeProfit(d: Direction, entry: real, sl: real, rr: real): (tp: real)
    ensures rr >= 0.0 ==> Abs(tp - entry) == Abs(entry - sl) * rr
    ensures rr > 0.0 && entry != sl ==> (d == Bullish <==> tp > entry)
  {
    var risk := Abs(entry - sl);
    if d == Bullish then entry + risk * rr else entry - risk * rr
  }

  // ---------------------------------------------------------------------------
  // Trade simulation

  /** The smallest stop distance the simulator accepts (one EURUSD point). */
  const Point: real := 0.0001
  /** Bars a limit order waits for its fill. */
  const FillWindow: nat := 60
  /** Bars a filled trade is followed before it times out. */
  const HoldWindow: nat := 200
  /** Pips per unit of price. */
  const PipsPerUnit: real := 10000.0

  datatype Outcome = Win | Loss | Timeout | Expired

  datatype TradeResult = TradeResult(outcome: Outcome, pnl: real, pips: real, barsToFill: Option<nat>,
                                     barsHeld: Option<nat>, exitPrice: Option<real>)

  /** The limit order at `entry` is filled by candle c. */
  predicate Fills(c: Candle, d: Direction, entry: real) {
    if d == Bullish then c.low <= entry else c.high >= entry
  }

  predicate StopHit(c: Candle, d: Direction, sl: real) {
    if d == Bullish then c.low <= sl else c.high >= sl
  }

  predicate TargetHit(c: Candle, d: Direction, tp: real) {
    if d == Bullish then c.high >= tp else c.low <= tp
  }

  /** The first bar in [from, to) that fills the order. */
  function FirstFill(df: seq<Candle>, from: nat, to: nat, d: Direction, entry: real): (r: Option<nat>)
    requires to <= |df|
    ensures r.Some? ==> from <= r.value < to
    decreases (to as int) - (from as int)
  {
    if from >= to then None
    else if Fills(df[from], d, entry) then Some(from)
    else FirstFill(df, from + 1, to, d, entry)
  }

  /** There is a filling bar exactly when some bar of the range reaches the
      entry, and it is the first such bar. */
  lemma {:induction false} FirstFillMeaning(df: seq<Candle>, from: nat, to: nat, d: Direction, entry: real)
    requires to <= |df|
    ensures var r := FirstFill(df, from, to, d, entry);
      && (r.None? <==> forall k :: from <= k < to ==> !Fills(df[k], d, entry))
      && (r.Some? ==> Fills(df[r.value], d, entry) && forall k :: from <= k < r.value ==> !Fills(df[k], d, entry))
    decreases (to as int) - (from as int)
  {
    if from < to && !Fills(df[from], d, entry) {
      FirstFillMeaning(df, from + 1, to, d, entry);
    }
  }

  /** The first bar in [from, to) that touches the stop or the target. */
  function FirstExit(df: seq<Candle>, from: nat, to: nat, d: Direction, sl: real, tp: real): (r: Option<nat>)
    requires to <= |df|
    ensures r.Some? ==> from <= r.value < to
    decreases (to as int) - (from as int)
  {
    if from >= to then None
    else if StopHit(df[from], d, sl) || TargetHit(df[from], d, tp) then Some(from)
    else FirstExit(df, from + 1, to, d, sl, tp)
  }

  /** There is an exit bar exactly when some bar of the range touches the
      stop or the target, and it is the first such bar. */
  lemma {:induction false} FirstExitMeaning(df: seq<Candle>, from: nat, to: nat, d: Direction, sl: real, tp: real)
    requires to <= |df|
    ensures var r := FirstExit(df, from, to, d, sl, tp);
      && (r.None? <==> forall k :: from <= k < to ==> !StopHit(df[k], d, sl) && !TargetHit(df[k], d, tp))
      && (r.Some? ==> && (StopHit(df[r.value], d, sl) || TargetHit(df[r.value], d, tp))
                      && forall k :: from <= k < r.value ==> !StopHit(df[k], d, sl) && !TargetHit(df[k], d, tp))
    decreases (to as int) - (from as int)
  {
    if from < to && !(StopHit(df[from], d, sl) || TargetHit(df[from], d, tp)) {
      FirstExitMeaning(df, from + 1, to, d, sl, tp);
    }
  }

  /** The first filling bar is the one that fills with none before it. */
  lemma {:induction false} FirstFillIs(df: seq<Candle>, from: nat, to: nat, d: Direction, entry: real, f: nat)
    requires from <= f < to <= |df| && Fills(df[f], d, entry)
    requires forall k :: from <= k < f ==> !Fills(df[k], d, entry)
    ensures FirstFill(df, from, to, d, entry) == Some(f)
    decreases f - from
  {
    if from < f {
      FirstFillIs(df, from + 1, to, d, entry, f);
    }
  }

  /** The first exit bar is the one that touches a level with none before it. */
  lemma {:induction false} FirstExitIs(df: seq<Candle>, from: nat, to: nat, d: Direction, sl: real, tp: real, e: nat)
    requires from <= e < to <= |df| && (StopHit(df[e], d, sl) || TargetHit(df[e], d, tp))
    requires forall k :: from <= k < e ==> !StopHit(df[k], d, sl) && !TargetHit(df[k], d, tp)
    ensures FirstExit(df, from, to, d, sl, tp) == Some(e)
    decreases e - from
  {
    if from < e {
      FirstExitIs(df, from + 1, to, d, sl, tp, e);
    }
  }

  /** The fill loop: walks bars from .. to-1 until one reaches the entry. */
  method FindFill(df: seq<Candle>, from: nat, to: nat, d: Direction, entry: real) returns (fill: Option<nat>)
    requires to <= |df|
    ensures fill == FirstFill(df, from, to, d, entry)
  {
    var i: int := from;
    while i < to
      invariant from <= i
      invariant FirstFill(df, from, to, d, entry) == FirstFill(df, i, to, d, entry)
      decreases if i <= to then to - i else 0
    {
      if Fills(df[i], d, entry) {
        return Some(i);
      }
      i := i + 1;
    }
    return None;
  }

  /** The exit loop: walks bars from .. to-1, testing the stop before the
      target, until one touches either. */
  method FindExit(df: seq<Candle>, from: nat, to: nat, d: Direction, sl: real, tp: real) returns (exit: Option<nat>)
    requires to <= |df|
    ensures exit == FirstExit(df, from, to, d, sl, tp)
  {
    var i: int := from;
    while i < to
      invariant from <= i
      invariant FirstExit(df, from, to, d, sl, tp) == FirstExit(df, i, to, d, sl, tp)
      decreases if i <= to then to - i else 0
    {
      if StopHit(df[i], d, sl) {
        return Some(i);
      }
      if TargetHit(df[i], d, tp) {
        return Some(i);
      }
      i := i + 1;
    }
    return None;
  }

  /** The money at risk: the balance times the base risk fraction scaled by the score's multiplier. */
  function RiskAmount(balance: real, riskPerTrade: real, score: int): real
  {
    balance * (riskPerTrade * RiskMultiplier(score))
  }

  function ExpiredResult(): TradeResult
  {
    TradeResult(Expired, 0.0, 0.0, None, None, None)
  }

  /** The outcome of a limit order placed at signal bar `signal`: expired when
      the stop is closer than a point or nothing in the next 60 bars reaches
      the entry; once filled, the first of the next 200 bars (the fill bar
      included) to touch the stop (checked first) or the target decides a
      loss or a win, and if none does the trade times out. */
  function SimulateSpec(df: seq<Candle>, signal: nat, d: Direction, entry: real, sl: real, tp: real, score: int,
                        balance: real, riskPerTrade: real): (r: TradeResult)
    ensures Abs(entry - sl) < Point ==> r == ExpiredResult()
    ensures r.outcome == Expired || r.outcome == Timeout ==> r.pnl == 0.0 && r.pips == 0.0
  {
    var amount := RiskAmount(balance, riskPerTrade, score);
    var slDistance := Abs(entry - sl);
    if slDistance < Point then ExpiredResult()
    else
      var fill := FirstFill(df, signal, MinNat(signal + FillWindow, |df|), d, entry);
      if fill.None? then ExpiredResult()
      else
        var f := fill.value;
        var exit := FirstExit(df, f, MinNat(f + HoldWindow, |df|), d, sl, tp);
        if exit.None? then TradeResult(Timeout, 0.0, 0.0, Some(f - signal), None, None)
        else
          var e := exit.value;
          if StopHit(df[e], d, sl) then
            TradeResult(Loss, -amount, -slDistance * PipsPerUnit, Some(f - signal), Some(e - f), Some(sl))
          else
            TradeResult(Win, Abs(tp - entry) / slDistance * amount, Abs(tp - entry) * PipsPerUnit,
                        Some(f - signal), Some(e - f), Some(tp))
  }

  /** A loss costs the amount at risk and exits at the stop; a win earns the
      amount at risk times the ratio of the target distance to the stop
      distance and exits at the target. */
  lemma SimulationPayoff(df: seq<Candle>, signal: nat, d: Direction, entry: real, sl: real, tp: real, score: int,
                         balance: real, riskPerTrade: real)
    ensures var r := SimulateSpec(df, signal, d, entry, sl, tp, score, balance, riskPerTrade);
      && (r.outcome == Loss ==> && r.pnl == -RiskAmount(balance, riskPerTrade, score)
                                && r.pips == -Abs(entry - sl) * PipsPerUnit && r.exitPrice == Some(sl))
      && (r.outcome == Win ==> && r.pnl == Abs(tp - entry) / Abs(entry - sl) * RiskAmount(balance, riskPerTrade, score)
                               && r.pips == Abs(tp - entry) * PipsPerUnit && r.exitPrice == Some(tp))
  {
  }

  /** The simulation's timing: an order that is not expired was filled on
      the first bar of the 60 from the signal to reach the entry; a trade
      that is won or lost was closed on the first bar of the 200 from the
      fill to touch the stop or the target, and it is a loss exactly when
      that bar touches the stop. */
  lemma SimulationTiming(df: seq<Candle>, signal: nat, d: Direction, entry: real, sl: real, tp: real, score: int,
                         balance: real, riskPerTrade: real)
    ensures var r := SimulateSpec(df, signal, d, entry, sl, tp, score, balance, riskPerTrade);
      && (r.outcome == Expired <==> r.barsToFill.None?)
      && (r.barsToFill.Some? ==>
            var f := signal + r.barsToFill.value;
            r.barsToFill.value < FillWindow && f < |df| && Fills(df[f], d, entry)
            && forall k :: signal <= k < f ==> !Fills(df[k], d, entry))
      && (r.outcome == Win || r.outcome == Loss <==> r.barsHeld.Some?)
      && (r.barsHeld.Some? ==>
            var f := signal + r.barsToFill.value;
            var e := f + r.barsHeld.value;
            && r.barsHeld.value < HoldWindow && e < |df|
            && (r.outcome == Loss <==> StopHit(df[e], d, sl))
            && (r.outcome == Win ==> TargetHit(df[e], d, tp))
            && forall k :: f <= k < e ==> !StopHit(df[k], d, sl) && !TargetHit(df[k], d, tp))
  {
    var stop := MinNat(signal + FillWindow, |df|);
    FirstFillMeaning(df, signal, stop, d, entry);
    var fill := FirstFill(df, signal, stop, d, entry);
    if fill.Some? {
      FirstExitMeaning(df, fill.value, MinNat(fill.value + HoldWindow, |df|), d, sl, tp);
    }
  }

  /** The converse of the timing: the order expires only when the stop is
      closer than one point or no bar of the 60 from the signal reaches the
      entry, and a filled trade times out only when no bar of the 200 from the
      fill touches the stop or the target. So a touch inside a window always
      fills the order or decides the trade. */
  lemma SimulationSearchesWholeWindows(df: seq<Candle>, signal: nat, d: Direction, entry: real, sl: real, tp: real,
                                       score: int, balance: real, riskPerTrade: real)
    ensures var r := SimulateSpec(df, signal, d, entry, sl, tp, score, balance, riskPerTrade);
      && (r.outcome == Expired <==>
            Abs(entry - sl) < Point || forall k :: signal <= k < MinNat(signal + FillWindow, |df|) ==> !Fills(df[k], d, entry))
      && (r.outcome == Timeout ==>
            && r.barsToFill.Some?
            && var f := signal + r.barsToFill.value;
               forall k :: f <= k < MinNat(f + HoldWindow, |df|) ==> !StopHit(df[k], d, sl) && !TargetHit(df[k], d, tp))
  {
    var stop := MinNat(signal + FillWindow, |df|);
    FirstFillMeaning(df, signal, stop, d, entry);
    var fill := FirstFill(df, signal, stop, d, entry);
    if fill.Some? {
      FirstExitMeaning(df, fill.value, MinNat(fill.value + HoldWindow, |df|), d, sl, tp);
    }
  }

  /** If no bar of the fill window reaches the entry, the order expires with
      no profit or loss, whatever happens afterwards. */
  lemma UntouchedEntryExpires(df: seq<Candle>, signal: nat, d: Direction, entry: real, sl: real, tp: real,
                              score: int, balance: real, riskPerTrade: real)
    requires forall k :: signal <= k < signal + FillWindow && k < |df| ==> !Fills(df[k], d, entry)
    ensures SimulateSpec(df, signal, d, entry, sl, tp, score, balance, riskPerTrade) == ExpiredResult()
  {
    FirstFillMeaning(df, signal, MinNat(signal + FillWindow, |df|), d, entry);
  }

  /** A bar that touches both the stop and the target is a loss: the stop is
      checked first. */
  lemma StopWinsTies(df: seq<Candle>, signal: nat, d: Direction, entry: real, sl: real, tp: real,
                     score: int, balance: real, riskPerTrade: real)
    requires var r := SimulateSpec(df, signal, d, entry, sl, tp, score, balance, riskPerTrade);
      r.barsHeld.Some? && StopHit(df[signal + r.barsToFill.value + r.barsHeld.value], d, sl)
    ensures SimulateSpec(df, signal, d, entry, sl, tp, score, balance, riskPerTrade).outcome == Loss
  {
    SimulationTiming(df, signal, d, entry, sl, tp, score, balance, riskPerTrade);
  }

  /** A trade filled at bar f whose stop is not touched on bars f and f+1 and
      whose target is first touched on bar f+1 wins after one bar held, and
      pays rr times the amount at risk when the target came from TakeProfit. */
  lemma TargetOnNextBarWins(df: seq<Candle>, signal: nat, f: nat, d: Direction, entry: real, sl: real,
                            score: int, balance: real, riskPerTrade: real)
    requires Abs(entry - sl) >= Point
    requires signal <= f < signal + FillWindow && f + 1 < |df|
    requires Fills(df[f], d, entry) && forall k :: signal <= k < f ==> !Fills(df[k], d, entry)
    requires var tp := TakeProfit(d, entry, sl, RrRatio(score));
      !StopHit(df[f], d, sl) && !TargetHit(df[f], d, tp) && !StopHit(df[f + 1], d, sl) && TargetHit(df[f + 1], d, tp)
    ensures var r := SimulateSpec(df, signal, d, entry, sl, TakeProfit(d, entry, sl, RrRatio(score)), score, balance, riskPerTrade);
      && r.outcome == Win && r.barsToFill == Some(f - signal) && r.barsHeld == Some(1)
      && r.pnl == RrRatio(score) * RiskAmount(balance, riskPerTrade, score)
  {
    var tp := TakeProfit(d, entry, sl, RrRatio(score));
    var slDistance := Abs(entry - sl);
    FirstFillIs(df, signal, MinNat(signal + FillWindow, |df|), d, entry, f);
    FirstExitIs(df, f, MinNat(f + HoldWindow, |df|), d, sl, tp, f + 1);
    WinPaysRewardRatio(entry, sl, d, RrRatio(score), RiskAmount(balance, riskPerTrade, score));
  }

  /** An order whose stop lies on the wrong side of its entry (above it for a
      buy, below it for a sell) is never won: the bar that fills it already
      touches the stop, so it expires or loses on its fill bar. */
  lemma StopBeyondEntryLosesOnFill(df: seq<Candle>, signal: nat, d: Direction, entry: real, sl: real, tp: real,
                                   score: int, balance: real, riskPerTrade: real)
    requires if d == Bullish then entry < sl else sl < entry
    ensures var r := SimulateSpec(df, signal, d, entry, sl, tp, score, balance, riskPerTrade);
      r.outcome == Expired || (r.outcome == Loss && r.barsHeld == Some(0))
  {
    var stop := MinNat(signal + FillWindow, |df|);
    FirstFillMeaning(df, signal, stop, d, entry);
    var fill := FirstFill(df, signal, stop, d, entry);
    if Abs(entry - sl) >= Point && fill.Some? {
      var f := fill.value;
      assert StopHit(df[f], d, sl);
      FirstExitIs(df, f, MinNat(f + HoldWindow, |df|), d, sl, tp, f);
    }
  }

  /** With the target set by TakeProfit, a win pays exactly rr times the amount at risk. */
  lemma WinPaysRewardRatio(entry: real, sl: real, d: Direction, rr: real, amount: real)
    requires entry != sl && rr >= 0.0
    ensures Abs(TakeProfit(d, entry, sl, rr) - entry) / Abs(entry - sl) * amount == rr * amount
  {
    var s := Abs(entry - sl);
    assert Abs(TakeProfit(d, entry, sl, rr) - entry) == s * rr;
    assert s * rr / s == rr;
  }

  // ---------------------------------------------------------------------------
  // The scan

  /** The gates of a run: minimum score, minimum overlap and whether
      confluence is required. */
  datatype Config = Config(minQuality: real, minConfluence: real, requireConfluence: bool)

  /** The gates used when no configuration is given. */
  const DefaultConfig: Config := Config(70.0, 40.0, true)

  /** One row of the trade log. */
  datatype TradeRecord = TradeRecord(date: int, direction: Direction, entry: real, sl: real, tp: real,
                                     qualityScore: int, quality: Patterns.Rating, rrRatio: real, result: TradeResult)

  /** A trade the scan decides to place: entry, target, score and reward ratio. */
  datatype Plan = Plan(entry: real, tp: real, quality: Quality, rr: real)

  /** The first scanned index, and the bars kept free at the end for the simulator. */
  const WarmUp: nat := 50
  const ForwardBuffer: nat := 200

  /** Whether, and how, to trade the shift found at index i: the confluence gate,
      the score gate, and an entry that is present and non-zero. */
  function PlanAt(df: seq<Candle>, i: nat, cfg: Config, shift: Patterns.Shift): (p: Option<Plan>)
    requires i < |df|
  {
    var d := shift.kind;
    var ob := FindOrderBlock(df, i, Some(d), 20);
    var fvg := FindFvg(df, i);
    var confluence := CheckConfluence(ob, fvg, cfg.minConfluence);
    if cfg.requireConfluence && confluence.None? then None
    else
      var quality := CalculateSetupQuality(Some(d), ob, fvg, confluence);
      if (quality.score as real) < cfg.minQuality then None
      else
        var entry := GetEntryPrice(ob, fvg, confluence);
        if entry.None? || entry.value == 0.0 then None
        else
          var rr := RrRatio(quality.score);
          Some(Plan(entry.value, TakeProfit(d, entry.value, shift.stopLoss, rr), quality, rr))
  }

  /** A shift is planned exactly when it passes every gate: confluence was
      found when required, its score reaches the minimum, and its entry is
      present and non-zero. The plan then trades that entry at that quality,
      and the target sits rr times the stop distance beyond the entry, with
      rr set by the score. */
  lemma PlanAtMeaning(df: seq<Candle>, i: nat, cfg: Config, shift: Patterns.Shift)
    requires i < |df|
    ensures var p := PlanAt(df, i, cfg, shift);
      var ob, fvg := FindOrderBlock(df, i, Some(shift.kind), 20), FindFvg(df, i);
      var c := CheckConfluence(ob, fvg, cfg.minConfluence);
      var q := CalculateSetupQuality(Some(shift.kind), ob, fvg, c);
      var e := GetEntryPrice(ob, fvg, c);
      && (p.Some? <==> (!cfg.requireConfluence || c.Some?) && q.score as real >= cfg.minQuality
                       && e.Some? && e.value != 0.0)
      && (p.Some? ==> p.value.entry == e.value && p.value.quality == q)
      && (p.Some? ==> p.value.entry != 0.0 && p.value.quality.score as real >= cfg.minQuality)
      && (p.Some? ==> p.value.rr == RrRatio(p.value.quality.score)
                      && p.value.tp == TakeProfit(shift.kind, p.value.entry, shift.stopLoss, p.value.rr))
      && (p.Some? && cfg.requireConfluence ==>
            CheckConfluence(FindOrderBlock(df, i, Some(shift.kind), 20), FindFvg(df, i), cfg.minConfluence).Some?)
  {
  }

  /** The running state of a scan. */
  datatype ScanState = ScanState(balance: real, trades: seq<TradeRecord>, equity: seq<real>,
                                 signalsFound: nat, tradesTaken: nat)

  /** What the scan makes of bar i: no shift, a shift that is not traded
      (a gate refused it, the order expired or the trade timed out), or a
      logged trade. */
  datatype BarOutcome = NoSignal | Skipped | Traded(record: TradeRecord)

  /** The decision at bar i with the given balance: every shift is a signal;
      a planned trade that wins or loses is logged with its simulated result. */
  function BarOutcomeAt(df: seq<Candle>, cfg: Config, riskPerTrade: real, balance: real, i: nat): (b: BarOutcome)
    requires i < |df|
    ensures b.Traded? ==> b.record.result.outcome in {Win, Loss}
  {
    var shift := DetectMss(df, i);
    if shift.None? then NoSignal
    else
      var plan := PlanAt(df, i, cfg, shift.value);
      if plan.None? then Skipped
      else
        var p := plan.value;
        var result := SimulateSpec(df, i, shift.value.kind, p.entry, shift.value.stopLoss, p.tp,
                                   p.quality.score, balance, riskPerTrade);
        if result.outcome != Win && result.outcome != Loss then Skipped
        else Traded(TradeRecord(df[i].time, shift.value.kind, p.entry, shift.value.stopLoss, p.tp,
                                p.quality.score, p.quality.rating, p.rr, result))
  }

  /** A bar yields a signal exactly when a shift is detected there. A shift
      is logged exactly when it is planned and its simulation wins or loses,
      and the record holds the plan's entry, target, score, rating and ratio,
      that shift's direction and stop, the bar's time and the simulation of
      its order against the balance before it. */
  lemma BarOutcomeMeaning(df: seq<Candle>, cfg: Config, riskPerTrade: real, balance: real, i: nat)
    requires i < |df|
    ensures var b := BarOutcomeAt(df, cfg, riskPerTrade, balance, i);
      && (b.NoSignal? <==> DetectMss(df, i).None?)
      && (DetectMss(df, i).Some? ==>
            var shift := DetectMss(df, i).value;
            var p := PlanAt(df, i, cfg, shift);
            && (p.None? ==> b.Skipped?)
            && (p.Some? ==>
                  var r := SimulateSpec(df, i, shift.kind, p.value.entry, shift.stopLoss, p.value.tp,
                                        p.value.quality.score, balance, riskPerTrade);
                  && (b.Traded? <==> r.outcome == Win || r.outcome == Loss)
                  && (b.Traded? ==> && b.record.entry == p.value.entry && b.record.tp == p.value.tp
                                    && b.record.qualityScore == p.value.quality.score
                                    && b.record.quality == p.value.quality.rating
                                    && b.record.rrRatio == p.value.rr && b.record.result == r)))
      && (b.Traded? ==> var t := b.record;
            && t.date == df[i].time && t.direction == DetectMss(df, i).value.kind
            && t.sl == DetectMss(df, i).value.stopLoss
            && t.result == SimulateSpec(df, i, t.direction, t.entry, t.sl, t.tp, t.qualityScore, balance, riskPerTrade))
  {
  }

  /** Folds a bar's outcome into the state: a signal is counted; a logged
      trade's profit is added to the balance and the new balance appended to
      the equity curve. */
  function Apply(st: ScanState, b: BarOutcome): (st2: ScanState)
    ensures b.NoSignal? ==> st2 == st
    ensures b.Skipped? ==> st2 == st.(signalsFound := st.signalsFound + 1)
    ensures b.Traded? ==> && st2.trades == st.trades + [b.record] && st2.balance == st.balance + b.record.result.pnl
                          && st2.equity == st.equity + [st2.balance] && st2.tradesTaken == st.tradesTaken + 1
                          && st2.signalsFound == st.signalsFound + 1
  {
    match b
    case NoSignal => st
    case Skipped => st.(signalsFound := st.signalsFound + 1)
    case Traded(t) =>
      var balance := st.balance + t.result.pnl;
      ScanState(balance, st.trades + [t], st.equity + [balance], st.signalsFound + 1, st.tradesTaken + 1)
  }

  function InitialState(initialBalance: real): ScanState
  {
    ScanState(initialBalance, [], [initialBalance], 0, 0)
  }

  /** The state after bars WarmUp .. k-1 when bar i, entered with balance
      b, is decided by decide(b, i). */
  function ScanWith(decide: (real, nat) -> BarOutcome, initialBalance: real, k: nat): ScanState
  {
    if k <= WarmUp then InitialState(initialBalance)
    else
      var prev := ScanWith(decide, initialBalance, k - 1);
      Apply(prev, decide(prev.balance, k - 1))
  }

  /** The strategy's decision at each bar of df (no bar beyond the series trades). */
  function StrategyOn(df: seq<Candle>, cfg: Config, riskPerTrade: real): (real, nat) -> BarOutcome
  {
    (balance: real, i: nat) => if i < |df| then BarOutcomeAt(df, cfg, riskPerTrade, balance, i) else NoSignal
  }

  /** The state after scanning bars WarmUp .. k-1 of df. */
  function ScanUpTo(df: seq<Candle>, cfg: Config, riskPerTrade: real, initialBalance: real, k: nat): ScanState
  {
    ScanWith(StrategyOn(df, cfg, riskPerTrade), initialBalance, k)
  }

  /** Scanning one more bar applies that bar's decision to the state so far. */
  lemma ScanUpToStep(df: seq<Candle>, cfg: Config, riskPerTrade: real, initialBalance: real, k: nat,
                     prev: ScanState, b: BarOutcome)
    requires WarmUp <= k < |df| && prev == ScanUpTo(df, cfg, riskPerTrade, initialBalance, k)
    requires b == BarOutcomeAt(df, cfg, riskPerTrade, prev.balance, k)
    ensures ScanUpTo(df, cfg, riskPerTrade, initialBalance, k + 1) == Apply(prev, b)
  {
  }

  /** One past the last scanned index of `range(50, len(df) - 200)`; when
      that range is empty the scan leaves the initial state, as ScanUpTo does
      for any bound up to 50. */
  function ScanEnd(df: seq<Candle>): (n: nat)
    ensures n <= |df|
    ensures n > WarmUp <==> |df| > WarmUp + ForwardBuffer
  {
    if |df| > WarmUp + ForwardBuffer then |df| - ForwardBuffer else 0
  }

  /** The total profit of the first n logged trades. */
  function PnlOfFirst(trades: seq<TradeRecord>, n: nat): real
    requires n <= |trades|
  {
    if n == 0 then 0.0 else PnlOfFirst(trades, n - 1) + trades[n - 1].result.pnl
  }

  lemma {:induction false} PnlOfFirstAfterAppend(trades: seq<TradeRecord>, t: TradeRecord, n: nat)
    requires n <= |trades|
    ensures PnlOfFirst(trades + [t], n) == PnlOfFirst(trades, n)
  {
    if n > 0 {
      PnlOfFirstAfterAppend(trades, t, n - 1);
      assert (trades + [t])[n - 1] == trades[n - 1];
    }
  }

  /** The ledger a scan keeps: one equity point per logged trade after the
      initial balance, each equal to the initial balance plus the profit of
      the trades so far; the balance is the last of them; only wins and
      losses are logged; and there are at least as many signals as trades. */
  ghost predicate Ledger(st: ScanState, initialBalance: real)
  {
    && |st.equity| == |st.trades| + 1 && st.tradesTaken == |st.trades|
    && st.equity[0] == initialBalance
    && (forall j :: 1 <= j < |st.equity| ==> st.equity[j] == initialBalance + PnlOfFirst(st.trades, j))
    && st.balance == initialBalance + PnlOfFirst(st.trades, |st.trades|) == st.equity[|st.equity| - 1]
    && (forall j :: 0 <= j < |st.trades| ==> st.trades[j].result.outcome in {Win, Loss})
    && st.signalsFound >= st.tradesTaken
  }

  lemma ApplyKeepsLedger(st: ScanState, b: BarOutcome, initialBalance: real)
    requires Ledger(st, initialBalance)
    requires b.Traded? ==> b.record.result.outcome in {Win, Loss}
    ensures Ledger(Apply(st, b), initialBalance)
  {
    var st2 := Apply(st, b);
    if b.Traded? {
      forall j | 0 <= j <= |st.trades|
        ensures PnlOfFirst(st2.trades, j) == PnlOfFirst(st.trades, j)
      {
        PnlOfFirstAfterAppend(st.trades, b.record, j);
      }
      assert st2.trades[|st.trades|] == b.record;
    }
  }

  /** Every trade a decision logs was won or lost. */
  ghost predicate LogsOnlyClosedTrades(decide: (real, nat) -> BarOutcome)
  {
    forall balance: real, i: nat :: decide(balance, i).Traded? ==> decide(balance, i).record.result.outcome in {Win, Loss}
  }

  lemma {:induction false} ScanKeepsLedger(decide: (real, nat) -> BarOutcome, initialBalance: real, k: nat)
    requires LogsOnlyClosedTrades(decide)
    ensures Ledger(ScanWith(decide, initialBalance, k), initialBalance)
  {
    if k > WarmUp {
      ScanKeepsLedger(decide, initialBalance, k - 1);
      var prev := ScanWith(decide, initialBalance, k - 1);
      ApplyKeepsLedger(prev, decide(prev.balance, k - 1), initialBalance);
    }
  }

  lemma StrategyLogsOnlyClosedTrades(df: seq<Candle>, cfg: Config, riskPerTrade: real)
    ensures LogsOnlyClosedTrades(StrategyOn(df, cfg, riskPerTrade))
  {
  }

  /** The balance, equity curve, trade log and counters of a scan keep the ledger. */
  lemma StrategyKeepsLedger(df: seq<Candle>, cfg: Config, riskPerTrade: real, initialBalance: real, k: nat)
    ensures Ledger(ScanUpTo(df, cfg, riskPerTrade, initialBalance, k), initialBalance)
  {
    StrategyLogsOnlyClosedTrades(df, cfg, riskPerTrade);
    ScanKeepsLedger(StrategyOn(df, cfg, riskPerTrade), initialBalance, k);
  }

  /** The amount at risk is non-negative and below the balance when the
      base risk is non-negative and even 1.5 times it is below one. */
  lemma RiskBelowBalance(balance: real, riskPerTrade: real, score: int)
    requires balance > 0.0 && 0.0 <= riskPerTrade && riskPerTrade * 1.5 < 1.0
    ensures 0.0 <= RiskAmount(balance, riskPerTrade, score) < balance
  {
    var m := RiskMultiplier(score);
    assert 0.0 <= riskPerTrade * m <= riskPerTrade * 1.5;
    assert balance * (riskPerTrade * m) < balance * 1.0;
  }

  /** A trade never loses more than the amount it put at risk. */
  lemma LossBoundedByRisk(df: seq<Candle>, signal: nat, d: Direction, entry: real, sl: real, tp: real,
                          score: int, balance: real, riskPerTrade: real)
    requires RiskAmount(balance, riskPerTrade, score) >= 0.0
    ensures SimulateSpec(df, signal, d, entry, sl, tp, score, balance, riskPerTrade).pnl
              >= -RiskAmount(balance, riskPerTrade, score)
  {
    var r := SimulateSpec(df, signal, d, entry, sl, tp, score, balance, riskPerTrade);
    if r.outcome == Win {
      var ratio := Abs(tp - entry) / Abs(entry - sl);
      assert ratio >= 0.0;
      assert ratio * RiskAmount(balance, riskPerTrade, score) >= 0.0;
    }
  }

  /** A trade logged from a positive balance leaves it positive. */
  ghost predicate KeepsBalancePositive(decide: (real, nat) -> BarOutcome)
  {
    forall balance: real, i: nat :: balance > 0.0 && decide(balance, i).Traded? ==>
      balance + decide(balance, i).record.result.pnl > 0.0
  }

  /** A trade never loses more than it put at risk and a win never loses:
      when the base risk is non-negative and even 1.5 times it is below
      one, no trade of the strategy takes a positive balance to zero. */
  lemma StrategyKeepsBalancePositive(df: seq<Candle>, cfg: Config, riskPerTrade: real)
    requires 0.0 <= riskPerTrade && riskPerTrade * 1.5 < 1.0
    ensures KeepsBalancePositive(StrategyOn(df, cfg, riskPerTrade))
  {
    var decide := StrategyOn(df, cfg, riskPerTrade);
    forall balance: real, i: nat | balance > 0.0 && decide(balance, i).Traded?
      ensures balance + decide(balance, i).record.result.pnl > 0.0
    {
      BarOutcomeMeaning(df, cfg, riskPerTrade, balance, i);
      var t := BarOutcomeAt(df, cfg, riskPerTrade, balance, i).record;
      RiskBelowBalance(balance, riskPerTrade, t.qualityScore);
      LossBoundedByRisk(df, i, t.direction, t.entry, t.sl, t.tp, t.qualityScore, balance, riskPerTrade);
    }
  }

  lemma {:induction false} ScanKeepsEquityPositive(decide: (real, nat) -> BarOutcome, initialBalance: real, k: nat)
    requires initialBalance > 0.0 && KeepsBalancePositive(decide)
    ensures var st := ScanWith(decide, initialBalance, k);
      st.balance > 0.0 && forall j :: 0 <= j < |st.equity| ==> st.equity[j] > 0.0
  {
    if k > WarmUp {
      ScanKeepsEquityPositive(decide, initialBalance, k - 1);
    }
  }

  /** From a positive starting balance, with the base risk as above, the
      balance and every point of the equity curve stay positive. */
  lemma StrategyKeepsEquityPositive(df: seq<Candle>, cfg: Config, riskPerTrade: real, initialBalance: real, k: nat)
    requires initialBalance > 0.0 && 0.0 <= riskPerTrade && riskPerTrade * 1.5 < 1.0
    ensures var st := ScanUpTo(df, cfg, riskPerTrade, initialBalance, k);
      st.balance > 0.0 && forall j :: 0 <= j < |st.equity| ==> st.equity[j] > 0.0
  {
    StrategyKeepsBalancePositive(df, cfg, riskPerTrade);
    ScanKeepsEquityPositive(StrategyOn(df, cfg, riskPerTrade), initialBalance, k);
  }

  // ---------------------------------------------------------------------------
  // Metrics

  function Sum(xs: seq<real>): real
  {
    if xs == [] then 0.0 else Sum(xs[..|xs| - 1]) + xs[|xs| - 1]
  }

  function Mean(xs: seq<real>): real
    requires xs != []
  {
    Sum(xs) / |xs| as real
  }

  function SeqMax(xs: seq<real>): (m: real)
    requires xs != []
    ensures m in xs && forall k :: 0 <= k < |xs| ==> xs[k] <= m
  {
    if |xs| == 1 then xs[0] else Max(SeqMax(xs[..|xs| - 1]), xs[|xs| - 1])
  }

  function SeqMin(xs: seq<real>): (m: real)
    requires xs != []
    ensures m in xs && forall k :: 0 <= k < |xs| ==> m <= xs[k]
  {
    if |xs| == 1 then xs[0] else Min(SeqMin(xs[..|xs| - 1]), xs[|xs| - 1])
  }

  /** Every value lies between lo and hi, so the sum lies between n*lo and n*hi. */
  lemma {:induction false} SumBetween(xs: seq<real>, lo: real, hi: real)
    requires forall k :: 0 <= k < |xs| ==> lo <= xs[k] <= hi
    ensures |xs| as real * lo <= Sum(xs) <= |xs| as real * hi
  {
    if xs != [] {
      SumBetween(xs[..|xs| - 1], lo, hi);
    }
  }

  /** The mean lies between the smallest and the largest value. */
  lemma MeanBetweenExtremes(xs: seq<real>)
    requires xs != []
    ensures SeqMin(xs) <= Mean(xs) <= SeqMax(xs)
  {
    SumBetween(xs, SeqMin(xs), SeqMax(xs));
    QuotientBetween(Sum(xs), |xs| as real, SeqMin(xs), SeqMax(xs));
  }

  /** avg is the mean of the column xs (its sum over its length), with 0
      standing in for an empty column; a mean lies between the column's
      smallest and largest value. */
  predicate AverageOf(avg: real, xs: seq<real>)
  {
    if xs == [] then avg == 0.0
    else avg == Mean(xs) && SeqMin(xs) <= avg <= SeqMax(xs)
  }

  /** The column mean, 0 for an empty column (`mean() if len(...) > 0 else 0`). */
  function Average(xs: seq<real>): (avg: real)
    ensures AverageOf(avg, xs)
  {
    if xs == [] then 0.0
    else
      MeanBetweenExtremes(xs);
      Mean(xs)
  }

  /** part out of whole in percent, as the win rate is computed. */
  function Share(part: nat, whole: nat): (pct: real)
    requires part <= whole && whole > 0
    ensures 0.0 <= pct <= 100.0 && (pct == 100.0 <==> part == whole)
    ensures pct * whole as real == part as real * 100.0
  {
    PercentOfWhole(part, whole);
    var q := part as real / whole as real;
    assert q * whole as real == part as real;
    q * 100.0
  }

  /** The change from start to now in percent of start. */
  function Growth(now: real, start: real): (pct: real)
    requires start != 0.0
    ensures pct * start == (now - start) * 100.0
  {
    var q := (now - start) / start;
    assert q * start == now - start;
    q * 100.0
  }

  /** Gross profit per unit of gross loss, 0 when nothing was lost. */
  function ProfitFactor(wins: seq<real>, losses: seq<real>): (pf: real)
    ensures Sum(losses) == 0.0 ==> pf == 0.0
    ensures Sum(losses) != 0.0 ==> pf * Abs(Sum(losses)) == Sum(wins)
  {
    var grossProfit := if wins != [] then Sum(wins) else 0.0;
    var grossLoss := if losses != [] then Abs(Sum(losses)) else 0.0;
    if grossLoss > 0.0 then grossProfit / grossLoss else 0.0
  }

  function Pnls(trades: seq<TradeRecord>): (ps: seq<real>)
    ensures |ps| == |trades| && forall k :: 0 <= k < |trades| ==> ps[k] == trades[k].result.pnl
  {
    seq(|trades|, k requires 0 <= k < |trades| => trades[k].result.pnl)
  }

  /** The profits of the trades with outcome o, in log order: `df[df.outcome == o].pnl`. */
  function PnlsWith(trades: seq<TradeRecord>, o: Outcome): (ps: seq<real>)
    ensures |ps| <= |trades|
    ensures forall x :: x in ps <==> exists k :: 0 <= k < |trades| && trades[k].result.outcome == o && trades[k].result.pnl == x
  {
    if trades == [] then []
    else PnlsWith(trades[..|trades| - 1], o)
         + (if trades[|trades| - 1].result.outcome == o then [trades[|trades| - 1].result.pnl] else [])
  }

  /** Wins and losses together never outnumber the trades, and account for
      all of them when every trade was closed by its stop or its target. */
  lemma {:induction false} WinsAndLossesCount(trades: seq<TradeRecord>)
    ensures |PnlsWith(trades, Win)| + |PnlsWith(trades, Loss)| <= |trades|
    ensures (forall k :: 0 <= k < |trades| ==> trades[k].result.outcome in {Win, Loss}) ==>
              |PnlsWith(trades, Win)| + |PnlsWith(trades, Loss)| == |trades|
  {
    if trades != [] {
      WinsAndLossesCount(trades[..|trades| - 1]);
    }
  }

  /** The running peak of the equity curve up to point k. */
  function Peak(e: seq<real>, k: nat): (p: real)
    requires k < |e|
    ensures forall j :: 0 <= j <= k ==> e[j] <= p
    ensures exists j :: 0 <= j <= k && p == e[j]
  {
    if k == 0 then e[0] else Max(Peak(e, k - 1), e[k])
  }

  /** The fall of point k below the running peak, in percent of the peak. */
  function DrawdownAt(e: seq<real>, k: nat): (dd: real)
    requires k < |e| && e[0] > 0.0
    ensures dd <= 0.0
    ensures e[k] >= 0.0 ==> dd >= -100.0
  {
    var p := Peak(e, k);
    assert e[0] <= p;
    assert (e[k] - p) / p <= 0.0;
    assert e[k] >= 0.0 ==> (e[k] - p) / p >= -1.0;
    (e[k] - p) / p * 100.0
  }

  /** The deepest drawdown over points 0 .. n-1. */
  function MaxDrawdown(e: seq<real>, n: nat): (r: real)
    requires 1 <= n <= |e| && e[0] > 0.0
    ensures r <= 0.0
    ensures forall k :: 0 <= k < n ==> r <= DrawdownAt(e, k)
  {
    if n == 1 then DrawdownAt(e, 0) else Min(MaxDrawdown(e, n - 1), DrawdownAt(e, n - 1))
  }

  /** The deepest drawdown is the drawdown of one of the points. */
  lemma {:induction false} MaxDrawdownIsAttained(e: seq<real>, n: nat)
    requires 1 <= n <= |e| && e[0] > 0.0
    ensures exists k :: 0 <= k < n && MaxDrawdown(e, n) == DrawdownAt(e, k)
  {
    if n == 1 {
      assert MaxDrawdown(e, 1) == DrawdownAt(e, 0);
    } else {
      MaxDrawdownIsAttained(e, n - 1);
      var k :| 0 <= k < n - 1 && MaxDrawdown(e, n - 1) == DrawdownAt(e, k);
      if MaxDrawdown(e, n) != DrawdownAt(e, n - 1) {
        assert MaxDrawdown(e, n) == DrawdownAt(e, k);
      }
    }
  }

  /** An equity curve that never falls has no drawdown. */
  lemma {:induction false} RisingEquityHasNoDrawdown(e: seq<real>, n: nat)
    requires 1 <= n <= |e| && e[0] > 0.0
    requires forall j, k :: 0 <= j <= k < |e| ==> e[j] <= e[k]
    ensures MaxDrawdown(e, n) == 0.0
  {
    if n > 1 {
      RisingEquityHasNoDrawdown(e, n - 1);
      PeakOfRisingIsLast(e, n - 1);
      assert DrawdownAt(e, n - 1) == 0.0;
    }
  }

  lemma {:induction false} PeakOfRisingIsLast(e: seq<real>, k: nat)
    requires k < |e|
    requires forall j, k :: 0 <= j <= k < |e| ==> e[j] <= e[k]
    ensures Peak(e, k) == e[k]
  {
    if k > 0 {
      PeakOfRisingIsLast(e, k - 1);
    }
  }

  datatype Metrics =
    | NoTrades
    | Report(totalTrades: nat, winCount: nat, lossCount: nat, winRate: real, totalPnl: real,
             totalReturnPct: real, finalBalance: real, avgWin: real, avgLoss: real,
             bestTrade: real, worstTrade: real, profitFactor: real, maxDrawdownPct: real,
             avgQualityScore: real, avgRrRatio: real)

  function Scores(trades: seq<TradeRecord>): (xs: seq<real>)
    ensures |xs| == |trades| && forall k :: 0 <= k < |trades| ==> xs[k] == trades[k].qualityScore as real
  {
    seq(|trades|, k requires 0 <= k < |trades| => trades[k].qualityScore as real)
  }

  function Rrs(trades: seq<TradeRecord>): (xs: seq<real>)
    ensures |xs| == |trades| && forall k :: 0 <= k < |trades| ==> xs[k] == trades[k].rrRatio
  {
    seq(|trades|, k requires 0 <= k < |trades| => trades[k].rrRatio)
  }

  /** The summary of a run (the Sharpe ratio aside): counts and rate of wins
      and losses, total and relative profit, averages and extremes of the
      trade profits, the profit factor, the deepest drawdown of the equity
      curve and the average score and reward ratio. */
  function MetricsOf(trades: seq<TradeRecord>, equity: seq<real>, balance: real, initialBalance: real): (m: Metrics)
    requires trades != [] ==> initialBalance != 0.0 && equity != [] && equity[0] > 0.0
    ensures m.NoTrades? <==> trades == []
    ensures m.Report? ==> && m.totalTrades == |trades|
                          && m.winCount == |PnlsWith(trades, Win)| && m.lossCount == |PnlsWith(trades, Loss)|
                          && m.winCount + m.lossCount <= m.totalTrades
                          && 0.0 <= m.winRate <= 100.0
                          && (m.winRate == 100.0 <==> m.winCount == m.totalTrades)
                          && m.totalPnl == PnlOfFirst(trades, |trades|) && m.finalBalance == balance
                          && m.worstTrade <= m.bestTrade
                          && (exists k :: 0 <= k < |trades| && m.bestTrade == trades[k].result.pnl)
                          && (exists k :: 0 <= k < |trades| && m.worstTrade == trades[k].result.pnl)
                          && m.maxDrawdownPct <= 0.0
    ensures m.Report? ==> forall k :: 0 <= k < |trades| ==> m.worstTrade <= trades[k].result.pnl <= m.bestTrade
    ensures m.Report? ==> m.winRate == Share(m.winCount, m.totalTrades)
    ensures m.Report? ==> m.totalReturnPct == Growth(balance, initialBalance)
    ensures m.Report? ==> && (forall k :: 0 <= k < |equity| ==> m.maxDrawdownPct <= DrawdownAt(equity, k))
                          && (exists k :: 0 <= k < |equity| && m.maxDrawdownPct == DrawdownAt(equity, k))
    ensures m.Report? ==> m.profitFactor == ProfitFactor(PnlsWith(trades, Win), PnlsWith(trades, Loss))
    ensures m.Report? ==> AverageOf(m.avgWin, PnlsWith(trades, Win)) && AverageOf(m.avgLoss, PnlsWith(trades, Loss))
    ensures m.Report? ==> AverageOf(m.avgQualityScore, Scores(trades)) && AverageOf(m.avgRrRatio, Rrs(trades))
  {
    if trades == [] then NoTrades
    else
      var total := |trades|;
      var wins, losses := PnlsWith(trades, Win), PnlsWith(trades, Loss);
      WinsAndLossesCount(trades);
      var pnls := Pnls(trades);
      MaxDrawdownIsAttained(equity, |equity|);
      Report(total, |wins|, |losses|, Share(|wins|, total), PnlOfFirst(trades, |trades|), Growth(balance, initialBalance),
             balance, Average(wins), Average(losses), SeqMax(pnls), SeqMin(pnls), ProfitFactor(wins, losses),
             MaxDrawdown(equity, |equity|), Average(Scores(trades)), Average(Rrs(trades)))
  }

  /** On a state that keeps the ledger, the report agrees with it: there is
      a report exactly when a trade was taken, its total profit is the
      balance's gain, the return is that gain relative to the starting
      balance, and every trade counts as a win or a loss. */
  lemma ReportAgreesWithLedger(st: ScanState, initialBalance: real)
    requires Ledger(st, initialBalance) && initialBalance > 0.0
    ensures var m := MetricsOf(st.trades, st.equity, st.balance, initialBalance);
      && (m.NoTrades? <==> st.tradesTaken == 0)
      && (m.Report? ==> && m.totalPnl == st.balance - initialBalance
                        && m.totalReturnPct == Growth(st.balance, initialBalance)
                        && m.winCount + m.lossCount == m.totalTrades == st.tradesTaken)
  {
    WinsAndLossesCount(st.trades);
  }

  /** The figures `run_backtest` returns: the report plus the signal and trade counts. */
  datatype BacktestResults = BacktestResults(metrics: Metrics, signalsFound: nat, tradesTaken: nat)

  // ---------------------------------------------------------------------------
  // The backtester object

  class Backtester {
    const symbol: string
    const initialBalance: real
    const riskPerTrade: real
    var currentBalance: real
    var trades: seq<TradeRecord>
    var equityCurve: seq<real>
    var dailyReturns: seq<real>

    constructor(symbol: string, initialBalance: real, riskPerTrade: real)
      ensures this.symbol == symbol && this.initialBalance == initialBalance && this.riskPerTrade == riskPerTrade
      ensures currentBalance == initialBalance && trades == [] && equityCurve == [] && dailyReturns == []
    {
      this.symbol := symbol;
      this.initialBalance := initialBalance;
      this.currentBalance := initialBalance;
      this.riskPerTrade := riskPerTrade;
      this.trades := [];
      this.equityCurve := [];
      this.dailyReturns := [];
    }

    /** Replays a limit order placed at bar `signal` with the current balance. */
    method SimulateTrade(df: seq<Candle>, signal: nat, d: Direction, entry: real, sl: real, tp: real, score: int)
      returns (r: TradeResult)
      ensures r == SimulateSpec(df, signal, d, entry, sl, tp, score, currentBalance, riskPerTrade)
    {
      var multiplier := RiskMultiplier(score);
      var adjustedRisk := riskPerTrade * multiplier;
      var amount := currentBalance * adjustedRisk;
      assert amount == RiskAmount(currentBalance, riskPerTrade, score);
      var slDistance := Abs(entry - sl);
      if slDistance < Point {
        return ExpiredResult();
      }
      var fill := FindFill(df, signal, MinNat(signal + FillWindow, |df|), d, entry);
      if fill.None? {
        return ExpiredResult();
      }
      var f := fill.value;
      var exit := FindExit(df, f, MinNat(f + HoldWindow, |df|), d, sl, tp);
      if exit.None? {
        return TradeResult(Timeout, 0.0, 0.0, Some(f - signal), None, None);
      }
      var e := exit.value;
      if StopHit(df[e], d, sl) {
        return TradeResult(Loss, -amount, -slDistance * PipsPerUnit, Some(f - signal), Some(e - f), Some(sl));
      }
      return TradeResult(Win, Abs(tp - entry) / slDistance * amount, Abs(tp - entry) * PipsPerUnit,
                         Some(f - signal), Some(e - f), Some(tp));
    }

    /** The report of the run so far. */
    function CalculateMetrics(): (m: Metrics)
      reads this
      requires trades != [] ==> initialBalance != 0.0 && equityCurve != [] && equityCurve[0] > 0.0
      ensures m.NoTrades? <==> trades == []
      ensures m.Report? ==> m.totalTrades == |trades| && m.finalBalance == currentBalance
                            && m.totalPnl == PnlOfFirst(trades, |trades|)
      ensures m.Report? ==> forall k :: 0 <= k < |trades| ==> m.worstTrade <= trades[k].result.pnl <= m.bestTrade
      ensures m.Report? ==> forall k :: 0 <= k < |equityCurve| ==> m.maxDrawdownPct <= DrawdownAt(equityCurve, k)
    {
      MetricsOf(trades, equityCurve, currentBalance, initialBalance)
    }

    /** The body of the scan at bar i, against the current balance: detect
        the shift, apply the confluence, score and entry gates, set the
        target and simulate the order. */
    method ScanBar(df: seq<Candle>, cfg: Config, i: nat) returns (b: BarOutcome)
      requires i < |df|
      ensures b == BarOutcomeAt(df, cfg, riskPerTrade, currentBalance, i)
    {
      var shift := DetectMss(df, i);
      if shift.None? {
        return NoSignal;
      }
      var d, sl := shift.value.kind, shift.value.stopLoss;
      var ob := FindOrderBlock(df, i, Some(d), 20);
      var fvg := FindFvg(df, i);
      var confluence := CheckConfluence(ob, fvg, cfg.minConfluence);
      if cfg.requireConfluence && confluence.None? {
        return Skipped;
      }
      var quality := CalculateSetupQuality(Some(d), ob, fvg, confluence);
      if (quality.score as real) < cfg.minQuality {
        return Skipped;
      }
      var entry := GetEntryPrice(ob, fvg, confluence);
      if entry.None? || entry.value == 0.0 {
        return Skipped;
      }
      var rr := RrRatio(quality.score);
      var tp := TakeProfit(d, entry.value, sl, rr);
      var result := SimulateTrade(df, i, d, entry.value, sl, tp, quality.score);
      if result.outcome != Win && result.outcome != Loss {
        return Skipped;
      }
      return Traded(TradeRecord(df[i].time, d, entry.value, sl, tp, quality.score, quality.rating, rr, result));
    }

    /** Books one bar's outcome: a signal is counted, and a closed trade moves
        the balance by its profit, extends the equity curve and is logged. */
    method Record(b: BarOutcome, signalsFound: nat, tradesTaken: nat) returns (signals: nat, taken: nat)
      modifies this
      ensures ScanState(currentBalance, trades, equityCurve, signals, taken)
              == Apply(ScanState(old(currentBalance), old(trades), old(equityCurve), signalsFound, tradesTaken), b)
      ensures dailyReturns == old(dailyReturns)
    {
      signals, taken := signalsFound, tradesTaken;
      if !b.NoSignal? {
        signals := signals + 1;
        if b.Traded? {
          taken := taken + 1;
          currentBalance := currentBalance + b.record.result.pnl;
          equityCurve := equityCurve + [currentBalance];
          trades := trades + [b.record];
        }
      }
    }

    /** Resets the balance, trade log and equity curve, scans bars 50 up to
        200 before the end, and reports. */
    method RunBacktest(df: seq<Candle>, cfg: Config) returns (res: BacktestResults)
      requires initialBalance > 0.0
      modifies this
      ensures var st := ScanUpTo(df, cfg, riskPerTrade, initialBalance, ScanEnd(df));
        && currentBalance == st.balance && trades == st.trades && equityCurve == st.equity
      ensures Ledger(ScanUpTo(df, cfg, riskPerTrade, initialBalance, ScanEnd(df)), initialBalance)
      ensures var st := ScanUpTo(df, cfg, riskPerTrade, initialBalance, ScanEnd(df));
        res == BacktestResults(MetricsOf(st.trades, st.equity, st.balance, initialBalance),
                                  st.signalsFound, st.tradesTaken)
      ensures dailyReturns == old(dailyReturns)
    {
      currentBalance := initialBalance;
      trades := [];
      equityCurve := [initialBalance];
      var signalsFound, tradesTaken := 0, 0;
      var end := ScanEnd(df);
      if end > WarmUp {
        for i := WarmUp to end
          invariant ScanState(currentBalance, trades, equityCurve, signalsFound, tradesTaken)
                    == ScanUpTo(df, cfg, riskPerTrade, initialBalance, i)
          invariant dailyReturns == old(dailyReturns)
        {
          ghost var prev := ScanState(currentBalance, trades, equityCurve, signalsFound, tradesTaken);
          var b := ScanBar(df, cfg, i);
          ScanUpToStep(df, cfg, riskPerTrade, initialBalance, i, prev, b);
          signalsFound, tradesTaken := Record(b, signalsFound, tradesTaken);
        }
      }
      ghost var st := ScanUpTo(df, cfg, riskPerTrade, initialBalance, end);
      assert ScanState(currentBalance, trades, equityCurve, signalsFound, tradesTaken) == st;
      StrategyKeepsLedger(df, cfg, riskPerTrade, initialBalance, end);
      res := BacktestResults(CalculateMetrics(), signalsFound, tradesTaken);
    }
  }
}
