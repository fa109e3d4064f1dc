/** The Smart-Money-Concepts pattern pipeline of the live engine: market-structure
    shift and its stop level, fair-value gap, order block, order-block/gap
    confluence, the refined entry price and the additive setup score. */
module Patterns {
  import opened Candles

  /** A market-structure shift: its direction and the stop level it implies. */
  datatype Shift = Shift(kind: Direction, stopLoss: real)

  /** A three-candle fair-value gap: the untraded price range [low, high]. */
  datatype Fvg = Fvg(kind: Direction, high: real, low: real)

  /** The last opposite-coloured candle before a shift, with its full and body ranges. */
  datatype OrderBlock = OrderBlock(kind: Direction, high: real, low: real, open: real, close: real,
                                   time: int, bodyHigh: real, bodyLow: real)

  /** Quality tier of a confluence zone (and of breaker blocks). */
  datatype Tier = High | Medium | Low

  /** The overlap of an order block and a gap of the same direction. */
  datatype Confluence = Confluence(kind: Direction, overlapHigh: real, overlapLow: real, overlapSize: real,
                                   overlapPct: real, ob: OrderBlock, fvg: Fvg, quality: Tier)

  datatype Rating = Excellent | Good | Fair | Poor

  /** The lines of the `factors` list, one per signal that scored. */
  datatype Factor = MssDetected | OrderBlockIdentified | FvgPresent
                  | StrongConfluence | MediumConfluence | WeakConfluence

  datatype SetupQuality = SetupQuality(score: int, rating: Rating, factors: seq<Factor>)

  // ---------------------------------------------------------------------------
  // Market-structure shift

  /** The caller's data frame: its rows, and the `swing_high`/`swing_low`
      columns that DetectMssAndSl adds to it (None while a column is absent). */
  class Frame {
    const rows: seq<Candle>
    var swingHigh: Option<seq<bool>>
    var swingLow: Option<seq<bool>>

    constructor (rows: seq<Candle>)
      ensures this.rows == rows && swingHigh == None && swingLow == None
    {
      this.rows := rows;
      swingHigh := None;
      swingLow := None;
    }
  }

  /** `df[mask].iloc[:-2].iloc[-1]`: the selected row that has exactly two selected
      rows after it. Dropping the last two rows of the filtered frame discards
      the last two swing points, not the last two candles. */
  function ReferenceSwing(mask: seq<bool>): Option<nat>
  {
    var p := Positions(mask);
    if |p| <= 2 then None else Some(p[|p| - 3])
  }

  /** The signal candle closes above the reference swing high. */
  predicate BreaksAbove(rows: seq<Candle>)
    requires |rows| >= 2
  {
    var s := ReferenceSwing(SwingHighMask(rows));
    s.Some? && rows[|rows| - 2].close > rows[s.value].high
  }

  /** The signal candle closes below the reference swing low. */
  predicate BreaksBelow(rows: seq<Candle>)
    requires |rows| >= 2
  {
    var s := ReferenceSwing(SwingLowMask(rows));
    s.Some? && rows[|rows| - 2].close < rows[s.value].low
  }

  /** The shift detected on a frame whose last row is the bar still forming, so
      that the signal candle is the one before it. */
  function MssAndSl(rows: seq<Candle>): (r: Option<Shift>)
    requires |rows| >= 2
    ensures r.Some? ==> ReferenceSwing(SwingHighMask(rows)).Some? && ReferenceSwing(SwingLowMask(rows)).Some?
    ensures r.Some? && r.value.kind == Bullish ==> BreaksAbove(rows) && r.value.stopLoss == rows[|rows| - 2].low
    ensures r.Some? && r.value.kind == Bearish ==>
              !BreaksAbove(rows) && BreaksBelow(rows) && r.value.stopLoss == rows[|rows| - 2].high
    ensures BreaksAbove(rows) && ReferenceSwing(SwingLowMask(rows)).Some? ==> r.Some? && r.value.kind == Bullish
    ensures BreaksBelow(rows) && ReferenceSwing(SwingHighMask(rows)).Some? ==> r.Some?
  {
    var last := rows[|rows| - 2];
    var sh := ReferenceSwing(SwingHighMask(rows));
    var sl := ReferenceSwing(SwingLowMask(rows));
    if sh.None? || sl.None? then None
    else if last.close > rows[sh.value].high then Some(Shift(Bullish, last.low))
    else if last.close < rows[sl.value].low then Some(Shift(Bearish, last.high))
    else None
  }

  /** Adds the swing columns to the caller's frame and reports the shift. */
  method DetectMssAndSl(df: Frame) returns (shift: Option<Shift>)
    requires |df.rows| >= 2
    modifies df
    ensures df.swingHigh == Some(SwingHighMask(df.rows)) && df.swingLow == Some(SwingLowMask(df.rows))
    ensures shift == MssAndSl(df.rows)
  {
    df.swingHigh := Some(SwingHighMask(df.rows));
    df.swingLow := Some(SwingLowMask(df.rows));
    shift := MssAndSl(df.rows);
  }

  /** A reported shift broke a genuine swing point lying at least two rows
      before the signal candle: the reference swing has two later swings after
      it, and no row after the signal candle's predecessor can be a swing. */
  lemma ShiftBreaksEarlierSwing(rows: seq<Candle>)
    requires |rows| >= 2 && MssAndSl(rows).Some?
    ensures MssAndSl(rows).value.kind == Bullish ==>
              exists j :: 0 < j <= |rows| - 4 && IsSwingHigh(rows, j) && rows[|rows| - 2].close > rows[j].high
    ensures MssAndSl(rows).value.kind == Bearish ==>
              exists j :: 0 < j <= |rows| - 4 && IsSwingLow(rows, j) && rows[|rows| - 2].close < rows[j].low
  {
    var ph := Positions(SwingHighMask(rows));
    var pl := Positions(SwingLowMask(rows));
    assert SwingHighMask(rows)[ph[|ph| - 1]] && SwingLowMask(rows)[pl[|pl| - 1]];
    assert ph[|ph| - 3] < ph[|ph| - 2] < ph[|ph| - 1] < |rows| - 1;
    assert pl[|pl| - 3] < pl[|pl| - 2] < pl[|pl| - 1] < |rows| - 1;
    assert SwingHighMask(rows)[ph[|ph| - 3]] && SwingLowMask(rows)[pl[|pl| - 3]];
  }

  /** On a frame whose highs rise bar after bar there is no swing high, hence
      no shift at all, and in particular never a bearish one. */
  lemma RisingHighsGiveNoShift(rows: seq<Candle>)
    requires |rows| >= 2
    requires forall i :: 0 <= i < |rows| - 1 ==> rows[i].high < rows[i + 1].high
    ensures MssAndSl(rows) == None
  {
    assert forall i :: 0 <= i < |rows| ==> !SwingHighMask(rows)[i];
  }

  // ---------------------------------------------------------------------------
  // Fair-value gap

  /** The gap between the first and third candle of a three-candle pattern;
      the bullish test is made first. */
  function GapOf(c1: Candle, c3: Candle): (r: Option<Fvg>)
    ensures r.Some? ==> r.value.low < r.value.high
    ensures c3.low > c1.high ==> r == Some(Fvg(Bullish, c3.low, c1.high))
    ensures !(c3.low > c1.high) && c3.high < c1.low ==> r == Some(Fvg(Bearish, c1.low, c3.high))
    ensures !(c3.low > c1.high) && !(c3.high < c1.low) ==> r == None
  {
    if c3.low > c1.high then Some(Fvg(Bullish, c3.low, c1.high))
    else if c3.high < c1.low then Some(Fvg(Bearish, c1.low, c3.high))
    else None
  }

  /** The gap over the three most recently completed candles (rows -4, -3, -2). */
  function FindFvg(df: seq<Candle>): (r: Option<Fvg>)
    requires |df| >= 4
    ensures r.Some? ==> r.value.low < r.value.high
    ensures r.Some? && r.value.kind == Bullish <==> df[|df| - 2].low > df[|df| - 4].high
    ensures r.Some? && r.value.kind == Bullish ==> r.value.high == df[|df| - 2].low && r.value.low == df[|df| - 4].high
    ensures r.Some? && r.value.kind == Bearish ==> r.value.high == df[|df| - 4].low && r.value.low == df[|df| - 2].high
    ensures r.None? <==> df[|df| - 2].low <= df[|df| - 4].high && df[|df| - 2].high >= df[|df| - 4].low
  {
    GapOf(df[|df| - 4], df[|df| - 2])
  }

  /** Between well-formed candles a gap is a price range neither the first nor
      the third candle traded through. */
  lemma GapIsUntraded(c1: Candle, c3: Candle)
    requires WellFormed(c1) && WellFormed(c3) && GapOf(c1, c3).Some?
    ensures var g := GapOf(c1, c3).value;
      forall p :: g.low < p < g.high ==> !InRange(p, c1.low, c1.high) && !InRange(p, c3.low, c3.high)
  {
  }

  // ---------------------------------------------------------------------------
  // Order block

  /** The order block a candle makes: full range, and body range ordered. */
  function BlockOf(c: Candle, kind: Direction): (ob: OrderBlock)
    ensures ob.kind == kind && ob.high == c.high && ob.low == c.low && ob.time == c.time
    ensures ob.bodyLow == Min(c.open, c.close) && ob.bodyHigh == Max(c.open, c.close)
    ensures ob.bodyLow <= ob.bodyHigh
    ensures WellFormed(c) ==> ob.low <= ob.bodyLow && ob.bodyHigh <= ob.high
  {
    OrderBlock(kind, c.high, c.low, c.open, c.close, c.time, Max(c.open, c.close), Min(c.open, c.close))
  }

  /** The column selecting bars that oppose a move in direction d. */
  function OpposingMask(w: seq<Candle>, d: Direction): (m: seq<bool>)
    ensures |m| == |w|
    ensures forall i :: 0 <= i < |w| ==> m[i] == Opposes(w[i], d)
  {
    if d == Bullish then BearishMask(w) else BullishMask(w)
  }

  /** The last bar of w whose colour opposes d, as an order block of kind d. */
  function LastOpposingBlock(w: seq<Candle>, d: Direction): (r: Option<OrderBlock>)
    ensures r.None? <==> forall k :: 0 <= k < |w| ==> !Opposes(w[k], d)
    ensures r.Some? ==> exists k :: 0 <= k < |w| && Opposes(w[k], d) && r.value == BlockOf(w[k], d)
                                 && forall j :: k < j < |w| ==> !Opposes(w[j], d)
  {
    var k := LastTrue(OpposingMask(w, d));
    if k.None? then None else Some(BlockOf(w[k.value], d))
  }

  /** `df.iloc[-lookback-1:-1]`: the lookback bars before the forming one. */
  function ObWindow(df: seq<Candle>, lookback: nat): (w: seq<Candle>)
    ensures |df| == 0 ==> w == []
    ensures |df| >= 1 ==> w == df[(if |df| >= lookback + 1 then |df| - lookback - 1 else 0)..|df| - 1]
  {
    ILoc(df, -(lookback as int) - 1, -1)
  }

  /** The order-block window ends with the signal candle itself (row -2) and
      holds min(lookback, |df| - 1) bars. */
  lemma ObWindowEndsWithSignalCandle(df: seq<Candle>, lookback: nat)
    requires |df| >= 2 && lookback >= 1
    ensures var w := ObWindow(df, lookback);
      |w| == MinNat(lookback, |df| - 1) && w[|w| - 1] == df[|df| - 2]
  {
  }

  function FindOrderBlock(df: seq<Candle>, mss: Option<Direction>, lookback: nat): (r: Option<OrderBlock>)
    ensures mss.None? ==> r.None?
    ensures mss.Some? ==> (r.None? <==> forall k :: 0 <= k < |ObWindow(df, lookback)| ==> !Opposes(ObWindow(df, lookback)[k], mss.value))
    ensures r.Some? ==> r.value.kind == mss.value && r.value.bodyLow <= r.value.bodyHigh
    ensures r.Some? ==> var w := ObWindow(df, lookback);
              exists k :: 0 <= k < |w| && Opposes(w[k], mss.value) && r.value == BlockOf(w[k], mss.value)
                        && forall j :: k < j < |w| ==> !Opposes(w[j], mss.value)
    ensures r.Some? && (forall i :: 0 <= i < |df| ==> WellFormed(df[i])) ==>
              r.value.low <= r.value.bodyLow && r.value.bodyHigh <= r.value.high
  {
    if mss.None? then None else LastOpposingBlock(ObWindow(df, lookback), mss.value)
  }

  // ---------------------------------------------------------------------------
  // Confluence

  /** Overlap share tiers: high from 70%, medium from 50%, low below. */
  function TierOf(pct: real): (t: Tier)
    ensures t == High <==> pct >= 70.0
    ensures t == Medium <==> 50.0 <= pct < 70.0
    ensures t == Low <==> pct < 50.0
  {
    if pct >= 70.0 then High else if pct >= 50.0 then Medium else Low
  }

  /** The overlap as a percentage of the gap's size, 0 for an empty gap. */
  function OverlapPct(overlapSize: real, fvgSize: real): real
  {
    if fvgSize > 0.0 then overlapSize / fvgSize * 100.0 else 0.0
  }

  /** A non-empty overlap no wider than the gap is a share of it in (0, 100]. */
  lemma OverlapIsShareOfGap(overlapSize: real, fvgSize: real)
    requires 0.0 < overlapSize <= fvgSize
    ensures 0.0 < OverlapPct(overlapSize, fvgSize) <= 100.0
    ensures OverlapPct(overlapSize, fvgSize) == overlapSize / fvgSize * 100.0
  {
    QuotientBetween(overlapSize, fvgSize, 0.0, 1.0);
    var q := overlapSize / fvgSize;
    assert q * fvgSize == overlapSize;
  }

  /** c describes the intersection of the order block's and the gap's ranges. */
  ghost predicate IsZoneOf(c: Confluence, ob: OrderBlock, fvg: Fvg)
  {
    && c.kind == ob.kind == fvg.kind && c.ob == ob && c.fvg == fvg
    && c.overlapLow < c.overlapHigh && c.overlapSize == c.overlapHigh - c.overlapLow
    && (forall p :: InRange(p, c.overlapLow, c.overlapHigh) <==> InRange(p, ob.low, ob.high) && InRange(p, fvg.low, fvg.high))
    && fvg.low < fvg.high
    && c.overlapPct == c.overlapSize / (fvg.high - fvg.low) * 100.0
    && 0.0 < c.overlapPct <= 100.0
    && c.quality == TierOf(c.overlapPct)
  }

  function CheckConfluence(ob: Option<OrderBlock>, fvg: Option<Fvg>, minOverlapPct: real): (r: Option<Confluence>)
    ensures ob.None? || fvg.None? ==> r.None?
    ensures ob.Some? && fvg.Some? && ob.value.kind != fvg.value.kind ==> r.None?
    ensures ob.Some? && fvg.Some? && Max(ob.value.low, fvg.value.low) >= Min(ob.value.high, fvg.value.high) ==> r.None?
    ensures r.Some? ==> IsZoneOf(r.value, ob.value, fvg.value) && minOverlapPct <= r.value.overlapPct
    ensures ob.Some? && fvg.Some? && ob.value.kind == fvg.value.kind
            && Max(ob.value.low, fvg.value.low) < Min(ob.value.high, fvg.value.high) ==>
              (r.Some? <==> OverlapPct(Min(ob.value.high, fvg.value.high) - Max(ob.value.low, fvg.value.low),
                                       fvg.value.high - fvg.value.low) >= minOverlapPct)
  {
    if ob.None? || fvg.None? then None
    else if ob.value.kind != fvg.value.kind then None
    else
      var o, g := ob.value, fvg.value;
      var overlapHigh := Min(o.high, g.high);
      var overlapLow := Max(o.low, g.low);
      if overlapLow >= overlapHigh then None
      else
        var overlapSize := overlapHigh - overlapLow;
        var pct := OverlapPct(overlapSize, g.high - g.low);
        if pct < minOverlapPct then None
        else
          OverlapIsShareOfGap(overlapSize, g.high - g.low);
          var c := Confluence(o.kind, overlapHigh, overlapLow, overlapSize, pct, o, g, TierOf(pct));
          assert IsZoneOf(c, o, g);
          Some(c)
  }

  // ---------------------------------------------------------------------------
  // Entry

  /** The limit price for the setup, by priority: the confluence zone when there
      is one (its middle when high, its favourable edge when medium, the order
      block's body middle when low), else the order block's body edge, else the
      gap's edge. None only when all three inputs are absent. */
  function RefinedEntry(ob: Option<OrderBlock>, fvg: Option<Fvg>, conf: Option<Confluence>): (r: Option<real>)
    requires conf.Some? && conf.value.quality == Low ==> ob.Some?
    ensures r.None? <==> conf.None? && ob.None? && fvg.None?
    ensures conf.Some? && conf.value.quality == High ==>
              r == Some((conf.value.overlapHigh + conf.value.overlapLow) / 2.0)
    ensures conf.Some? && conf.value.quality == Medium ==>
              r == Some(if conf.value.kind == Bullish then conf.value.overlapHigh else conf.value.overlapLow)
    ensures conf.Some? && conf.value.quality == Low ==> r == Some((ob.value.bodyHigh + ob.value.bodyLow) / 2.0)
    ensures conf.None? && ob.Some? ==>
              r == Some(if ob.value.kind == Bullish then ob.value.bodyLow else ob.value.bodyHigh)
    ensures conf.None? && ob.None? && fvg.Some? ==>
              r == Some(if fvg.value.kind == Bullish then fvg.value.high else fvg.value.low)
  {
    if conf.Some? then
      match conf.value.quality
      case High => Some((conf.value.overlapHigh + conf.value.overlapLow) / 2.0)
      case Medium => Some(if conf.value.kind == Bullish then conf.value.overlapHigh else conf.value.overlapLow)
      case Low => Some((ob.value.bodyHigh + ob.value.bodyLow) / 2.0)
    else if ob.Some? && ob.value.kind == Bullish then Some(ob.value.bodyLow)
    else if ob.Some? && ob.value.kind == Bearish then Some(ob.value.bodyHigh)
    else if fvg.Some? then Some(if fvg.value.kind == Bullish then fvg.value.high else fvg.value.low)
    else None
  }

  /** An order block whose body lies inside its range, as BlockOf makes them from well-formed candles. */
  predicate SaneBlock(ob: OrderBlock) {
    ob.low <= ob.bodyLow <= ob.bodyHigh <= ob.high
  }

  /** The entry the pipeline derives always lies in the zone that produced it:
      inside the order block's range whenever there is an order block, inside
      the overlap for a high or medium confluence, and on the gap otherwise. */
  lemma EntryLiesInItsZone(ob: Option<OrderBlock>, fvg: Option<Fvg>, minOverlapPct: real)
    requires ob.Some? ==> SaneBlock(ob.value)
    requires fvg.Some? ==> fvg.value.low <= fvg.value.high
    ensures var conf := CheckConfluence(ob, fvg, minOverlapPct);
      var e := RefinedEntry(ob, fvg, conf);
      && (ob.Some? || fvg.Some? <==> e.Some?)
      && (ob.Some? ==> InRange(e.value, ob.value.low, ob.value.high))
      && (conf.Some? && conf.value.quality != Low ==>
            InRange(e.value, conf.value.overlapLow, conf.value.overlapHigh)
            && InRange(e.value, fvg.value.low, fvg.value.high))
      && (ob.None? && fvg.Some? ==> InRange(e.value, fvg.value.low, fvg.value.high))
  {
    var conf := CheckConfluence(ob, fvg, minOverlapPct);
    if conf.Some? {
      var c := conf.value;
      var e := RefinedEntry(ob, fvg, conf).value;
      if c.quality != Low {
        assert InRange(e, c.overlapLow, c.overlapHigh);
      }
    }
  }

  // ---------------------------------------------------------------------------
  // Setup quality

  /** Points for confluence: 25 high, 20 medium, 15 low, none without confluence. */
  function ConfluencePoints(t: Option<Tier>): int
  {
    match t
    case None => 0
    case Some(High) => 25
    case Some(Medium) => 20
    case Some(Low) => 15
  }

  /** The additive score: 25 for each of shift, order block and gap present,
      plus the confluence points. */
  function SetupScore(hasMss: bool, hasOb: bool, hasFvg: bool, t: Option<Tier>): (s: int)
    ensures 0 <= s <= 100
  {
    (if hasMss then 25 else 0) + (if hasOb then 25 else 0) + (if hasFvg then 25 else 0) + ConfluencePoints(t)
  }

  function RatingOf(score: int): (r: Rating)
    ensures r == Excellent <==> score >= 90
    ensures r == Good <==> 75 <= score < 90
    ensures r == Fair <==> 60 <= score < 75
    ensures r == Poor <==> score < 60
  {
    if score >= 90 then Excellent else if score >= 75 then Good else if score >= 60 then Fair else Poor
  }

  function TierOfConfluence(conf: Option<Confluence>): Option<Tier>
  {
    if conf.None? then None else Some(conf.value.quality)
  }

  function ConfluenceFactor(t: Tier): Factor
  {
    match t
    case High => StrongConfluence
    case Medium => MediumConfluence
    case Low => WeakConfluence
  }

  /** The factor lines in the order they are appended: the shift, block and
      gap lines when those are present, then the confluence line of the tier. */
  function FactorsOf(mss: Option<Direction>, ob: Option<OrderBlock>, fvg: Option<Fvg>,
                     conf: Option<Confluence>): (fs: seq<Factor>)
    ensures |fs| == (if mss.Some? then 1 else 0) + (if ob.Some? then 1 else 0)
                  + (if fvg.Some? then 1 else 0) + (if conf.Some? then 1 else 0)
    ensures (MssDetected in fs <==> mss.Some?) && (OrderBlockIdentified in fs <==> ob.Some?)
            && (FvgPresent in fs <==> fvg.Some?)
    ensures (StrongConfluence in fs <==> conf.Some? && conf.value.quality == High)
            && (MediumConfluence in fs <==> conf.Some? && conf.value.quality == Medium)
            && (WeakConfluence in fs <==> conf.Some? && conf.value.quality == Low)
  {
    var signals := (if mss.Some? then [MssDetected] else [])
                 + (if ob.Some? then [OrderBlockIdentified] else [])
                 + (if fvg.Some? then [FvgPresent] else []);
    signals + (if conf.Some? then [ConfluenceFactor(conf.value.quality)] else [])
  }

  function AnalyzeSetupQuality(mss: Option<Direction>, ob: Option<OrderBlock>, fvg: Option<Fvg>,
                               conf: Option<Confluence>): (q: SetupQuality)
    ensures q.score == SetupScore(mss.Some?, ob.Some?, fvg.Some?, TierOfConfluence(conf))
    ensures 0 <= q.score <= 100 && q.rating == RatingOf(q.score)
    ensures |q.factors| == (if mss.Some? then 1 else 0) + (if ob.Some? then 1 else 0)
                         + (if fvg.Some? then 1 else 0) + (if conf.Some? then 1 else 0)
    ensures (MssDetected in q.factors <==> mss.Some?) && (OrderBlockIdentified in q.factors <==> ob.Some?)
            && (FvgPresent in q.factors <==> fvg.Some?)
    ensures (StrongConfluence in q.factors <==> conf.Some? && conf.value.quality == High)
            && (MediumConfluence in q.factors <==> conf.Some? && conf.value.quality == Medium)
            && (WeakConfluence in q.factors <==> conf.Some? && conf.value.quality == Low)
  {
    var score := SetupScore(mss.Some?, ob.Some?, fvg.Some?, TierOfConfluence(conf));
    SetupQuality(score, RatingOf(score), FactorsOf(mss, ob, fvg, conf))
  }

  /** Rank of a confluence tier, absence lowest. */
  function TierRank(t: Option<Tier>): nat
  {
    match t
    case None => 0
    case Some(Low) => 1
    case Some(Medium) => 2
    case Some(High) => 3
  }

  /** Adding a signal, or raising the confluence tier, never lowers the score. */
  lemma ScoreNeverDropsWhenSignalAdded(m1: bool, o1: bool, f1: bool, t1: Option<Tier>,
                                       m2: bool, o2: bool, f2: bool, t2: Option<Tier>)
    requires (m1 ==> m2) && (o1 ==> o2) && (f1 ==> f2) && TierRank(t1) <= TierRank(t2)
    ensures SetupScore(m1, o1, f1, t1) <= SetupScore(m2, o2, f2, t2)
  {
    assert ConfluencePoints(t1) <= ConfluencePoints(t2);
  }

  /** A setup rates EXCELLENT exactly when all three signals are present and
      there is confluence of any tier. */
  lemma ExcellentIffCompleteSetup(m: bool, o: bool, f: bool, t: Option<Tier>)
    ensures RatingOf(SetupScore(m, o, f, t)) == Excellent <==> m && o && f && t.Some?
  {
  }

  /** Whenever the detector finds a shift and the order block and gap it found
      are confluent, the setup rates EXCELLENT. */
  lemma ConfluentShiftIsExcellent(mss: Option<Direction>, ob: Option<OrderBlock>, fvg: Option<Fvg>, minOverlapPct: real)
    requires mss.Some? && CheckConfluence(ob, fvg, minOverlapPct).Some?
    ensures AnalyzeSetupQuality(mss, ob, fvg, CheckConfluence(ob, fvg, minOverlapPct)).rating == Excellent
  {
    ExcellentIffCompleteSetup(true, true, true, TierOfConfluence(CheckConfluence(ob, fvg, minOverlapPct)));
  }
}
