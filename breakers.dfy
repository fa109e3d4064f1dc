/** Historical order blocks, the breaker blocks they turn into once price closes
    through them, and the bonus a setup earns from a breaker block near its
    entry. */
module Breakers {
  import opened Candles
  import opened Patterns

  /** An order block found anywhere in the recent window; `index` is its row
      within that window. */
  datatype HistoricalBlock = HistoricalBlock(kind: Direction, high: real, low: real, open: real, close: real,
                                             time: int, index: nat)

  /** A failed order block, now acting on the opposite side. Relevance and
      quality are only ever High or Medium. */
  datatype BreakerBlock = BreakerBlock(kind: Direction, originalKind: Direction, high: real, low: real,
                                       breakTime: int, relevance: Tier, quality: Tier)

  datatype Position = Inside | Near | Outside

  // ---------------------------------------------------------------------------
  // Historical order blocks

  /** The up to five candles after row i of w. */
  function NextCandles(w: seq<Candle>, i: nat): (next: seq<Candle>)
    requires i < |w|
    ensures |next| == MinNat(5, |w| - i - 1)
    ensures forall k :: 0 <= k < |next| ==> next[k] == w[i + 1 + k]
  {
    w[i + 1..MinNat(i + 6, |w|)]
  }

  /** Row i of w as an order block: a bearish candle followed, within the next
      five, by at least two bullish candles and a last high above its own
      high is a bullish block; a bullish candle with the mirror-image move is
      a bearish block. Fewer than two following candles never qualify. */
  function BlockAt(w: seq<Candle>, i: nat): (r: Option<HistoricalBlock>)
    requires i < |w|
    ensures r.Some? ==> i + 3 <= |w|
    ensures r.Some? ==> r.value == HistoricalBlock(r.value.kind, w[i].high, w[i].low, w[i].open, w[i].close, w[i].time, i)
  {
    var next := NextCandles(w, i);
    var c := w[i];
    if |next| < 2 then None
    else if IsBearishCandle(c) then
      if Count(BullishMask(next)) >= 2 && next[|next| - 1].high > c.high
      then Some(HistoricalBlock(Bullish, c.high, c.low, c.open, c.close, c.time, i))
      else None
    else if IsBullishCandle(c) then
      if Count(BearishMask(next)) >= 2 && next[|next| - 1].low < c.low
      then Some(HistoricalBlock(Bearish, c.high, c.low, c.open, c.close, c.time, i))
      else None
    else None
  }

  /** A bullish block is a bearish candle followed by at least two bullish ones
      among the next five and a last high above its own; a bearish block is
      the mirror image; and every bearish candle with such a move is one. */
  lemma BlockAtMeaning(w: seq<Candle>, i: nat)
    requires i < |w|
    ensures var r, next := BlockAt(w, i), NextCandles(w, i);
      && (r.Some? && r.value.kind == Bullish <==>
            |next| >= 2 && IsBearishCandle(w[i]) && !AtMostOne(BullishMask(next)) && next[|next| - 1].high > w[i].high)
      && (r.Some? && r.value.kind == Bearish <==>
            |next| >= 2 && IsBullishCandle(w[i]) && !AtMostOne(BearishMask(next)) && next[|next| - 1].low < w[i].low)
  {
    var next := NextCandles(w, i);
    CountMeaning(BullishMask(next));
    CountMeaning(BearishMask(next));
  }

  /** The blocks at rows 2 .. n-1 of w, in row order. */
  function BlocksBefore(w: seq<Candle>, n: nat): (obs: seq<HistoricalBlock>)
    requires n <= |w|
    ensures forall k :: 0 <= k < |obs| ==> 2 <= obs[k].index < n && BlockAt(w, obs[k].index) == Some(obs[k])
    ensures forall j, k :: 0 <= j < k < |obs| ==> obs[j].index < obs[k].index
  {
    if n <= 2 then []
    else
      var prev, b := BlocksBefore(w, n - 1), BlockAt(w, n - 1);
      if b.Some? then prev + [b.value] else prev
  }

  /** No genuine block of rows 2 .. n-1 is missed. */
  lemma {:induction false} BlocksBeforeComplete(w: seq<Candle>, n: nat, i: nat)
    requires n <= |w| && 2 <= i < n && BlockAt(w, i).Some?
    ensures BlockAt(w, i).value in BlocksBefore(w, n)
  {
    var prev, b, all := BlocksBefore(w, n - 1), BlockAt(w, n - 1), BlocksBefore(w, n);
    var x := BlockAt(w, i).value;
    if i < n - 1 {
      BlocksBeforeComplete(w, n - 1, i);
      if b.Some? {
        assert all == prev + [b.value];
        var k :| 0 <= k < |prev| && prev[k] == x;
        assert all[k] == x;
      } else {
        assert all == prev;
      }
    } else {
      assert all == prev + [b.value];
      assert all[|prev|] == x;
    }
  }

  /** Every order block among the last `lookback` candles (rows 2 to |w|-2 of
      that window are examined). */
  function HistoricalBlocks(df: seq<Candle>, lookback: nat): seq<HistoricalBlock>
  {
    var w := Tail(df, lookback);
    BlocksBefore(w, if |w| >= 1 then |w| - 1 else 0)
  }

  method FindHistoricalOrderBlocks(df: seq<Candle>, lookback: nat) returns (obs: seq<HistoricalBlock>)
    ensures obs == HistoricalBlocks(df, lookback)
  {
    var w := Tail(df, lookback);
    var n := if |w| >= 1 then |w| - 1 else 0;
    obs := [];
    if n > 2 {
      for i := 2 to n
        invariant obs == BlocksBefore(w, i)
      {
        var ob := BlockAt(w, i);
        if ob.Some? {
          obs := obs + [ob.value];
        }
      }
    }
  }

  /** What the loop finds is exactly the set of genuine order blocks of the
      window, each once and in row order, and none of them sits on either of
      the last two candles. */
  lemma HistoricalBlocksAreGenuine(df: seq<Candle>, lookback: nat)
    ensures var w, obs := Tail(df, lookback), HistoricalBlocks(df, lookback);
      && (forall k :: 0 <= k < |obs| ==> obs[k].index + 3 <= |w| && BlockAt(w, obs[k].index) == Some(obs[k]))
      && (forall i :: 2 <= i < |w| && BlockAt(w, i).Some? ==> BlockAt(w, i).value in obs)
  {
    var w := Tail(df, lookback);
    var n := if |w| >= 1 then |w| - 1 else 0;
    var obs := BlocksBefore(w, n);
    assert obs == HistoricalBlocks(df, lookback);
    forall i | 2 <= i < |w| && BlockAt(w, i).Some?
      ensures BlockAt(w, i).value in obs
    {
      assert i < n;
      BlocksBeforeComplete(w, n, i);
    }
  }

  // ---------------------------------------------------------------------------
  // Breaker blocks

  /** Candle c closes through the block against the block's direction. */
  predicate Breaks(c: Candle, ob: HistoricalBlock) {
    if ob.kind == Bullish then c.close < ob.low else c.close > ob.high
  }

  function BreakMask(w: seq<Candle>, ob: HistoricalBlock): (m: seq<bool>)
    ensures |m| == |w|
    ensures forall k :: 0 <= k < |w| ==> m[k] == Breaks(w[k], ob)
  {
    seq(|w|, k requires 0 <= k < |w| => Breaks(w[k], ob))
  }

  /** The breaker block `ob` becomes over the window w with current price
      `price`, or None while no candle has closed through it. */
  function BreakerOf(w: seq<Candle>, price: real, ob: HistoricalBlock): (r: Option<BreakerBlock>)
    ensures r.None? <==> forall k :: 0 <= k < |w| ==> !Breaks(w[k], ob)
    ensures r.Some? ==> && r.value.kind == Opposite(ob.kind) && r.value.originalKind == ob.kind
                        && r.value.high == ob.high && r.value.low == ob.low
    ensures r.Some? ==> exists k :: 0 <= k < |w| && Breaks(w[k], ob) && r.value.breakTime == w[k].time
                                  && forall j :: k < j < |w| ==> !Breaks(w[j], ob)
    ensures r.Some? ==> (r.value.quality == High <==> !AtMostOne(BreakMask(w, ob))) && r.value.quality != Low
    ensures r.Some? ==> r.value.relevance != Low
    ensures r.Some? && ob.kind == Bullish ==> (r.value.relevance == High <==> price < ob.high)
    ensures r.Some? && ob.kind == Bearish ==> (r.value.relevance == High <==> price > ob.low)
  {
    var mask := BreakMask(w, ob);
    CountMeaning(mask);
    var last := LastTrue(mask);
    if last.None? then None
    else
      var relevant := if ob.kind == Bullish then price < ob.high else price > ob.low;
      Some(BreakerBlock(Opposite(ob.kind), ob.kind, ob.high, ob.low, w[last.value].time,
                        if relevant then High else Medium,
                        if Count(mask) >= 2 then High else Medium))
  }

  /** The breaker blocks of the given order blocks, in their order. */
  function BreakersOf(w: seq<Candle>, price: real, obs: seq<HistoricalBlock>): (bbs: seq<BreakerBlock>)
    ensures |bbs| <= |obs|
    ensures forall b :: b in bbs ==> exists ob :: ob in obs && BreakerOf(w, price, ob) == Some(b)
    ensures forall ob :: ob in obs && BreakerOf(w, price, ob).Some? ==> BreakerOf(w, price, ob).value in bbs
  {
    if obs == [] then []
    else
      var ob := obs[|obs| - 1];
      var b := BreakerOf(w, price, ob);
      BreakersOf(w, price, obs[..|obs| - 1]) + (if b.Some? then [b.value] else [])
  }

  /** The blocks among `obs` that price has closed through within the last
      `lookback` candles, measured against the latest close. */
  method DetectBreakerBlock(df: seq<Candle>, obs: seq<HistoricalBlock>, lookback: nat) returns (bbs: seq<BreakerBlock>)
    requires obs != [] ==> |df| >= 1
    ensures obs == [] ==> bbs == []
    ensures obs != [] ==> bbs == BreakersOf(Tail(df, lookback), df[|df| - 1].close, obs)
  {
    bbs := [];
    if obs == [] {
      return;
    }
    var recent := Tail(df, lookback);
    var price := df[|df| - 1].close;
    for i := 0 to |obs|
      invariant bbs == BreakersOf(recent, price, obs[..i])
    {
      assert obs[..i + 1][..i] == obs[..i];
      var b := BreakerOf(recent, price, obs[i]);
      if b.Some? {
        bbs := bbs + [b.value];
      }
    }
    assert obs[..|obs|] == obs;
  }

  /** A breaker block always flips the direction of the order block it came from. */
  lemma BreakerFlipsDirection(w: seq<Candle>, price: real, obs: seq<HistoricalBlock>)
    ensures forall b :: b in BreakersOf(w, price, obs) ==> b.kind == Opposite(b.originalKind)
  {
    forall b | b in BreakersOf(w, price, obs)
      ensures b.kind == Opposite(b.originalKind)
    {
      var ob :| ob in obs && BreakerOf(w, price, ob) == Some(b);
    }
  }

  // ---------------------------------------------------------------------------
  // Breaker-block confluence

  const DefaultTolerancePct: real := 0.2

  /** Where price stands relative to the block: inside its range, within the
      tolerance band around it (tolerancePct percent of its height), or outside. */
  function CheckPriceInBreakerBlock(price: real, bb: BreakerBlock, tolerancePct: real): (p: Position)
    ensures p == Inside <==> InRange(price, bb.low, bb.high)
    ensures p == Near <==> !InRange(price, bb.low, bb.high) && InRange(price, bb.low - ToleranceOf(bb, tolerancePct), bb.high + ToleranceOf(bb, tolerancePct))
  {
    var tolerance := ToleranceOf(bb, tolerancePct);
    if bb.low <= price <= bb.high then Inside
    else if bb.low - tolerance <= price <= bb.high + tolerance then Near
    else Outside
  }

  function ToleranceOf(bb: BreakerBlock, tolerancePct: real): real
  {
    (bb.high - bb.low) * (tolerancePct / 100.0)
  }

  /** Widening the tolerance never moves a price that was inside or near a
      (non-inverted) block to outside it. */
  lemma WiderToleranceKeepsNearPrices(price: real, bb: BreakerBlock, t1: real, t2: real)
    requires bb.low <= bb.high && 0.0 <= t1 <= t2
    ensures CheckPriceInBreakerBlock(price, bb, t1) != Outside ==> CheckPriceInBreakerBlock(price, bb, t2) != Outside
  {
    assert ToleranceOf(bb, t1) <= ToleranceOf(bb, t2) by {
      assert (bb.high - bb.low) * (t1 / 100.0) <= (bb.high - bb.low) * (t2 / 100.0);
    }
  }

  /** A breaker block close enough to the entry, with where the entry stands. */
  datatype Relevant = Relevant(bb: BreakerBlock, position: Position)

  datatype BbConfluence = BbConfluence(bbCount: nat, bestBb: BreakerBlock, position: Position,
                                       quality: Tier, bonusScore: int)

  /** The blocks pointing the setup's way whose zone (with the default
      tolerance) holds the entry, in their order. */
  function RelevantOf(mss: Option<Direction>, entry: real, bbs: seq<BreakerBlock>): (rs: seq<Relevant>)
    ensures |rs| <= |bbs|
    ensures forall r :: r in rs ==>
              && r.bb in bbs && Some(r.bb.kind) == mss && r.position != Outside
              && r.position == CheckPriceInBreakerBlock(entry, r.bb, DefaultTolerancePct)
    ensures forall bb :: bb in bbs && Some(bb.kind) == mss && CheckPriceInBreakerBlock(entry, bb, DefaultTolerancePct) != Outside
              ==> Relevant(bb, CheckPriceInBreakerBlock(entry, bb, DefaultTolerancePct)) in rs
  {
    if bbs == [] then []
    else
      var bb := bbs[|bbs| - 1];
      var pos := CheckPriceInBreakerBlock(entry, bb, DefaultTolerancePct);
      RelevantOf(mss, entry, bbs[..|bbs| - 1])
      + (if Some(bb.kind) == mss && pos != Outside then [Relevant(bb, pos)] else [])
  }

  function HighOnes(rs: seq<Relevant>): (hs: seq<Relevant>)
    ensures forall r :: r in hs <==> r in rs && r.bb.quality == High
  {
    if rs == [] then []
    else HighOnes(rs[..|rs| - 1]) + (if rs[|rs| - 1].bb.quality == High then [rs[|rs| - 1]] else [])
  }

  function OtherOnes(rs: seq<Relevant>): (os: seq<Relevant>)
    ensures forall r :: r in os <==> r in rs && r.bb.quality != High
  {
    if rs == [] then []
    else OtherOnes(rs[..|rs| - 1]) + (if rs[|rs| - 1].bb.quality != High then [rs[|rs| - 1]] else [])
  }

  /** The stable sort on the key "high quality first": the high-quality blocks
      in their order, then the rest in theirs. */
  function SortByQuality(rs: seq<Relevant>): seq<Relevant>
  {
    HighOnes(rs) + OtherOnes(rs)
  }

  /** The two halves of the sort together are a permutation of its input. */
  lemma {:induction false} SplitIsPermutation(rs: seq<Relevant>)
    ensures multiset(HighOnes(rs)) + multiset(OtherOnes(rs)) == multiset(rs)
  {
    if rs != [] {
      SplitIsPermutation(rs[..|rs| - 1]);
      assert rs == rs[..|rs| - 1] + [rs[|rs| - 1]];
    }
  }

  /** Sorting by quality permutes the blocks and puts every high-quality block
      before every other one. */
  lemma SortByQualityIsOrderedPermutation(rs: seq<Relevant>)
    ensures var s := SortByQuality(rs);
      && multiset(s) == multiset(rs)
      && forall i, j :: 0 <= i < j < |s| && s[j].bb.quality == High ==> s[i].bb.quality == High
  {
    SplitIsPermutation(rs);
    var s, hs := SortByQuality(rs), HighOnes(rs);
    assert forall k :: |hs| <= k < |s| ==> s[k] in OtherOnes(rs);
    forall i, j | 0 <= i < j < |s| && s[j].bb.quality == High
      ensures s[i].bb.quality == High
    {
      assert s[i] in hs;
    }
  }

  /** The breaker-block confluence of a setup: the best block (high quality
      first) among those near the entry, how many there are, and 15 bonus
      points for a high-quality best block, else 10. */
  function BbConfluenceOf(mss: Option<Direction>, entry: real, bbs: seq<BreakerBlock>): Option<BbConfluence>
  {
    var sorted := SortByQuality(RelevantOf(mss, entry, bbs));
    if sorted == [] then None
    else
      var best := sorted[0];
      Some(BbConfluence(|sorted|, best.bb, best.position, best.bb.quality,
                        if best.bb.quality == High then 15 else 10))
  }

  method EnhanceSetupWithBreakerBlocks(mss: Option<Direction>, entry: real, bbs: seq<BreakerBlock>)
    returns (r: Option<BbConfluence>)
    ensures r == BbConfluenceOf(mss, entry, bbs)
  {
    if bbs == [] {
      return None;
    }
    var relevant := [];
    for i := 0 to |bbs|
      invariant relevant == RelevantOf(mss, entry, bbs[..i])
    {
      assert bbs[..i + 1][..i] == bbs[..i];
      var bb := bbs[i];
      if Some(bb.kind) == mss {
        var position := CheckPriceInBreakerBlock(entry, bb, DefaultTolerancePct);
        if position == Inside || position == Near {
          relevant := relevant + [Relevant(bb, position)];
        }
      }
    }
    assert bbs[..|bbs|] == bbs;
    if relevant == [] {
      return None;
    }
    var sorted := SortByQuality(relevant);
    var best := sorted[0];
    r := Some(BbConfluence(|sorted|, best.bb, best.position, best.bb.quality,
                           if best.bb.quality == High then 15 else 10));
  }

  /** There is a confluence exactly when some block pointing the setup's way
      holds the entry in its tolerance band; the best block is one of them,
      the count is all of them, and the bonus is 15 exactly when one of them
      is of high quality. */
  lemma BbConfluenceMeaning(mss: Option<Direction>, entry: real, bbs: seq<BreakerBlock>)
    ensures var c, rs := BbConfluenceOf(mss, entry, bbs), RelevantOf(mss, entry, bbs);
      && (c.None? <==> forall bb :: bb in bbs && Some(bb.kind) == mss ==>
                                      CheckPriceInBreakerBlock(entry, bb, DefaultTolerancePct) == Outside)
      && (c.Some? ==> c.value.bbCount == |rs| && c.value.bestBb in bbs && Some(c.value.bestBb.kind) == mss
                      && c.value.position != Outside)
      && (c.Some? ==> (c.value.bonusScore == 15 <==> exists r :: r in rs && r.bb.quality == High))
      && (c.Some? ==> c.value.bonusScore in {10, 15})
  {
    var rs := RelevantOf(mss, entry, bbs);
    var s := SortByQuality(rs);
    SortByQualityIsOrderedPermutation(rs);
    assert |s| == |rs| by {
      assert |multiset(s)| == |multiset(rs)|;
    }
    if s != [] {
      assert s[0] in multiset(rs);
      if exists r :: r in rs && r.bb.quality == High {
        var r :| r in rs && r.bb.quality == High;
        assert r in HighOnes(rs);
      }
    }
  }

  /** The index of the first high-quality block, |rs| when there is none. */
  function FirstHighIndex(rs: seq<Relevant>): (k: nat)
    ensures k <= |rs|
    ensures k < |rs| ==> rs[k].bb.quality == High
    ensures forall j :: 0 <= j < k ==> rs[j].bb.quality != High
  {
    if rs == [] then 0
    else
      var k := FirstHighIndex(rs[..|rs| - 1]);
      if k < |rs| - 1 then k
      else if rs[|rs| - 1].bb.quality == High then |rs| - 1
      else |rs|
  }

  /** The stable sort keeps the first high-quality block in front. */
  lemma {:induction false} HighOnesStartAtFirstHigh(rs: seq<Relevant>)
    requires FirstHighIndex(rs) < |rs|
    ensures HighOnes(rs) != [] && HighOnes(rs)[0] == rs[FirstHighIndex(rs)]
  {
    var init := rs[..|rs| - 1];
    if FirstHighIndex(init) < |init| {
      HighOnesStartAtFirstHigh(init);
    }
  }

  /** The stable sort keeps a leading lower-quality block at the front of
      the lower-quality half. */
  lemma {:induction false} OtherOnesStartAtFirst(rs: seq<Relevant>)
    requires rs != [] && rs[0].bb.quality != High
    ensures OtherOnes(rs) != [] && OtherOnes(rs)[0] == rs[0]
  {
    var init := rs[..|rs| - 1];
    if init != [] {
      OtherOnesStartAtFirst(init);
    }
  }

  /** The best block is the one Python's stable sort puts first: the first
      high-quality relevant block in list order, else the first relevant
      block; the reported position and quality are that block's. */
  lemma BestBreakerIsFirstPreferred(mss: Option<Direction>, entry: real, bbs: seq<BreakerBlock>)
    ensures var c, rs := BbConfluenceOf(mss, entry, bbs), RelevantOf(mss, entry, bbs);
      c.Some? ==>
        var k := if FirstHighIndex(rs) < |rs| then FirstHighIndex(rs) else 0;
        && k < |rs| && rs[k] == Relevant(c.value.bestBb, c.value.position)
        && c.value.position == CheckPriceInBreakerBlock(entry, c.value.bestBb, DefaultTolerancePct)
        && c.value.quality == c.value.bestBb.quality
  {
    var rs := RelevantOf(mss, entry, bbs);
    if FirstHighIndex(rs) < |rs| {
      HighOnesStartAtFirstHigh(rs);
    } else if rs != [] {
      OtherOnesStartAtFirst(rs);
    }
  }
}
