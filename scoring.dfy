/** The decision layer for one symbol: the three additive scoring rules, the
    reasons they leave behind, the cap at 100 and the recommendation table of
    `GitHubTradingBot.analyze_symbol`. The indicators themselves are inputs. */
module Scoring {

  /** An ISO-8601 UTC instant, supplied by the caller in place of the clock. */
  type Timestamp = string

  /** The last values of the indicators computed from one symbol's bars. */
  datatype Snapshot = Snapshot(
    price: real,       // close of the last bar
    ema20: real,       // EMA(20) of the closes, last value
    ema50: real,       // EMA(50) of the closes, last value
    rsi: real,         // RSI(14) of the closes, last value
    volume: real,      // volume of the last bar
    volumeMa20: real)  // 20-bar rolling mean of the volume, last value

  /** What fetching and preparing the bars of one symbol produced. */
  datatype Feed =
    | Unavailable                       // the fetch failed and an empty frame came back
    | Bars(count: nat, last: Snapshot)  // `count` bars whose indicators end in `last`
    | Raises                            // an exception escaped while the symbol was analysed

  datatype Reason = BullishEma | EmaSupport | OptimalRsi | OversoldRsi | HighVolume

  datatype Recommendation = StrongBuy | Buy | Neutral | Avoid

  datatype Risk = Low | Medium | MediumHigh | High

  datatype Verdict = Verdict(recommendation: Recommendation, risk: Risk)

  datatype ScoreResult = ScoreResult(
    symbol: string,
    price: real,
    score: nat,
    recommendation: Recommendation,
    risk: Risk,
    reasons: seq<Reason>,
    rsi: real,
    timestamp: Timestamp)

  /** What analysing one symbol gives: the source's `None` is split into a
      skip (too little data) and a failure (an exception was swallowed). */
  datatype Outcome = Skipped | Failed | Scored(result: ScoreResult)

  /** Fewest bars a symbol needs before it is scored. */
  const MinBars: nat := 20
  /** Upper bound the score is clamped to. */
  const ScoreCap: nat := 100

  const BullishEmaPoints: nat := 35
  const EmaSupportPoints: nat := 20
  const OptimalRsiPoints: nat := 25
  const OversoldRsiPoints: nat := 15
  const HighVolumePoints: nat := 20

  function Min(a: int, b: int): int {
    if a <= b then a else b
  }

  /** Points a rule adds when it fires with this reason. */
  function Weight(r: Reason): nat {
    match r
    case BullishEma => BullishEmaPoints
    case EmaSupport => EmaSupportPoints
    case OptimalRsi => OptimalRsiPoints
    case OversoldRsi => OversoldRsiPoints
    case HighVolume => HighVolumePoints
  }

  /** The rule a reason comes from: 0 trend, 1 momentum, 2 volume. */
  function RuleOf(r: Reason): nat {
    match r
    case BullishEma | EmaSupport => 0
    case OptimalRsi | OversoldRsi => 1
    case HighVolume => 2
  }

  function SumOfWeights(rs: seq<Reason>): nat {
    if rs == [] then 0 else Weight(rs[0]) + SumOfWeights(rs[1..])
  }

  lemma {:induction false} SumOfWeightsAppend(a: seq<Reason>, b: seq<Reason>)
    ensures SumOfWeights(a + b) == SumOfWeights(a) + SumOfWeights(b)
  {
    if a == [] {
      assert a + b == b;
    } else {
      assert (a + b)[1..] == a[1..] + b;
      SumOfWeightsAppend(a[1..], b);
    }
  }

  // The three rules, as the source adds them to the score ...

  function TrendPoints(s: Snapshot): nat {
    if s.ema20 > s.ema50 then BullishEmaPoints
    else if s.ema20 > s.price * 0.98 then EmaSupportPoints
    else 0
  }

  function MomentumPoints(s: Snapshot): nat {
    if 40.0 <= s.rsi <= 65.0 then OptimalRsiPoints
    else if s.rsi < 40.0 then OversoldRsiPoints
    else 0
  }

  function VolumePoints(s: Snapshot): nat {
    if s.volume > s.volumeMa20 * 1.2 then HighVolumePoints else 0
  }

  // ... and as the source appends to the reasons.

  function TrendReasons(s: Snapshot): (r: seq<Reason>)
    ensures |r| <= 1 && forall x :: x in r ==> RuleOf(x) == 0
  {
    if s.ema20 > s.ema50 then [BullishEma]
    else if s.ema20 > s.price * 0.98 then [EmaSupport]
    else []
  }

  function MomentumReasons(s: Snapshot): (r: seq<Reason>)
    ensures |r| <= 1 && forall x :: x in r ==> RuleOf(x) == 1
  {
    if 40.0 <= s.rsi <= 65.0 then [OptimalRsi]
    else if s.rsi < 40.0 then [OversoldRsi]
    else []
  }

  function VolumeReasons(s: Snapshot): (r: seq<Reason>)
    ensures |r| <= 1 && forall x :: x in r ==> RuleOf(x) == 2
  {
    if s.volume > s.volumeMa20 * 1.2 then [HighVolume] else []
  }

  /** Concatenating at most one reason of each rule, rule by rule, lists
      them in strictly increasing rule order. */
  lemma RuleOrderOfParts(t: seq<Reason>, m: seq<Reason>, v: seq<Reason>)
    requires |t| <= 1 && |m| <= 1 && |v| <= 1
    requires forall x :: x in t ==> RuleOf(x) == 0
    requires forall x :: x in m ==> RuleOf(x) == 1
    requires forall x :: x in v ==> RuleOf(x) == 2
    ensures forall i, j :: 0 <= i < j < |t + m + v| ==> RuleOf((t + m + v)[i]) < RuleOf((t + m + v)[j])
  {
    var r := t + m + v;
    forall i | 0 <= i < |r| ensures RuleOf(r[i]) == if i < |t| then 0 else if i < |t| + |m| then 1 else 2 {
      if i < |t| {
        assert r[i] == t[i];
      } else if i < |t| + |m| {
        assert r[i] == m[i - |t|];
      } else {
        assert r[i] == v[i - |t| - |m|];
      }
    }
  }

  /** The reasons list: one entry per rule that fired, in rule order. */
  function Reasons(s: Snapshot): (r: seq<Reason>)
    ensures |r| <= 3
    ensures forall i, j :: 0 <= i < j < |r| ==> RuleOf(r[i]) < RuleOf(r[j])
    ensures BullishEma in r <==> s.ema20 > s.ema50
    ensures EmaSupport in r <==> !(s.ema20 > s.ema50) && s.ema20 > s.price * 0.98
    ensures OptimalRsi in r <==> 40.0 <= s.rsi <= 65.0
    ensures OversoldRsi in r <==> s.rsi < 40.0
    ensures HighVolume in r <==> s.volume > s.volumeMa20 * 1.2
  {
    var t, m, v := TrendReasons(s), MomentumReasons(s), VolumeReasons(s);
    RuleOrderOfParts(t, m, v);
    t + m + v
  }

  /** The composite score: the three rules' points, capped at 100. The cap
      never binds, and the score is exactly the weight of the listed reasons. */
  function Score(s: Snapshot): (r: nat)
    ensures r == TrendPoints(s) + MomentumPoints(s) + VolumePoints(s)
    ensures r <= BullishEmaPoints + OptimalRsiPoints + HighVolumePoints
    ensures r == SumOfWeights(Reasons(s))
  {
    SumOfWeightsAppend(TrendReasons(s), MomentumReasons(s));
    SumOfWeightsAppend(TrendReasons(s) + MomentumReasons(s), VolumeReasons(s));
    Min(TrendPoints(s) + MomentumPoints(s) + VolumePoints(s), ScoreCap)
  }

  /** The recommendation table, thresholds checked from the highest down. */
  function Classify(score: int): (v: Verdict)
    ensures v == Verdict(StrongBuy, Low) <==> score >= 80
    ensures v == Verdict(Buy, Medium) <==> 70 <= score < 80
    ensures v == Verdict(Neutral, MediumHigh) <==> 60 <= score < 70
    ensures v == Verdict(Avoid, High) <==> score < 60
  {
    if score >= 80 then Verdict(StrongBuy, Low)
    else if score >= 70 then Verdict(Buy, Medium)
    else if score >= 60 then Verdict(Neutral, MediumHigh)
    else Verdict(Avoid, High)
  }

  /** How strongly a recommendation argues for buying (Avoid weakest). */
  function Strength(r: Recommendation): nat {
    match r
    case Avoid => 0
    case Neutral => 1
    case Buy => 2
    case StrongBuy => 3
  }

  /** A higher score never gives a weaker recommendation. */
  lemma ClassifyMonotone(a: int, b: int)
    requires a <= b
    ensures Strength(Classify(a).recommendation) <= Strength(Classify(b).recommendation)
  {
  }

  /** Analysing one symbol: skip it when the frame is empty or shorter than
      20 bars, report a failure when an exception escapes, and otherwise
      score it and label it from the recommendation table. */
  function Analyze(symbol: string, feed: Feed, now: Timestamp): (o: Outcome)
    ensures o.Skipped? <==> feed.Unavailable? || (feed.Bars? && feed.count < MinBars)
    ensures o.Failed? <==> feed.Raises?
    ensures o.Scored? ==>
      feed.Bars? && feed.count >= MinBars &&
      o.result.symbol == symbol && o.result.price == feed.last.price &&
      o.result.rsi == feed.last.rsi && o.result.timestamp == now &&
      o.result.score == SumOfWeights(o.result.reasons) && o.result.score <= 80 &&
      Classify(o.result.score) == Verdict(o.result.recommendation, o.result.risk)
    ensures o.Scored? ==>
      (o.result.score >= 70 <==> o.result.recommendation in {StrongBuy, Buy})
  {
    match feed
    case Unavailable => Skipped
    case Raises => Failed
    case Bars(count, last) =>
      if count < MinBars then Skipped
      else
        var score := Score(last);
        var v := Classify(score);
        Scored(ScoreResult(symbol, last.price, score, v.recommendation, v.risk,
                           Reasons(last), last.rsi, now))
  }

  /** The reasons a scored result carries are those of its snapshot: one per
      rule that fired, in rule order. */
  lemma ScoredReasons(symbol: string, feed: Feed, now: Timestamp)
    requires Analyze(symbol, feed, now).Scored?
    ensures feed.Bars? && Analyze(symbol, feed, now).result.reasons == Reasons(feed.last)
  {
  }
}
