/** The news-sentiment tab (components/news-sentiment-tab.tsx): two constant score tables, drawn on
    axes over [-1, 1], each bar coloured by a four-band threshold classifier. */
module Sentiment {

  /** The four colour bands, from the most negative to the most positive. */
  datatype Band = Lightest | Lighter | Light | Strong

  /** The position of a band in the order above. */
  function Rank(b: Band): nat {
    match b
    case Lightest => 0
    case Lighter => 1
    case Light => 2
    case Strong => 3
  }

  /** The band a score falls in: above 0.3, above 0, above -0.3, or the rest. */
  function BandOf(s: real): (b: Band)
    ensures b == Strong <==> s > 0.3
    ensures b == Light <==> 0.0 < s <= 0.3
    ensures b == Lighter <==> -0.3 < s <= 0.0
    ensures b == Lightest <==> s <= -0.3
  {
    if s > 0.3 then Strong
    else if s > 0.0 then Light
    else if s > -0.3 then Lighter
    else Lightest
  }

  /** The fill of a band. */
  function Colour(b: Band): string {
    match b
    case Strong => "#8b5cf6"
    case Light => "#a78bfa"
    case Lighter => "#c4b5fd"
    case Lightest => "#ddd6fe"
  }

  /** `getSentimentColor(sentiment)`. */
  function SentimentColor(s: real): (c: string)
    ensures c == "#8b5cf6" <==> s > 0.3
    ensures c == "#a78bfa" <==> 0.0 < s <= 0.3
    ensures c == "#c4b5fd" <==> -0.3 < s <= 0.0
    ensures c == "#ddd6fe" <==> s <= -0.3
  {
    Colour(BandOf(s))
  }

  /** The four fills are distinct, so every score gets exactly one of them. */
  lemma {:induction false} ColoursDistinct(a: Band, b: Band)
    ensures Colour(a) == Colour(b) <==> a == b
  {
  }

  /** Banding is monotone: a higher score never lands in a lower band. */
  lemma {:induction false} BandMonotone(s1: real, s2: real)
    requires s1 <= s2
    ensures Rank(BandOf(s1)) <= Rank(BandOf(s2))
  {
  }

  /** One bar: a topic or an ETF, and its score. */
  datatype Score = Score(name: string, sentiment: real)

  /** The lower and upper end of both charts' score axis. */
  const AxisMin: real := -1.0
  const AxisMax: real := 1.0

  /** Sentiment by topic. */
  const TopicSentiment: seq<Score> := [
    Score("Market Volatility", -0.3), Score("Tech Sector", 0.6), Score("Interest Rates", -0.1),
    Score("Inflation", -0.4), Score("Economic Growth", 0.4), Score("Geopolitical", -0.2) ]

  /** Sentiment by ETF. */
  const EtfSentiment: seq<Score> := [
    Score("SPY", 0.3), Score("QQQ", 0.7), Score("VTI", 0.2), Score("IWM", -0.1),
    Score("EFA", 0.1), Score("VEA", 0.4), Score("IEMG", -0.2), Score("BND", -0.3) ]

  /** The fills of a table's bars, bar by bar. */
  function Fills(scores: seq<Score>): (fills: seq<string>)
    ensures |fills| == |scores|
    ensures forall i :: 0 <= i < |scores| ==> fills[i] == SentimentColor(scores[i].sentiment)
  {
    seq(|scores|, i requires 0 <= i < |scores| => SentimentColor(scores[i].sentiment))
  }

  /** Every constant score lies on the axis, so no bar is clipped. */
  lemma {:induction false} TablesWithinAxis()
    ensures forall s <- TopicSentiment :: AxisMin <= s.sentiment <= AxisMax
    ensures forall s <- EtfSentiment :: AxisMin <= s.sentiment <= AxisMax
  {
  }

  /** The scores sitting on a band boundary (0.3 and -0.3) take the lower band: SPY at 0.3 is light
      purple, Market Volatility and BND at -0.3 the lightest. */
  lemma {:induction false} BoundaryScoresTakeLowerBand()
    ensures Fills(EtfSentiment)[0] == "#a78bfa"
    ensures Fills(TopicSentiment)[0] == "#ddd6fe"
    ensures Fills(EtfSentiment)[7] == "#ddd6fe"
  {
  }
}
