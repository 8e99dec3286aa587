/**
 * The records the API returns: one Sample per time bucket.  Floating-point
 * numbers are carried as their IEEE-754 bit patterns; nothing in the core
 * computes with them.
 */
module Samples {

  datatype Float64 = Float64(bits: bv64)

  /** Four-way breakdown of tweet sentiment, stacked by the chart. */
  datatype SentimentRatio = SentimentRatio(
    positive: Float64,
    negative: Float64,
    neutral: Float64,
    unknown: Float64)

  datatype Sample = Sample(
    timeMs: int,
    coin: string,
    tweetIds: seq<string>,
    usdRate: Float64,
    score: string,
    scoreByFollowers: string,
    sentiment: SentimentRatio,
    sentimentByFollowers: SentimentRatio)
}
