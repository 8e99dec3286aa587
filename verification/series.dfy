/**
 * The two pure views the page takes of the fetched samples: the chart rows
 * (`transformTrends`) and the highlighted sample (`selectedResult`).
 */
module Series {
  import opened Options
  import opened Samples

  /** A Sample spread into a new record together with the derived tweet count. */
  datatype ChartRow = ChartRow(
    timeMs: int,
    coin: string,
    tweetIds: seq<string>,
    usdRate: Float64,
    score: string,
    scoreByFollowers: string,
    sentiment: SentimentRatio,
    sentimentByFollowers: SentimentRatio,
    tweetCount: nat)

  function WithTweetCount(x: Sample): ChartRow {
    ChartRow(x.timeMs, x.coin, x.tweetIds, x.usdRate, x.score, x.scoreByFollowers,
             x.sentiment, x.sentimentByFollowers, |x.tweetIds|)
  }

  /** The sample a row was spread from: every field but the derived one. */
  function Fields(r: ChartRow): Sample {
    Sample(r.timeMs, r.coin, r.tweetIds, r.usdRate, r.score, r.scoreByFollowers,
           r.sentiment, r.sentimentByFollowers)
  }

  /** `data.map(x => ({...x, tweetCount: x.tweetIds.length}))` */
  function TransformTrends(data: seq<Sample>): (rows: seq<ChartRow>)
    ensures |rows| == |data|
    decreases |data|
  {
    if data == [] then [] else [WithTweetCount(data[0])] + TransformTrends(data[1..])
  }

  /**
   * The transform keeps length and order, row i carries every field of
   * sample i unchanged, and its tweet count is the number of tweet ids.
   */
  lemma {:induction false} TransformTrendsRows(data: seq<Sample>)
    ensures |TransformTrends(data)| == |data|
    ensures forall i :: 0 <= i < |data| ==>
      Fields(TransformTrends(data)[i]) == data[i] &&
      TransformTrends(data)[i].tweetCount == |data[i].tweetIds|
    decreases |data|
  {
    if data != [] {
      TransformTrendsRows(data[1..]);
      forall i | 1 <= i < |data|
        ensures TransformTrends(data)[i] == TransformTrends(data[1..])[i - 1]
      {
      }
    }
  }

  /** Transforming an accumulated series is transforming each page and concatenating. */
  lemma {:induction false} TransformTrendsConcat(a: seq<Sample>, b: seq<Sample>)
    ensures TransformTrends(a + b) == TransformTrends(a) + TransformTrends(b)
    decreases |a|
  {
    if a != [] {
      assert (a + b)[1..] == a[1..] + b;
      TransformTrendsConcat(a[1..], b);
    } else {
      assert a + b == b;
    }
  }

  /** Index of the first sample stamped `t`, or |s| when there is none (`Array.find`). */
  function FindByTime(s: seq<Sample>, t: int): (k: nat)
    ensures k <= |s|
    ensures forall j :: 0 <= j < k ==> s[j].timeMs != t
    ensures k < |s| ==> s[k].timeMs == t
    decreases |s|
  {
    if s == [] then 0
    else if s[0].timeMs == t then 0
    else 1 + FindByTime(s[1..], t)
  }

  /** JavaScript truthiness of the selected timestamp: unset and 0 are both falsy. */
  predicate IsSelected(selected: Option<int>) {
    selected.Some? && selected.value != 0
  }

  /**
   * The highlighted sample: nothing while there is no data, the last sample
   * when nothing is selected, otherwise the first sample whose timestamp is
   * the selection.  An empty array is truthy, so it yields nothing either way.
   */
  function SelectedResult(data: Option<seq<Sample>>, selected: Option<int>): (r: Option<Sample>)
    ensures data.None? ==> r.None?
    ensures data.Some? && !IsSelected(selected) ==>
      r == if |data.value| == 0 then None else Some(data.value[|data.value| - 1])
    ensures data.Some? && IsSelected(selected) ==>
      (r.Some? <==> exists i :: 0 <= i < |data.value| && data.value[i].timeMs == selected.value)
    ensures data.Some? && IsSelected(selected) && r.Some? ==>
      r.value.timeMs == selected.value &&
      exists i :: 0 <= i < |data.value| && r.value == data.value[i] &&
        forall j :: 0 <= j < i ==> data.value[j].timeMs != selected.value
  {
    match data
    case None => None
    case Some(s) =>
      if !IsSelected(selected) then
        (if |s| == 0 then None else Some(s[|s| - 1]))
      else
        var k := FindByTime(s, selected.value);
        if k < |s| then Some(s[k]) else None
  }
}
