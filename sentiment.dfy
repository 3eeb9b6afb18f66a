/**
 * Sentiment: scoring batches of unscored content with an external polarity
 * function, writing the scores back, routing a ticker's prefixed content ids to
 * the two tables, and aligning scored content with a ticker's daily price bars.
 */
module Sentiment {
  import opened Wrappers
  import opened Models
  import Tickers

  const MaxBatch := 20000

  // ---------------------------------------------------------------------------
  // Scoring a batch
  // ---------------------------------------------------------------------------

  /** One `{id, sentiment}` mapping. */
  datatype Score = Score(id: string, sentiment: real)

  /**
   * sentiment: the compound polarity of the text of every item in the next
   * batch of unscored items, in batch order; empty when every item is scored.
   * `polarity` stands for the external analyzer.
   */
  method SentimentBatch(rows: seq<Content>, polarity: string -> real) returns (output: seq<Score>)
    requires UniqueIds(rows)
    ensures |output| == |Batch(rows, IsUnscored, MaxBatch)| <= MaxBatch
    ensures forall i :: 0 <= i < |output| ==>
      var c := Batch(rows, IsUnscored, MaxBatch)[i];
      c in rows && c.sentiment.None? && output[i] == Score(c.id, polarity(Text(c)))
    ensures |output| < MaxBatch ==>
      forall c :: c in rows && c.sentiment.None? ==> exists i :: 0 <= i < |output| && output[i].id == c.id
    ensures (forall c :: c in rows ==> c.sentiment.Some?) <==> output == []
  {
    var batch := Batch(rows, IsUnscored, MaxBatch);
    output := ScoreEach(batch, polarity);
    forall i | 0 <= i < |batch|
      ensures batch[i] in rows && batch[i].sentiment.None?
    {
      assert batch[i] in batch;
    }
    forall c | c in rows && c.sentiment.None? && |output| < MaxBatch
      ensures exists i :: 0 <= i < |output| && output[i].id == c.id
    {
      var i :| 0 <= i < |batch| && batch[i] == c;
      assert output[i].id == c.id;
    }
    if output == [] {
      assert batch == [];
    } else {
      assert batch[0] in rows && batch[0].sentiment.None?;
    }
  }

  /** The score of every item, in order. */
  method ScoreEach(batch: seq<Content>, polarity: string -> real) returns (output: seq<Score>)
    ensures |output| == |batch|
    ensures forall i :: 0 <= i < |batch| ==> output[i] == Score(batch[i].id, polarity(Text(batch[i])))
  {
    output := [];
    for i := 0 to |batch|
      invariant |output| == i
      invariant forall k :: 0 <= k < i ==> output[k] == Score(batch[k].id, polarity(Text(batch[k])))
    {
      output := output + [Score(batch[i].id, polarity(Text(batch[i])))];
    }
  }

  // ---------------------------------------------------------------------------
  // Writing scores back
  // ---------------------------------------------------------------------------

  /** One mapping of a bulk update: the row with that id gets the score. */
  function SetScore(rows: seq<Content>, s: Score): (r: seq<Content>)
    ensures SameKeys(rows, r)
  {
    seq(|rows|, i requires 0 <= i < |rows| =>
      if rows[i].id == s.id then rows[i].(sentiment := Some(s.sentiment)) else rows[i])
  }

  /** The rows after the mappings are applied in order. */
  function ApplyScores(rows: seq<Content>, update: seq<Score>): (r: seq<Content>)
    ensures SameKeys(rows, r)
    decreases |update|
  {
    if update == [] then rows
    else SetScore(ApplyScores(rows, update[..|update| - 1]), update[|update| - 1])
  }

  /** The score the last mapping for `id` carries, if any. */
  function LastScore(update: seq<Score>, id: string): (r: Option<real>)
    ensures r.None? <==> forall k :: 0 <= k < |update| ==> update[k].id != id
    decreases |update|
  {
    if update == [] then None
    else if update[|update| - 1].id == id then Some(update[|update| - 1].sentiment)
    else LastScore(update[..|update| - 1], id)
  }

  /** A bulk update sets each row's score to the last mapping with its id and leaves every other field and row alone. */
  lemma {:induction false} ApplyScoresEffect(rows: seq<Content>, update: seq<Score>, i: nat)
    requires i < |rows|
    ensures ApplyScores(rows, update)[i] ==
      match LastScore(update, rows[i].id)
      case Some(v) => rows[i].(sentiment := Some(v))
      case None => rows[i]
    decreases |update|
  {
    if update != [] {
      ApplyScoresEffect(rows, update[..|update| - 1], i);
    }
  }

  /** write_sentiment: applies the mappings to the table in one commit. */
  method WriteSentiment(db: Store, kind: Kind, update: seq<Score>)
    requires db.Valid()
    modifies db
    ensures db.Valid()
    ensures db.Rows(kind) == ApplyScores(old(db.Rows(kind)), update)
    ensures db.Rows(Other(kind)) == old(db.Rows(Other(kind))) && db.tickers == old(db.tickers)
  {
    var rows := db.Rows(kind);
    for k := 0 to |update|
      invariant rows == ApplyScores(db.Rows(kind), update[..k])
    {
      assert update[..k + 1][..k] == update[..k];
      rows := SetScore(rows, update[k]);
    }
    assert update[..|update|] == update;
    db.SetRows(kind, rows);
  }

  /** Once a batch's scores are written, none of its items is selected as unscored again. */
  lemma ScoredLeaveSelection(rows: seq<Content>, update: seq<Score>, i: nat, k: nat)
    requires i < |rows| && k < |update| && update[k].id == rows[i].id
    ensures !IsUnscored(ApplyScores(rows, update)[i])
  {
    ApplyScoresEffect(rows, update, i);
  }

  // ---------------------------------------------------------------------------
  // Routing a ticker's content ids
  // ---------------------------------------------------------------------------

  /** The ids carrying the three-character `prefix`, with the prefix removed. */
  function Routed(ids: seq<string>, prefix: string): (r: seq<string>)
    requires |prefix| == 3
    ensures forall x :: x in r <==> prefix + x in ids
  {
    if ids == [] then []
    else
      var item := ids[0];
      var rest := Routed(ids[1..], prefix);
      assert forall x :: prefix + x in ids <==> prefix + x == item || prefix + x in ids[1..];
      if |item| >= 3 && item[..3] == prefix then
        assert prefix + item[3..] == item;
        assert forall x :: prefix + x == item ==> x == item[3..];
        [item[3..]] + rest
      else
        assert forall x :: prefix + x != item by {
          forall x ensures prefix + x != item {
            assert (prefix + x)[..3] == prefix;
          }
        }
        rest
  }

  /** The (sentiment, created_utc) pairs of rows. */
  function Observations(rows: seq<Content>): (r: seq<(Option<real>, int)>)
    ensures |r| == |rows| && forall i :: 0 <= i < |rows| ==> r[i] == (rows[i].sentiment, rows[i].createdUtc)
  {
    seq(|rows|, i requires 0 <= i < |rows| => (rows[i].sentiment, rows[i].createdUtc))
  }

  /** get_sentiment_data: the pairs of the posts, then of the comments, whose prefixed ids the ticker lists. */
  function GetSentimentData(contentIds: Option<seq<string>>, posts: seq<Content>, comments: seq<Content>)
    : (r: seq<(Option<real>, int)>)
    ensures contentIds.None? ==> r == []
  {
    match contentIds
    case None => []
    case Some(ids) =>
      var postIds := Routed(ids, Tickers.PostPrefix);
      var commentIds := Routed(ids, Tickers.CommentPrefix);
      Observations(Where(posts, (c: Content) => c.id in postIds)) + Observations(Where(comments, (c: Content) => c.id in commentIds))
  }

  /** The rows of a table that a list of prefixed ids refers to, in table order. */
  function Referenced(rows: seq<Content>, ids: seq<string>, prefix: string): seq<Content> {
    Where(rows, (c: Content) => prefix + c.id in ids)
  }

  lemma {:induction false} WhereCongruent(rows: seq<Content>, p: Content -> bool, q: Content -> bool)
    requires forall c :: c in rows ==> p(c) == q(c)
    ensures Where(rows, p) == Where(rows, q)
  {
    if rows != [] {
      WhereCongruent(rows[1..], p, q);
    }
  }

  /**
   * Routing is exact: the pairs come from the posts listed with the post prefix,
   * then the comments listed with the comment prefix; every other id is ignored.
   */
  lemma SentimentDataReferenced(ids: seq<string>, posts: seq<Content>, comments: seq<Content>)
    ensures GetSentimentData(Some(ids), posts, comments) ==
      Observations(Referenced(posts, ids, Tickers.PostPrefix)) + Observations(Referenced(comments, ids, Tickers.CommentPrefix))
  {
    var postIds := Routed(ids, Tickers.PostPrefix);
    var commentIds := Routed(ids, Tickers.CommentPrefix);
    WhereCongruent(posts, (c: Content) => c.id in postIds, (c: Content) => Tickers.PostPrefix + c.id in ids);
    WhereCongruent(comments, (c: Content) => c.id in commentIds, (c: Content) => Tickers.CommentPrefix + c.id in ids);
  }

  // ---------------------------------------------------------------------------
  // Aligning content with price bars
  // ---------------------------------------------------------------------------

  /** A scored content item: its compound score and creation time. */
  datatype Event = Event(score: real, created: int)

  /** The bars are in strictly increasing date order, as the price index must be for a date slice. */
  predicate Increasing(bars: seq<Bar>) {
    forall i, j :: 0 <= i < j < |bars| ==> bars[i].date < bars[j].date
  }

  function Dates(bars: seq<Bar>): (r: seq<int>)
    ensures |r| == |bars| && forall i :: 0 <= i < |bars| ==> r[i] == bars[i].date
  {
    seq(|bars|, i requires 0 <= i < |bars| => bars[i].date)
  }

  /** The first position whose date is at or after `t`, if any. */
  function FirstAtOrAfter(dates: seq<int>, t: int): (r: Option<nat>)
    ensures r.Some? ==> r.value < |dates| && dates[r.value] >= t && forall k :: 0 <= k < r.value ==> dates[k] < t
    ensures r.None? ==> forall k :: 0 <= k < |dates| ==> dates[k] < t
  {
    if dates == [] then None
    else if dates[0] >= t then Some(0)
    else
      match FirstAtOrAfter(dates[1..], t)
      case None => None
      case Some(i) => Some(i + 1)
  }

  /** On increasing dates the first bar at or after t is the nearest one: no bar at or after t is earlier. */
  lemma FirstIsNearest(bars: seq<Bar>, t: int, k: nat)
    requires Increasing(bars) && k < |bars| && bars[k].date >= t
    ensures FirstAtOrAfter(Dates(bars), t).Some?
    ensures var i := FirstAtOrAfter(Dates(bars), t).value; i <= k && t <= bars[i].date <= bars[k].date
  {
    assert Dates(bars)[k] == bars[k].date;
  }

  /** The events with a nonzero score, in order. */
  function Nonzero(events: seq<Event>): (r: seq<Event>)
    ensures |r| <= |events|
    ensures forall e :: e in r <==> e in events && e.score != 0.0
    decreases |events|
  {
    if events == [] then []
    else
      var init := events[..|events| - 1];
      var last := events[|events| - 1];
      assert events == init + [last];
      Nonzero(init) + (if last.score != 0.0 then [last] else [])
  }

  /** The filter keeps every nonzero event as often as it occurs and drops every zero one. */
  lemma {:induction false} NonzeroCounts(events: seq<Event>)
    ensures forall e :: multiset(Nonzero(events))[e] == if e.score != 0.0 then multiset(events)[e] else 0
    decreases |events|
  {
    if events != [] {
      var init := events[..|events| - 1];
      var last := events[|events| - 1];
      assert events == init + [last];
      assert multiset(events) == multiset(init) + multiset{last};
      NonzeroCounts(init);
      assert Nonzero(events) == Nonzero(init) + (if last.score != 0.0 then [last] else []);
    }
  }

  /** The events whose first bar at or after them is bar i. */
  function AttributedTo(dates: seq<int>, es: seq<Event>, i: nat): seq<Event>
    decreases |es|
  {
    if es == [] then []
    else
      var last := es[|es| - 1];
      AttributedTo(dates, es[..|es| - 1], i) + (if FirstAtOrAfter(dates, last.created) == Some(i) then [last] else [])
  }

  /** The events that have some bar at or after them. */
  function Matched(dates: seq<int>, es: seq<Event>): seq<Event>
    decreases |es|
  {
    if es == [] then []
    else
      var last := es[|es| - 1];
      Matched(dates, es[..|es| - 1]) + (if FirstAtOrAfter(dates, last.created).Some? then [last] else [])
  }

  function PosCount(es: seq<Event>): nat
    decreases |es|
  {
    if es == [] then 0 else PosCount(es[..|es| - 1]) + (if es[|es| - 1].score > 0.0 then 1 else 0)
  }

  function NegCount(es: seq<Event>): nat
    decreases |es|
  {
    if es == [] then 0 else NegCount(es[..|es| - 1]) + (if es[|es| - 1].score < 0.0 then 1 else 0)
  }

  function ScoreSum(es: seq<Event>): real
    decreases |es|
  {
    if es == [] then 0.0 else ScoreSum(es[..|es| - 1]) + es[|es| - 1].score
  }

  /** A bar with its four aggregate columns set to 0. */
  function Reset(b: Bar): Bar {
    b.(positiveCount := 0, negativeCount := 0, sentimentSum := 0.0, scaledSentiment := 0.0)
  }

  /** The bars with their prices and dates kept and every aggregate column at 0. */
  function ResetAll(bars: seq<Bar>): (r: seq<Bar>)
    ensures |r| == |bars| && Dates(r) == Dates(bars)
    ensures forall i :: 0 <= i < |bars| ==>
      && r[i].open == bars[i].open && r[i].high == bars[i].high && r[i].low == bars[i].low
      && r[i].close == bars[i].close && r[i].volume == bars[i].volume
      && r[i].positiveCount == 0 && r[i].negativeCount == 0
      && r[i].sentimentSum == 0.0 && r[i].scaledSentiment == 0.0
  {
    seq(|bars|, i requires 0 <= i < |bars| => Reset(bars[i]))
  }

  /** One event counted on a bar: its sign's counter and the running sum. */
  function Attribute(b: Bar, score: real): Bar {
    b.(negativeCount := b.negativeCount + (if score < 0.0 then 1 else 0),
       positiveCount := b.positiveCount + (if score > 0.0 then 1 else 0),
       sentimentSum := b.sentimentSum + score)
  }

  /** The bars after each event, in order, is counted on the first bar at or after it; events after the last bar are dropped. */
  function Fold(bs: seq<Bar>, es: seq<Event>): (r: seq<Bar>)
    ensures |r| == |bs|
    decreases |es|
  {
    if es == [] then bs
    else
      var f := Fold(bs, es[..|es| - 1]);
      var e := es[|es| - 1];
      match FirstAtOrAfter(Dates(bs), e.created)
      case None => f
      case Some(i) => f[i := Attribute(f[i], e.score)]
  }

  /** The mean score of a bar's counted events, when it has any. */
  function Scale(b: Bar): Bar {
    var n := b.negativeCount + b.positiveCount;
    if n > 0 then b.(scaledSentiment := b.sentimentSum / n as real) else b
  }

  /** update_symbol_data on the price frame, as a value. */
  function Aligned(bars: seq<Bar>, events: seq<Event>): (r: seq<Bar>)
    ensures |r| == |bars|
  {
    var f := Fold(ResetAll(bars), Nonzero(events));
    seq(|bars|, i requires 0 <= i < |bars| => Scale(f[i]))
  }

  /** A bar tallying a set of events from zero, with its mean. */
  function Tally(b: Bar, es: seq<Event>): Bar {
    var p, n, s := PosCount(es), NegCount(es), ScoreSum(es);
    b.(positiveCount := p, negativeCount := n, sentimentSum := s,
       scaledSentiment := if p + n > 0 then s / (p + n) as real else 0.0)
  }

  /** A bar with counts and a sum added to its aggregate columns. */
  function AddTallies(b: Bar, p: int, n: int, sum: real): Bar {
    b.(positiveCount := b.positiveCount + p, negativeCount := b.negativeCount + n,
       sentimentSum := b.sentimentSum + sum)
  }

  lemma TallyStep(at: seq<Event>, e: Event)
    ensures PosCount(at + [e]) == PosCount(at) + (if e.score > 0.0 then 1 else 0)
    ensures NegCount(at + [e]) == NegCount(at) + (if e.score < 0.0 then 1 else 0)
    ensures ScoreSum(at + [e]) == ScoreSum(at) + e.score
  {
    var at' := at + [e];
    assert at'[..|at'| - 1] == at;
  }

  lemma AttributeAdds(b: Bar, at: seq<Event>, e: Event)
    ensures Attribute(AddTallies(b, PosCount(at), NegCount(at), ScoreSum(at)), e.score) ==
      AddTallies(b, PosCount(at + [e]), NegCount(at + [e]), ScoreSum(at + [e]))
  {
    TallyStep(at, e);
  }

  lemma {:induction false} FoldTallies(bs: seq<Bar>, es: seq<Event>, i: nat)
    requires i < |bs|
    ensures var at := AttributedTo(Dates(bs), es, i);
      Fold(bs, es)[i] == AddTallies(bs[i], PosCount(at), NegCount(at), ScoreSum(at))
    decreases |es|
  {
    if es != [] {
      var init, e := es[..|es| - 1], es[|es| - 1];
      FoldTallies(bs, init, i);
      var at := AttributedTo(Dates(bs), init, i);
      if FirstAtOrAfter(Dates(bs), e.created) == Some(i) {
        assert AttributedTo(Dates(bs), es, i) == at + [e];
        AttributeAdds(bs[i], at, e);
      } else {
        assert AttributedTo(Dates(bs), es, i) == at;
      }
    }
  }

  /**
   * Each output bar keeps its date and prices and carries exactly the tallies of
   * the nonzero events whose first bar at or after them is this bar: a negative
   * score counts as negative, a positive one as positive, every one adds to the
   * sum, and the scaled value is the mean, or 0 without events.
   */
  lemma AlignedBar(bars: seq<Bar>, events: seq<Event>, i: nat)
    requires i < |bars|
    ensures Aligned(bars, events)[i] == Tally(bars[i], AttributedTo(Dates(bars), Nonzero(events), i))
  {
    var r := ResetAll(bars);
    assert Dates(r) == Dates(bars);
    ResetAllAt(bars, i);
    FoldTallies(r, Nonzero(events), i);
  }

  /** Each reset bar is its input bar with the aggregates cleared. */
  lemma ResetAllAt(bars: seq<Bar>, i: nat)
    requires i < |bars|
    ensures ResetAll(bars)[i] == Reset(bars[i])
  {
  }

  /** An event with a zero score changes nothing. */
  lemma ZeroScoreIgnored(bars: seq<Bar>, events: seq<Event>, t: int)
    ensures Aligned(bars, events + [Event(0.0, t)]) == Aligned(bars, events)
  {
    var es := events + [Event(0.0, t)];
    assert es[..|es| - 1] == events;
    assert Nonzero(es) == Nonzero(events);
  }

  /** The output depends on the input bars only through their non-aggregate columns. */
  lemma AlignedIgnoresAggregates(a: seq<Bar>, b: seq<Bar>, events: seq<Event>)
    requires ResetAll(a) == ResetAll(b)
    ensures Aligned(a, events) == Aligned(b, events)
  {
  }

  /** Running the alignment again on its own output with the same content gives the same bars. */
  lemma AlignedIdempotent(bars: seq<Bar>, events: seq<Event>)
    ensures Aligned(Aligned(bars, events), events) == Aligned(bars, events)
  {
    var a := Aligned(bars, events);
    forall i | 0 <= i < |bars| ensures ResetAll(a)[i] == ResetAll(bars)[i] {
      AlignedBar(bars, events, i);
    }
    AlignedIgnoresAggregates(a, bars, events);
  }

  /** The number of counted events over all bars. */
  function TotalCount(bs: seq<Bar>): int
    decreases |bs|
  {
    if bs == [] then 0 else bs[0].positiveCount + bs[0].negativeCount + TotalCount(bs[1..])
  }

  lemma {:induction false} TotalCountUpdate(bs: seq<Bar>, i: nat, b: Bar)
    requires i < |bs|
    ensures TotalCount(bs[i := b]) ==
      TotalCount(bs) - (bs[i].positiveCount + bs[i].negativeCount) + (b.positiveCount + b.negativeCount)
    decreases |bs|
  {
    if i > 0 {
      assert bs[i := b][1..] == bs[1..][i - 1 := b];
      TotalCountUpdate(bs[1..], i - 1, b);
    } else {
      assert bs[i := b][1..] == bs[1..];
    }
  }

  lemma {:induction false} TotalCountReset(bars: seq<Bar>)
    ensures TotalCount(ResetAll(bars)) == 0
    decreases |bars|
  {
    if bars != [] {
      assert ResetAll(bars)[1..] == ResetAll(bars[1..]);
      TotalCountReset(bars[1..]);
    }
  }

  lemma {:induction false} TotalCountScaled(bs: seq<Bar>, scaled: seq<Bar>)
    requires |scaled| == |bs| && forall i :: 0 <= i < |bs| ==> scaled[i] == Scale(bs[i])
    ensures TotalCount(scaled) == TotalCount(bs)
    decreases |bs|
  {
    if bs != [] {
      TotalCountScaled(bs[1..], scaled[1..]);
    }
  }

  lemma {:induction false} TotalCountFold(bs: seq<Bar>, es: seq<Event>)
    requires forall e :: e in es ==> e.score != 0.0
    ensures TotalCount(Fold(bs, es)) == TotalCount(bs) + |Matched(Dates(bs), es)|
    decreases |es|
  {
    if es != [] {
      var init, e := es[..|es| - 1], es[|es| - 1];
      assert forall x :: x in init ==> x in es;
      TotalCountFold(bs, init);
      match FirstAtOrAfter(Dates(bs), e.created)
      case None =>
      case Some(i) =>
        TotalCountUpdate(Fold(bs, init), i, Attribute(Fold(bs, init)[i], e.score));
    }
  }

  /** Conservation: the counts over all bars add up to the number of nonzero events that have a bar at or after them. */
  lemma CountsConserved(bars: seq<Bar>, events: seq<Event>)
    ensures TotalCount(Aligned(bars, events)) == |Matched(Dates(bars), Nonzero(events))|
  {
    var r := ResetAll(bars);
    assert Dates(r) == Dates(bars);
    TotalCountReset(bars);
    TotalCountFold(r, Nonzero(events));
    TotalCountScaled(Fold(r, Nonzero(events)), Aligned(bars, events));
  }

  /** The event loop of update_symbol_data: counts each event on the first bar at or after it, in place. */
  method AttributeAll(df: array<Bar>, nonzero: seq<Event>)
    modifies df
    ensures df[..] == Fold(old(df[..]), nonzero)
  {
    ghost var start := df[..];
    var dates := Dates(df[..]);
    for k := 0 to |nonzero|
      invariant df[..] == Fold(start, nonzero[..k])
    {
      assert nonzero[..k + 1][..k] == nonzero[..k];
      var closest := FirstAtOrAfter(dates, nonzero[k].created);
      if closest.Some? {
        var i := closest.value;
        df[i] := Attribute(df[i], nonzero[k].score);
      }
    }
    assert nonzero[..|nonzero|] == nonzero;
  }

  /** The scaling loop of update_symbol_data: each bar with counted events gets its mean score, in place. */
  method ScaleAll(df: array<Bar>)
    modifies df
    ensures forall k :: 0 <= k < df.Length ==> df[k] == Scale(old(df[k]))
  {
    for i := 0 to df.Length
      invariant forall k :: 0 <= k < df.Length ==> df[k] == if k < i then Scale(old(df[k])) else old(df[k])
    {
      var numScores := df[i].negativeCount + df[i].positiveCount;
      if numScores > 0 {
        df[i] := df[i].(scaledSentiment := df[i].sentimentSum / numScores as real);
      }
    }
  }

  /**
   * update_symbol_data on the price frame: resets the aggregate columns, counts
   * every nonzero event on the first bar at or after it, then computes each
   * bar's mean score.
   */
  method Align(bars: seq<Bar>, events: seq<Event>) returns (aligned: seq<Bar>)
    ensures aligned == Aligned(bars, events)
  {
    var df := new Bar[|bars|](i requires 0 <= i < |bars| => Reset(bars[i]));
    assert df[..] == ResetAll(bars);
    AttributeAll(df, Nonzero(events));
    ScaleAll(df);
    aligned := df[..];
  }

  /** The scored events of the sentiment data; the alignment needs every item scored. */
  function Events(data: seq<(Option<real>, int)>): (r: seq<Event>)
    requires forall k :: 0 <= k < |data| ==> data[k].0.Some?
    ensures |r| == |data| && forall k :: 0 <= k < |data| ==> r[k] == Event(data[k].0.value, data[k].1)
  {
    seq(|data|, k requires 0 <= k < |data| => Event(data[k].0.value, data[k].1))
  }

  /** update_symbol_data: aligns the ticker's content with its stored price bars and stores the result. */
  method UpdateSymbolData(db: Store, symbol: string)
    requires db.Valid() && symbol in db.tickers
    requires db.tickers[symbol].priceData.Some? && AsBars(db.tickers[symbol].priceData.value).Some?
    requires Increasing(AsBars(db.tickers[symbol].priceData.value).value)
    requires var data := GetSentimentData(db.tickers[symbol].contentIds, db.posts, db.comments);
      forall k :: 0 <= k < |data| ==> data[k].0.Some?
    modifies db
    ensures db.Valid()
    ensures db.posts == old(db.posts) && db.comments == old(db.comments)
    ensures var t := old(db.tickers[symbol]);
      var data := GetSentimentData(t.contentIds, old(db.posts), old(db.comments));
      db.tickers == old(db.tickers)[symbol := t.(priceData := Some(BarsJson(Aligned(AsBars(t.priceData.value).value, Events(data)))))]
  {
    var ticker := db.tickers[symbol];
    var bars := AsBars(ticker.priceData.value).value;
    var data := GetSentimentData(ticker.contentIds, db.posts, db.comments);
    var aligned := Align(bars, Events(data));
    db.tickers := db.tickers[symbol := ticker.(priceData := Some(BarsJson(aligned)))];
  }
}
