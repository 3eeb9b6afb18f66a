/**
 * A worked alignment: bars on days 1, 3 and 5 with stale aggregates, a positive
 * and a negative event before day 3, a zero-score event, and an event after the
 * last bar.
 */
module SentimentCases {
  import opened Wrappers
  import opened Models
  import opened Sentiment

  /** A bar with arbitrary prices and stale aggregate columns. */
  function DayBar(date: int): Bar {
    Bar(date, 1.0, 1.0, 1.0, 1.0, 100, 7, 7, 7.0, 7.0)
  }
  const ExampleBars := [DayBar(1), DayBar(3), DayBar(5)]
  const ExampleEvents := [Event(0.6, 2), Event(-0.2, 3), Event(0.0, 2), Event(0.9, 7)]
  const ExampleNonzero := [Event(0.6, 2), Event(-0.2, 3), Event(0.9, 7)]

  /** The zero-score event is filtered out. */
  lemma ExampleDropsZero()
    ensures Nonzero(ExampleEvents) == ExampleNonzero
  {
    var events, nz := ExampleEvents, ExampleNonzero;
    assert Nonzero(events[..1]) == nz[..1];
    assert Nonzero(events[..2]) == nz[..2];
    assert Nonzero(events[..3]) == nz[..2];
    assert events[..4][..3] == events[..3];
  }

  /** Days 2 and 3 go to the day-3 bar; day 7 has no bar at or after it. */
  lemma ExampleFirstBars()
    ensures FirstAtOrAfter(Dates(ExampleBars), 2) == Some(1)
    ensures FirstAtOrAfter(Dates(ExampleBars), 3) == Some(1)
    ensures FirstAtOrAfter(Dates(ExampleBars), 7) == None
  {
    assert Dates(ExampleBars) == [1, 3, 5];
  }

  /** Only the day-3 bar receives events. */
  lemma ExampleAttribution(i: nat)
    ensures AttributedTo(Dates(ExampleBars), ExampleNonzero, i) == if i == 1 then ExampleNonzero[..2] else []
  {
    ExampleFirstBars();
    var nz := ExampleNonzero;
    var dates := Dates(ExampleBars);
    assert nz[..3][..2] == nz[..2] && nz[..2][..1] == nz[..1] && nz[..1][..0] == [];
    assert AttributedTo(dates, nz[..1], i) == if i == 1 then nz[..1] else [];
    assert AttributedTo(dates, nz[..2], i) == if i == 1 then nz[..2] else [];
    assert nz[..3] == nz;
  }

  /** One positive and one negative event summing to 0.4. */
  lemma ExampleTallies()
    ensures PosCount(ExampleNonzero[..2]) == 1 && NegCount(ExampleNonzero[..2]) == 1
    ensures ScoreSum(ExampleNonzero[..2]) == 0.4
  {
    var two := ExampleNonzero[..2];
    assert two[..1] == [Event(0.6, 2)] && two[..1][..0] == [];
    assert PosCount(two[..1]) == 1 && NegCount(two[..1]) == 0 && ScoreSum(two[..1]) == 0.6;
    assert two[1] == Event(-0.2, 3);
  }

  /** The bar after the first two events' times carries one positive and one negative event, sum 0.4 and mean 0.2. */
  lemma AlignmentExampleMatched()
    ensures Aligned(ExampleBars, ExampleEvents)[1] ==
      DayBar(3).(positiveCount := 1, negativeCount := 1, sentimentSum := 0.4, scaledSentiment := 0.2)
  {
    ExampleDropsZero();
    ExampleAttribution(1);
    AlignedBar(ExampleBars, ExampleEvents, 1);
    ExampleTallyOfMatched();
  }

  /** The tally of the two events attributed to the day-3 bar. */
  lemma ExampleTallyOfMatched()
    ensures Tally(DayBar(3), ExampleNonzero[..2]) ==
      DayBar(3).(positiveCount := 1, negativeCount := 1, sentimentSum := 0.4, scaledSentiment := 0.2)
  {
    ExampleTallies();
  }

  /** The other bars are reset: the event after the last bar is dropped. */
  lemma AlignmentExampleUnmatched()
    ensures Aligned(ExampleBars, ExampleEvents)[0] == Reset(DayBar(1))
    ensures Aligned(ExampleBars, ExampleEvents)[2] == Reset(DayBar(5))
  {
    ExampleDropsZero();
    ExampleAttribution(0);
    ExampleAttribution(2);
    AlignedBar(ExampleBars, ExampleEvents, 0);
    AlignedBar(ExampleBars, ExampleEvents, 2);
  }
}
