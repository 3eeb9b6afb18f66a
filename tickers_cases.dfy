/**
 * Concrete behaviour of the ticker label rule: the cases of the repository's
 * ticker tests (known tickers F, FF and FFF), and the adjacent-ticker input on
 * which the scan as written and the lookahead scan differ.
 */
module TickerCases {
  import opened Wrappers
  import opened Tickers

  const TestTickers: set<string> := {"F", "FF", "FFF"}

  /** No match starts at or after p when no capital letter follows p. */
  lemma {:induction false} NoCapitalNoMatch(s: string, scan: Scan, p: nat)
    requires p <= |s|
    requires forall k :: p <= k < |s| ==> !IsUpper(s[k])
    ensures FindAll(s, p, scan) == []
    decreases |s| - p
  {
    if p < |s| {
      assert MatchAt(s, p).None?;
      NoCapitalNoMatch(s, scan, p + 1);
    }
  }

  /** No match starts after position 0 in a string without whitespace. */
  lemma {:induction false} NoSpaceNoLaterMatch(s: string, scan: Scan, p: nat)
    requires 0 < p <= |s|
    requires forall k :: 0 <= k < |s| ==> !IsSpace(s[k])
    ensures FindAll(s, p, scan) == []
    decreases |s| - p
  {
    if p < |s| {
      NoSpaceNoLaterMatch(s, scan, p + 1);
    }
  }

  /** A single token that is a known ticker is the whole label set. */
  lemma OneKnownToken(scan: Scan, tickers: set<string>, s: string, t: string)
    requires Tokens(s, scan) == [t] && t in tickers
    ensures LabelsWith(scan, tickers, s) == {t}
  {
    assert TokenSet(s, scan) == {t};
    assert TokenSet(s, scan) * tickers == {t};
  }

  /** A string without tokens is labeled UNKNOWN. */
  lemma NoTokens(scan: Scan, tickers: set<string>, s: string)
    requires Tokens(s, scan) == []
    ensures LabelsWith(scan, tickers, s) == {UnknownTicker}
  {
    assert TokenSet(s, scan) == {};
  }

  /** A string whose only match starts at 0 and ends where no capital follows. */
  lemma FirstMatchOnly(s: string, m: Match)
    requires MatchAt(s, 0) == Some(m)
    requires forall k :: m.runEnd <= k < |s| ==> !IsUpper(s[k])
    ensures Tokens(s, AsWritten) == [s[m.runStart..m.runEnd]]
  {
    NoCapitalNoMatch(s, AsWritten, m.end);
    assert FindAll(s, 0, AsWritten) == [m];
  }

  /** A string whose only match starts at 1 and ends where no capital follows. */
  lemma SecondMatchOnly(s: string, m: Match)
    requires 0 < |s| && MatchAt(s, 0).None? && MatchAt(s, 1) == Some(m)
    requires forall k :: m.runEnd <= k < |s| ==> !IsUpper(s[k])
    ensures Tokens(s, AsWritten) == [s[m.runStart..m.runEnd]]
  {
    NoCapitalNoMatch(s, AsWritten, m.end);
    assert FindAll(s, 1, AsWritten) == [m];
    assert FindAll(s, 0, AsWritten) == [m];
  }

  /** A string without whitespace that does not match at 0 has no tokens. */
  lemma NoMatchWithoutSpace(s: string)
    requires forall k :: 0 <= k < |s| ==> !IsSpace(s[k])
    requires 0 < |s| && MatchAt(s, 0).None?
    ensures Labels(TestTickers, s) == {UnknownTicker}
  {
    NoSpaceNoLaterMatch(s, AsWritten, 1);
    assert FindAll(s, 0, AsWritten) == [];
    NoTokens(AsWritten, TestTickers, s);
  }

  /** The labels of a string whose only match starts at 0 and holds a known ticker. */
  lemma LabelsOfFirstMatch(s: string, m: Match, t: string)
    requires MatchAt(s, 0) == Some(m)
    requires forall k :: m.runEnd <= k < |s| ==> !IsUpper(s[k])
    requires s[m.runStart..m.runEnd] == t && t in TestTickers
    ensures Labels(TestTickers, s) == {t}
  {
    FirstMatchOnly(s, m);
    OneKnownToken(AsWritten, TestTickers, s, t);
  }

  /** The labels of a string whose only match starts at 1 and holds a known ticker. */
  lemma LabelsOfSecondMatch(s: string, m: Match, t: string)
    requires 0 < |s| && MatchAt(s, 0).None? && MatchAt(s, 1) == Some(m)
    requires forall k :: m.runEnd <= k < |s| ==> !IsUpper(s[k])
    requires s[m.runStart..m.runEnd] == t && t in TestTickers
    ensures Labels(TestTickers, s) == {t}
  {
    SecondMatchOnly(s, m);
    OneKnownToken(AsWritten, TestTickers, s, t);
  }

  /** A ticker at the start followed by a space and words is found. */
  lemma FindsTickerBeforeWords()
    ensures Labels(TestTickers, "F is great") == {"F"}
  {
    LabelsOfFirstMatch("F is great", Match(0, 0, 1, 2), "F");
  }

  /** A ticker after a leading space is found. */
  lemma FindsTickerAfterSpace()
    ensures Labels(TestTickers, " F") == {"F"}
  {
    LabelsOfFirstMatch(" F", Match(0, 1, 2, 2), "F");
  }

  /** A `$`-prefixed ticker after a leading space is found without its `$`. */
  lemma FindsDollarTickerAfterSpace()
    ensures Labels(TestTickers, " $F") == {"F"}
  {
    LabelsOfFirstMatch(" $F", Match(0, 2, 3, 3), "F");
  }

  /** A string that is a ticker is labeled with it. */
  lemma FindsLoneTicker()
    ensures Labels(TestTickers, "F") == {"F"}
  {
    LabelsOfFirstMatch("F", Match(0, 0, 1, 1), "F");
  }

  /** A ticker after a lower-case word is found. */
  lemma FindsTickerAfterWord()
    ensures Labels(TestTickers, "a F") == {"F"}
  {
    LabelsOfSecondMatch("a F", Match(1, 2, 3, 3), "F");
  }

  /** A ticker before a lower-case word is found. */
  lemma FindsTickerBeforeWord()
    ensures Labels(TestTickers, "F a") == {"F"}
  {
    LabelsOfFirstMatch("F a", Match(0, 0, 1, 2), "F");
  }

  /** A ticker between lower-case words is found. */
  lemma FindsTickerBetweenWords()
    ensures Labels(TestTickers, "a F a") == {"F"}
  {
    LabelsOfSecondMatch("a F a", Match(1, 2, 3, 4), "F");
  }

  /** A ticker followed by a trailing space is found. */
  lemma FindsTickerBeforeSpace()
    ensures Labels(TestTickers, "F ") == {"F"}
  {
    LabelsOfFirstMatch("F ", Match(0, 0, 1, 2), "F");
  }

  /** A ticker between spaces is found. */
  lemma FindsTickerBetweenSpaces()
    ensures Labels(TestTickers, " F ") == {"F"}
  {
    LabelsOfFirstMatch(" F ", Match(0, 1, 2, 3), "F");
  }

  /** A ticker after a newline is found. */
  lemma FindsTickerAfterNewline()
    ensures Labels(TestTickers, "\nF") == {"F"}
  {
    LabelsOfFirstMatch("\nF", Match(0, 1, 2, 2), "F");
  }

  /** A ticker followed by a newline is found. */
  lemma FindsTickerBeforeNewline()
    ensures Labels(TestTickers, "F\n") == {"F"}
  {
    LabelsOfFirstMatch("F\n", Match(0, 0, 1, 2), "F");
  }

  /** A ticker between newlines is found. */
  lemma FindsTickerBetweenNewlines()
    ensures Labels(TestTickers, "\nF\n") == {"F"}
  {
    LabelsOfFirstMatch("\nF\n", Match(0, 1, 2, 3), "F");
  }

  /** A longer ticker alone is labeled with itself, not with its prefix. */
  lemma FindsLoneLongerTicker()
    ensures Labels(TestTickers, "FF") == {"FF"}
  {
    LabelsOfFirstMatch("FF", Match(0, 0, 2, 2), "FF");
  }

  /** A three-letter ticker after a lower-case word is found. */
  lemma FindsLongTickerAfterWord()
    ensures Labels(TestTickers, "a FFF") == {"FFF"}
  {
    LabelsOfSecondMatch("a FFF", Match(1, 2, 5, 5), "FFF");
  }

  /** A three-letter ticker between lower-case words is found. */
  lemma FindsLongTickerBetweenWords()
    ensures Labels(TestTickers, "a FFF a") == {"FFF"}
  {
    LabelsOfSecondMatch("a FFF a", Match(1, 2, 5, 6), "FFF");
  }

  /** A three-letter ticker between spaces is found. */
  lemma FindsLongTickerBetweenSpaces()
    ensures Labels(TestTickers, " FFF ") == {"FFF"}
  {
    LabelsOfFirstMatch(" FFF ", Match(0, 1, 4, 5), "FFF");
  }

  /** A three-letter ticker followed by a trailing space is found. */
  lemma FindsLongTickerBeforeSpace()
    ensures Labels(TestTickers, "FFF ") == {"FFF"}
  {
    LabelsOfFirstMatch("FFF ", Match(0, 0, 3, 4), "FFF");
  }

  /** A `$`-prefixed ticker at the start is found without its `$`. */
  lemma FindsDollarTickerAtStart()
    ensures Labels(TestTickers, "$FFF ") == {"FFF"}
  {
    LabelsOfFirstMatch("$FFF ", Match(0, 1, 4, 5), "FFF");
  }

  /** A three-letter ticker followed by a newline is found. */
  lemma FindsLongTickerBeforeNewline()
    ensures Labels(TestTickers, "FFF\n") == {"FFF"}
  {
    LabelsOfFirstMatch("FFF\n", Match(0, 0, 3, 4), "FFF");
  }

  /** A string that is the longest ticker is labeled with it, not with a prefix. */
  lemma FindsLongestLoneTicker()
    ensures Labels(TestTickers, "FFF") == {"FFF"}
  {
    LabelsOfFirstMatch("FFF", Match(0, 0, 3, 3), "FFF");
  }

  // Capitals glued to other letters or to a `$` in the middle are not tickers.

  lemma RejectsCapitalAfterLower()
    ensures Labels(TestTickers, "aF") == {UnknownTicker}
  {
    NoMatchWithoutSpace("aF");
  }

  lemma RejectsCapitalBeforeLower()
    ensures Labels(TestTickers, "Fa") == {UnknownTicker}
  {
    NoMatchWithoutSpace("Fa");
  }

  lemma RejectsRunBeforeLower()
    ensures Labels(TestTickers, "FFa") == {UnknownTicker}
  {
    NoMatchWithoutSpace("FFa");
  }

  lemma RejectsRunAfterLower()
    ensures Labels(TestTickers, "aFF") == {UnknownTicker}
  {
    NoMatchWithoutSpace("aFF");
  }

  lemma RejectsCapitalsAroundLower()
    ensures Labels(TestTickers, "FaF") == {UnknownTicker}
  {
    NoMatchWithoutSpace("FaF");
  }

  lemma RejectsAlternating()
    ensures Labels(TestTickers, "aFaF") == {UnknownTicker}
  {
    NoMatchWithoutSpace("aFaF");
  }

  lemma RejectsAlternatingRuns()
    ensures Labels(TestTickers, "aFFaFF") == {UnknownTicker}
  {
    NoMatchWithoutSpace("aFFaFF");
  }

  lemma RejectsDollarCapitalBeforeLower()
    ensures Labels(TestTickers, "$Fa") == {UnknownTicker}
  {
    assert RunEnd("$Fa", 1) == 2;
    NoMatchWithoutSpace("$Fa");
  }

  lemma RejectsDollarAfterCapital()
    ensures Labels(TestTickers, "F$a") == {UnknownTicker}
  {
    NoMatchWithoutSpace("F$a");
  }

  lemma RejectsDollarBeforeLower()
    ensures Labels(TestTickers, "$aF") == {UnknownTicker}
  {
    NoMatchWithoutSpace("$aF");
  }

  lemma RejectsMixedDollars()
    ensures Labels(TestTickers, "F$FaFFa$$Fa") == {UnknownTicker}
  {
    NoMatchWithoutSpace("F$FaFFa$$Fa");
  }

  /** As written, the match of the first ticker consumes the space that the second needs. */
  lemma AsWrittenTokensOfAdjacent()
    ensures Tokens("F FF", AsWritten) == ["F"]
  {
    var s := "F FF";
    NoCapitalNoMatch(s, AsWritten, 4);
    assert MatchAt(s, 0) == Some(Match(0, 0, 1, 2));
    assert MatchAt(s, 2) == None;
    assert MatchAt(s, 3) == None;
    assert FindAll(s, 0, AsWritten) == [Match(0, 0, 1, 2)];
    assert s[0..1] == "F";
  }

  /** The two matches of "F FF": the first ticker with its trailing space, and the second from that space. */
  lemma AdjacentMatches()
    ensures MatchAt("F FF", 0) == Some(Match(0, 0, 1, 2))
    ensures MatchAt("F FF", 1) == Some(Match(1, 2, 4, 4))
  {
    assert RunEnd("F FF", 0) == 1;
    assert RunEnd("F FF", 2) == 4;
  }

  /** With the lookahead, both tickers are tokens. */
  lemma LookaheadTokensOfAdjacent()
    ensures Tokens("F FF", Lookahead) == ["F", "FF"]
  {
    var s := "F FF";
    AdjacentMatches();
    NoCapitalNoMatch(s, Lookahead, 4);
    var rest := FindAll(s, 1, Lookahead);
    assert rest == [Match(1, 2, 4, 4)];
    assert FindAll(s, 0, Lookahead) == [Match(0, 0, 1, 2)] + rest;
    assert s[0..1] == "F" && s[2..4] == "FF";
  }

  /** Two distinct strings make a set of two. */
  lemma PairSize(t: string, u: string)
    requires t != u
    ensures |{t, u}| == 2
  {
    assert {t, u} == {t} + {u};
  }

  /** Two tickers that are both tokens are both labels. */
  lemma TwoKnownTokens(scan: Scan, tickers: set<string>, s: string, t: string, u: string)
    requires Tokens(s, scan) == [t, u] && t in tickers && u in tickers && t != u
    ensures LabelsWith(scan, tickers, s) == {t, u}
  {
    assert TokenSet(s, scan) * tickers == {t, u} by {
      assert TokenSet(s, scan) == {t, u};
    }
    PairSize(t, u);
    KnownLabels(scan, tickers, s, {t, u});
  }

  /** Between one and five known tokens are exactly the labels. */
  lemma KnownLabels(scan: Scan, tickers: set<string>, s: string, found: set<string>)
    requires TokenSet(s, scan) * tickers == found && 0 < |found| <= TooManyLabels
    ensures LabelsWith(scan, tickers, s) == found
  {
  }

  /**
   * Two tickers separated by a single space: the scan as written consumes the
   * space after the first and never sees the second; the lookahead scan finds both.
   */
  lemma SecondAdjacentTickerMissed()
    ensures Labels(TestTickers, "F FF") == {"F"}
    ensures IntendedLabels(TestTickers, "F FF") == {"F", "FF"}
  {
    AsWrittenTokensOfAdjacent();
    OneKnownToken(AsWritten, TestTickers, "F FF", "F");
    LookaheadTokensOfAdjacent();
    TwoKnownTokens(Lookahead, TestTickers, "F FF", "F", "FF");
  }
}
