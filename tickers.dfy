/**
 * Ticker labeling: the mention scanner, the per-item label rule, the batch
 * selection of unlabeled and unprocessed items, the inversion of item labels
 * into per-ticker id lists, and the store writes of both stages.
 *
 * The scanner reproduces a left-to-right `findall` of the pattern
 *   (start-of-string | one whitespace) optional `$` upper-case run (one whitespace | end-of-string)
 * where a match consumes its separators and the scan resumes after the match.
 */
module Tickers {
  import opened Wrappers
  import opened Models

  const TooManyLabels := 5
  const PostPrefix := "t3_"
  const CommentPrefix := "t1_"
  const MaxBatch := 20000
  /** The label of an item in which no usable ticker was found. */
  const UnknownTicker := "UNKNOWN"

  /** Whitespace in the sense of the pattern's `\s` on text (Unicode white space). */
  predicate IsSpace(c: char) {
    var n := c as int;
    n == 0x20 || 0x09 <= n <= 0x0D || 0x1C <= n <= 0x1F || n == 0x85 || n == 0xA0
    || n == 0x1680 || 0x2000 <= n <= 0x200A || n == 0x2028 || n == 0x2029
    || n == 0x202F || n == 0x205F || n == 0x3000
  }

  /** An ASCII capital letter. */
  predicate IsUpper(c: char) {
    0x41 <= c as int <= 0x5A
  }

  // ---------------------------------------------------------------------------
  // The scanner
  // ---------------------------------------------------------------------------

  /** A match covering s[start..end]; its upper-case run is s[runStart..runEnd]. */
  datatype Match = Match(start: nat, runStart: nat, runEnd: nat, end: nat)

  /** The end of the longest run of capitals that starts at `i`. */
  function RunEnd(s: string, i: nat): (k: nat)
    requires i <= |s|
    ensures i <= k <= |s|
    ensures forall j :: i <= j < k ==> IsUpper(s[j])
    ensures k == |s| || !IsUpper(s[k])
    decreases |s| - i
  {
    if i < |s| && IsUpper(s[i]) then RunEnd(s, i + 1) else i
  }

  /** What precedes the run inside a match: nothing or `$` at the start of the string, or one whitespace optionally followed by `$`. */
  predicate Leading(s: string, m: Match)
    requires m.start <= m.runStart <= |s|
  {
    var lead := s[m.start..m.runStart];
    || (lead == [] && m.start == 0)
    || (lead == ['$'] && m.start == 0)
    || (|lead| == 1 && IsSpace(lead[0]))
    || (|lead| == 2 && IsSpace(lead[0]) && lead[1] == '$')
  }

  /** The shape of every match: a leading part, a run of capitals that cannot be extended, and one whitespace or the end of the string. */
  predicate MatchShape(s: string, m: Match) {
    && m.start <= m.runStart < m.runEnd <= m.end <= |s|
    && (forall k :: m.runStart <= k < m.runEnd ==> IsUpper(s[k]))
    && (m.end == m.runEnd ==> m.runEnd == |s|)
    && (m.end != m.runEnd ==> m.end == m.runEnd + 1 && IsSpace(s[m.runEnd]))
    && Leading(s, m)
  }

  /** The match attempted at position `p`, with the pattern's alternatives tried in order. */
  function MatchAt(s: string, p: nat): (r: Option<Match>)
    requires p <= |s|
    ensures r.Some? ==> r.value.start == p && MatchShape(s, r.value) && p < r.value.end
    ensures r.Some? && 0 < p ==> IsSpace(s[p])
  {
    // `^` only at position 0; otherwise one whitespace character, consumed
    var q: int :=
      if p == 0 && (|s| == 0 || !IsSpace(s[0])) then 0
      else if p < |s| && IsSpace(s[p]) then p + 1
      else -1;
    if q < 0 then None
    else
      var r := if q < |s| && s[q] == '$' then q + 1 else q;
      var k := RunEnd(s, r);
      if k == r then None
      else if k == |s| then Some(Match(p, r, k, k))
      else if IsSpace(s[k]) then Some(Match(p, r, k, k + 1))
      else None
  }

  /**
   * Where the scan resumes after a match. As written, the trailing whitespace
   * belongs to the match, so it cannot also lead the next one; with a lookahead
   * for the trailing whitespace, the scan resumes right after the run.
   */
  datatype Scan = AsWritten | Lookahead

  function Resume(m: Match, scan: Scan): nat {
    if scan == AsWritten then m.end else m.runEnd
  }

  /** All matches from position `p` on; after a match the scan resumes as `scan` says. */
  function FindAll(s: string, p: nat, scan: Scan): (ms: seq<Match>)
    requires p <= |s|
    ensures forall i :: 0 <= i < |ms| ==> MatchShape(s, ms[i]) && p <= ms[i].start && MatchAt(s, ms[i].start) == Some(ms[i])
    decreases |s| - p
  {
    if p == |s| then []
    else
      match MatchAt(s, p)
      case None => FindAll(s, p + 1, scan)
      case Some(m) => [m] + FindAll(s, Resume(m, scan), scan)
  }

  lemma NoMatchAtEnd(s: string)
    ensures MatchAt(s, |s|).None?
  {
  }

  // Trimming a matched string: surrounding whitespace is stripped, then every `$` removed.

  function StripLeading(t: string): string {
    if t != [] && IsSpace(t[0]) then StripLeading(t[1..]) else t
  }

  function StripTrailing(t: string): string {
    if t != [] && IsSpace(t[|t| - 1]) then StripTrailing(t[..|t| - 1]) else t
  }

  function RemoveDollars(t: string): string {
    if t == [] then [] else (if t[0] == '$' then [] else [t[0]]) + RemoveDollars(t[1..])
  }

  function Trim(t: string): string {
    RemoveDollars(StripTrailing(StripLeading(t)))
  }

  lemma {:induction false} RemoveDollarsAppend(a: string, b: string)
    ensures RemoveDollars(a + b) == RemoveDollars(a) + RemoveDollars(b)
  {
    if a != [] {
      var x := if a[0] == '$' then [] else [a[0]];
      assert (a + b)[0] == a[0];
      assert (a + b)[1..] == a[1..] + b;
      assert RemoveDollars(a + b) == x + RemoveDollars(a[1..] + b);
      RemoveDollarsAppend(a[1..], b);
      assert RemoveDollars(a) == x + RemoveDollars(a[1..]);
    } else {
      assert a + b == b;
    }
  }

  lemma {:induction false} RemoveDollarsOfCapitals(t: string)
    requires forall k :: 0 <= k < |t| ==> IsUpper(t[k])
    ensures RemoveDollars(t) == t
  {
    if t != [] {
      RemoveDollarsOfCapitals(t[1..]);
    }
  }

  lemma StripLeadingOne(x: char, t: string)
    requires IsSpace(x) && t != [] && !IsSpace(t[0])
    ensures StripLeading([x] + t) == t
  {
    assert ([x] + t)[1..] == t;
  }

  lemma StripTrailingOne(t: string, y: char)
    requires IsSpace(y) && t != [] && !IsSpace(t[|t| - 1])
    ensures StripTrailing(t + [y]) == t
  {
    assert (t + [y])[..|t|] == t;
  }

  /** Trimming an optional `$` followed by a run of capitals leaves the run. */
  lemma TrimCore(core: string, run: string)
    requires core == run || core == ['$'] + run
    requires run != [] && forall k :: 0 <= k < |run| ==> IsUpper(run[k])
    ensures StripLeading(core) == core && StripTrailing(core) == core && RemoveDollars(core) == run
  {
    assert !IsSpace(core[0]) && !IsSpace(core[|core| - 1]);
    if core != run {
      RemoveDollarsAppend(['$'], run);
    }
    RemoveDollarsOfCapitals(run);
  }

  /** Trimming an optional separator, an optional `$`, a run of capitals and an optional separator leaves the run. */
  lemma TrimPieces(sp: string, core: string, trail: string, run: string)
    requires |sp| <= 1 && (forall k :: 0 <= k < |sp| ==> IsSpace(sp[k]))
    requires core == run || core == ['$'] + run
    requires run != [] && forall k :: 0 <= k < |run| ==> IsUpper(run[k])
    requires |trail| <= 1 && forall k :: 0 <= k < |trail| ==> IsSpace(trail[k])
    ensures Trim(sp + core + trail) == run
  {
    TrimCore(core, run);
    var x := core + trail;
    assert x[0] == core[0];
    if sp != [] {
      assert sp + core + trail == [sp[0]] + x;
      StripLeadingOne(sp[0], x);
    } else {
      assert sp + core + trail == x;
    }
    if trail != [] {
      assert x == core + [trail[0]];
      StripTrailingOne(core, trail[0]);
    } else {
      assert x == core;
    }
  }

  /** A slice is the concatenation of the four slices between the given cut points. */
  lemma SliceCuts(s: string, a: nat, b: nat, c: nat, d: nat, e: nat)
    requires a <= b <= c <= d <= e <= |s|
    ensures s[a..e] == s[a..b] + (s[b..c] + s[c..d]) + s[d..e]
  {
  }

  /** The leading part of a match: at most one whitespace, then nothing or a `$`. */
  lemma LeadPieces(s: string, m: Match) returns (i0: nat)
    requires MatchShape(s, m)
    ensures m.start <= i0 <= m.runStart && i0 - m.start <= 1
    ensures forall k :: m.start <= k < i0 ==> IsSpace(s[k])
    ensures s[i0..m.runStart] == [] || s[i0..m.runStart] == ['$']
  {
    i0 := if m.start < m.runStart && IsSpace(s[m.start]) then m.start + 1 else m.start;
    var lead := s[m.start..m.runStart];
    assert s[i0..m.runStart] == lead[i0 - m.start..];
  }

  /** Trimming a matched string leaves exactly its run of capitals. */
  lemma TrimMatch(s: string, m: Match)
    requires MatchShape(s, m)
    ensures Trim(s[m.start..m.end]) == s[m.runStart..m.runEnd]
  {
    var i0 := LeadPieces(s, m);
    var sp, dollar, run, trail := s[m.start..i0], s[i0..m.runStart], s[m.runStart..m.runEnd], s[m.runEnd..m.end];
    SliceCuts(s, m.start, i0, m.runStart, m.runEnd, m.end);
    assert forall k :: 0 <= k < |sp| ==> sp[k] == s[m.start + k];
    assert forall k :: 0 <= k < |run| ==> run[k] == s[m.runStart + k];
    assert forall k :: 0 <= k < |trail| ==> trail[k] == s[m.runEnd + k];
    TrimPieces(sp, dollar + run, trail, run);
  }

  lemma TrimAll(s: string, ms: seq<Match>)
    requires forall i :: 0 <= i < |ms| ==> MatchShape(s, ms[i])
    ensures forall i :: 0 <= i < |ms| ==> MatchShape(s, ms[i]) && Trim(s[ms[i].start..ms[i].end]) == s[ms[i].runStart..ms[i].runEnd]
  {
    forall i | 0 <= i < |ms| ensures MatchShape(s, ms[i]) && Trim(s[ms[i].start..ms[i].end]) == s[ms[i].runStart..ms[i].runEnd] {
      TrimMatch(s, ms[i]);
    }
  }

  /** The trimmed matches of the scan, in order. */
  function Tokens(s: string, scan: Scan): (ts: seq<string>)
    ensures |ts| == |FindAll(s, 0, scan)|
    ensures forall i :: 0 <= i < |ts| ==> ts[i] == s[FindAll(s, 0, scan)[i].runStart..FindAll(s, 0, scan)[i].runEnd]
  {
    var ms := FindAll(s, 0, scan);
    TrimAll(s, ms);
    seq(|ms|, i requires 0 <= i < |ms| => Trim(s[ms[i].start..ms[i].end]))
  }

  function TokenSet(s: string, scan: Scan): set<string> {
    set t | t in Tokens(s, scan)
  }

  // ---------------------------------------------------------------------------
  // What the scanner finds, stated without the scanner
  // ---------------------------------------------------------------------------

  /** Position i may start a mentioned run: start of string, after whitespace, or after a `$` that itself starts the string or follows whitespace. */
  predicate LeftBoundary(s: string, i: nat)
    requires i <= |s|
  {
    i == 0 || IsSpace(s[i - 1]) || (s[i - 1] == '$' && (i == 1 || IsSpace(s[i - 2])))
  }

  /** s[i..j] is a run of capitals bounded on the left as above and on the right by whitespace or the end. */
  predicate BoundedRun(s: string, i: nat, j: nat) {
    && i < j <= |s|
    && (forall k :: i <= k < j ==> IsUpper(s[k]))
    && (j == |s| || IsSpace(s[j]))
    && LeftBoundary(s, i)
  }

  /** `t` is mentioned in `s`: it is the text of a bounded run. */
  ghost predicate Mentioned(s: string, t: string) {
    exists i: nat, j: nat :: BoundedRun(s, i, j) && j <= |s| && s[i..j] == t
  }

  /** Where the match of a bounded run starts: its separator, its `$`, or the run itself. */
  function MatchStart(s: string, i: nat): nat
    requires i <= |s| && LeftBoundary(s, i)
  {
    if i == 0 then 0 else if IsSpace(s[i - 1]) then i - 1 else if i == 1 then 0 else i - 2
  }

  /** The character before the separator of the run at i, if any, is not a capital letter, so no match ending there can have consumed it. */
  predicate SeparatorFree(s: string, i: nat)
    requires i <= |s| && LeftBoundary(s, i)
  {
    var p := MatchStart(s, i);
    p == 0 || !IsUpper(s[p - 1])
  }

  /** Every token either scan returns is mentioned. */
  lemma TokensSound(s: string, scan: Scan, t: string)
    requires t in Tokens(s, scan)
    ensures Mentioned(s, t)
  {
    var ms := FindAll(s, 0, scan);
    var k :| 0 <= k < |Tokens(s, scan)| && Tokens(s, scan)[k] == t;
    var m := ms[k];
    ShapeBounded(s, m);
    assert BoundedRun(s, m.runStart, m.runEnd) && s[m.runStart..m.runEnd] == t;
  }

  /** The run of every match is a bounded run. */
  lemma ShapeBounded(s: string, m: Match)
    requires MatchShape(s, m)
    ensures BoundedRun(s, m.runStart, m.runEnd)
  {
    var lead := s[m.start..m.runStart];
    assert forall k :: 0 <= k < |lead| ==> lead[k] == s[m.start + k];
  }

  /**
   * Every bounded run is returned by the lookahead scan; the scan as written
   * returns it at least when no capital letter precedes its separator.
   */
  lemma TokensComplete(s: string, scan: Scan, i: nat, j: nat)
    requires BoundedRun(s, i, j) && (scan == Lookahead || SeparatorFree(s, i))
    ensures s[i..j] in Tokens(s, scan)
  {
    var p := MatchStart(s, i);
    var m := Match(p, i, j, if j == |s| then j else j + 1);
    BoundedRunMatches(s, i, j);
    FindAllReaches(s, scan, 0, p);
    var ms := FindAll(s, 0, scan);
    var k :| 0 <= k < |ms| && ms[k] == m;
    assert Tokens(s, scan)[k] == s[i..j];
  }

  /** The pattern matches a bounded run from its separator, `$` or first capital, taking the run and its right separator. */
  lemma BoundedRunMatches(s: string, i: nat, j: nat)
    requires BoundedRun(s, i, j)
    ensures MatchAt(s, MatchStart(s, i)) == Some(Match(MatchStart(s, i), i, j, if j == |s| then j else j + 1))
  {
    assert RunEnd(s, i) == j;
  }

  /** The scan resumes at or before p after a match that starts before p, when a match is possible at p. */
  lemma MatchEndsBefore(s: string, scan: Scan, m: Match, p: nat)
    requires MatchShape(s, m) && m.start < p <= |s|
    requires MatchAt(s, p).Some? && (scan == Lookahead || !IsUpper(s[p - 1]))
    ensures Resume(m, scan) <= p
  {
    assert IsSpace(s[p]);
    assert forall k :: m.start <= k < m.runStart ==> s[k] == s[m.start..m.runStart][k - m.start];
  }

  /** The scan from p0 reaches every possible match at p that no earlier match can swallow. */
  lemma {:induction false} FindAllReaches(s: string, scan: Scan, p0: nat, p: nat)
    requires p0 <= p <= |s|
    requires MatchAt(s, p).Some?
    requires scan == Lookahead || p == 0 || !IsUpper(s[p - 1])
    ensures MatchAt(s, p).value in FindAll(s, p0, scan)
    decreases p - p0
  {
    if p0 < p {
      match MatchAt(s, p0)
      case None =>
        FindAllReaches(s, scan, p0 + 1, p);
      case Some(m) =>
        MatchEndsBefore(s, scan, m, p);
        FindAllReaches(s, scan, Resume(m, scan), p);
    }
  }

  // ---------------------------------------------------------------------------
  // The label rule
  // ---------------------------------------------------------------------------

  /**
   * The label set of one item under a scan: the tokens that are known tickers,
   * or the single UNKNOWN label when none is or more than five are.
   */
  function LabelsWith(scan: Scan, tickers: set<string>, body: string): (r: set<string>)
    ensures r == {UnknownTicker} || (0 < |r| <= TooManyLabels && r <= tickers)
    ensures r != {UnknownTicker} ==> forall t :: t in r ==> Mentioned(body, t)
  {
    var found := TokenSet(body, scan) * tickers;
    assert forall t :: t in found ==> Mentioned(body, t) by {
      forall t | t in found ensures Mentioned(body, t) {
        TokensSound(body, scan, t);
      }
    }
    if |found| > TooManyLabels || |found| == 0 then {UnknownTicker} else found
  }

  /** The labels of an item as find_tickers computes them: with the regular expression's own scan. */
  function Labels(tickers: set<string>, body: string): set<string> {
    LabelsWith(AsWritten, tickers, body)
  }

  /** The labels intended: every whitespace-bounded run is a candidate, found with the lookahead scan. */
  function IntendedLabels(tickers: set<string>, body: string): set<string> {
    LabelsWith(Lookahead, tickers, body)
  }

  /** With the lookahead scan, every mentioned known ticker is a label, unless the item mentions more than five or none is known. */
  lemma LabelsComplete(tickers: set<string>, body: string, i: nat, j: nat)
    requires BoundedRun(body, i, j) && body[i..j] in tickers
    ensures body[i..j] in IntendedLabels(tickers, body) || |TokenSet(body, Lookahead) * tickers| > TooManyLabels
  {
    TokensComplete(body, Lookahead, i, j);
  }

  /** As written, a mentioned known ticker is a label at least when no capital letter precedes its separator. */
  lemma LabelsAsWrittenComplete(tickers: set<string>, body: string, i: nat, j: nat)
    requires BoundedRun(body, i, j) && SeparatorFree(body, i) && body[i..j] in tickers
    ensures body[i..j] in Labels(tickers, body) || |TokenSet(body, AsWritten) * tickers| > TooManyLabels
  {
    TokensComplete(body, AsWritten, i, j);
  }

  /** find_tickers: the label set of every item, keyed by the item's id. */
  method FindTickers(tickers: set<string>, content: map<string, string>)
    returns (output: map<string, set<string>>)
    ensures output.Keys == content.Keys
    ensures forall id :: id in content ==> output[id] == Labels(tickers, content[id])
  {
    output := map[];
    var todo := content.Keys;
    while todo != {}
      invariant todo <= content.Keys
      invariant output.Keys == content.Keys - todo
      invariant forall id :: id in output ==> output[id] == Labels(tickers, content[id])
      decreases todo
    {
      var id :| id in todo;
      var found := TokenSet(content[id], AsWritten) * tickers;
      if |found| > TooManyLabels || |found| == 0 {
        found := {UnknownTicker};
      }
      assert found == Labels(tickers, content[id]);
      output := output[id := found];
      todo := todo - {id};
    }
  }

  // ---------------------------------------------------------------------------
  // Labeling a batch
  // ---------------------------------------------------------------------------

  /** The id-to-text dictionary of a batch; a later row with the same id overrides an earlier one. */
  function ContentMap(batch: seq<Content>): (m: map<string, string>)
    ensures m.Keys == IdSet(batch)
    ensures UniqueIds(batch) ==> forall c :: c in batch ==> m[c.id] == Text(c)
  {
    if batch == [] then map[]
    else
      var init := batch[..|batch| - 1];
      var last := batch[|batch| - 1];
      SplitLast(batch);
      var m := ContentMap(init)[last.id := Text(last)];
      assert UniqueIds(batch) ==> forall c :: c in init ==> m[c.id] == ContentMap(init)[c.id];
      m
  }

  /** A non-empty batch is its prefix and its last row; with unique ids, the last id is not among the prefix's. */
  lemma SplitLast(batch: seq<Content>)
    requires batch != []
    ensures var init, last := batch[..|batch| - 1], batch[|batch| - 1];
      && (forall c :: c in batch <==> c in init || c == last)
      && IdSet(batch) == IdSet(init) + {last.id}
      && (UniqueIds(batch) ==> UniqueIds(init) && forall c :: c in init ==> c.id != last.id)
  {
    var init, last := batch[..|batch| - 1], batch[|batch| - 1];
    assert batch == init + [last];
    if UniqueIds(batch) {
      forall c | c in init ensures c.id != last.id {
        var k :| 0 <= k < |init| && init[k] == c;
        assert batch[k] == c;
      }
    }
  }

  /** label_content: the labels of the next batch of unlabeled items, or nothing when every item is labeled. */
  method LabelContent(rows: seq<Content>, tickers: set<string>)
    returns (labels: map<string, set<string>>)
    requires UniqueIds(rows)
    ensures labels.Keys == IdSet(Batch(rows, IsUnlabeled, MaxBatch))
    ensures forall c :: c in Batch(rows, IsUnlabeled, MaxBatch) ==> labels[c.id] == Labels(tickers, Text(c))
    ensures (forall c :: c in rows ==> c.labels.Some?) ==> labels == map[]
  {
    var batch := Batch(rows, IsUnlabeled, MaxBatch);
    if batch != [] {
      BatchUnique(rows, IsUnlabeled, MaxBatch);
      labels := FindTickers(tickers, ContentMap(batch));
    } else {
      labels := map[];
    }
  }

  /** A list holding each element of the set exactly once, in an unspecified order. */
  ghost predicate ListsSet(l: seq<string>, s: set<string>) {
    |l| == |s| && forall x :: x in l <==> x in s
  }

  /** Converts a label set to a list, as the array column stores it. */
  method ListOf(s: set<string>) returns (l: seq<string>)
    ensures ListsSet(l, s)
  {
    l := [];
    var rest := s;
    while rest != {}
      invariant rest <= s
      invariant forall x :: x in l <==> x in s - rest
      invariant |l| + |rest| == |s|
      decreases |rest|
    {
      var x :| x in rest;
      l := l + [x];
      rest := rest - {x};
    }
  }

  /** `now` is `was` with its labels replaced by a list of the labels `content` holds for its id, if any. */
  ghost predicate LabelWritten(was: Content, now: Content, content: map<string, set<string>>) {
    if was.id in content then
      now.labels.Some? && ListsSet(now.labels.value, content[was.id]) && now == was.(labels := now.labels)
    else
      now == was
  }

  /** The row-by-row update of write_content_labels. */
  method LabelRows(rows: seq<Content>, content: map<string, set<string>>) returns (rows': seq<Content>)
    ensures SameKeys(rows, rows')
    ensures forall i :: 0 <= i < |rows| ==> LabelWritten(rows[i], rows'[i], content)
  {
    rows' := rows;
    for i := 0 to |rows|
      invariant SameKeys(rows, rows')
      invariant forall k :: 0 <= k < |rows| ==>
        if k < i then LabelWritten(rows[k], rows'[k], content) else rows'[k] == rows[k]
    {
      if rows[i].id in content {
        var list := ListOf(content[rows[i].id]);
        rows' := rows'[i := rows[i].(labels := Some(list))];
      }
    }
  }

  /** write_content_labels: every row whose id has labels gets them as a list; other rows are untouched. */
  method WriteContentLabels(db: Store, kind: Kind, content: map<string, set<string>>)
    requires db.Valid()
    modifies db
    ensures db.Valid()
    ensures db.tickers == old(db.tickers) && db.Rows(Other(kind)) == old(db.Rows(Other(kind)))
    ensures SameKeys(old(db.Rows(kind)), db.Rows(kind))
    ensures forall i :: 0 <= i < |db.Rows(kind)| ==> LabelWritten(old(db.Rows(kind))[i], db.Rows(kind)[i], content)
  {
    var rows := LabelRows(db.Rows(kind), content);
    db.SetRows(kind, rows);
  }

  // ---------------------------------------------------------------------------
  // Inverting labels into per-ticker id lists
  // ---------------------------------------------------------------------------

  /** The map after appending `entry` to the list of each ticker of `ts` in turn. */
  function AddAll(m: map<string, seq<string>>, entry: string, ts: seq<string>): map<string, seq<string>>
    decreases |ts|
  {
    if ts == [] then m
    else
      var m' := AddAll(m, entry, ts[..|ts| - 1]);
      var t := ts[|ts| - 1];
      m'[t := (if t in m' then m'[t] else []) + [entry]]
  }

  /** The symbol map after processing the (id, labels) items in order, before UNKNOWN is dropped. */
  function Build(prefix: string, labels: seq<(string, seq<string>)>): map<string, seq<string>>
    decreases |labels|
  {
    if labels == [] then map[]
    else
      var last := labels[|labels| - 1];
      AddAll(Build(prefix, labels[..|labels| - 1]), prefix + last.0, last.1)
  }

  /** invert_labels, as a value: ticker -> prefixed ids of the items labeled with it, without UNKNOWN. */
  function Inverted(prefix: string, labels: seq<(string, seq<string>)>): map<string, seq<string>> {
    Build(prefix, labels) - {UnknownTicker}
  }

  lemma {:induction false} AddAllMembers(m: map<string, seq<string>>, entry: string, ts: seq<string>, t: string, x: string)
    ensures t in AddAll(m, entry, ts) <==> t in m || t in ts
    ensures t in AddAll(m, entry, ts) ==>
      (x in AddAll(m, entry, ts)[t] <==> (t in m && x in m[t]) || (t in ts && x == entry))
    decreases |ts|
  {
    if ts != [] {
      var init := ts[..|ts| - 1];
      AddAllMembers(m, entry, init, t, x);
      assert ts == init + [ts[|ts| - 1]];
    }
  }

  lemma {:induction false} BuildMembers(prefix: string, labels: seq<(string, seq<string>)>, t: string, x: string)
    ensures t in Build(prefix, labels) <==> exists k :: 0 <= k < |labels| && t in labels[k].1
    ensures t in Build(prefix, labels) ==>
      (x in Build(prefix, labels)[t] <==>
       exists k :: 0 <= k < |labels| && t in labels[k].1 && x == prefix + labels[k].0)
    decreases |labels|
  {
    if labels != [] {
      var n := |labels| - 1;
      var init := labels[..n];
      BuildMembers(prefix, init, t, x);
      AddAllMembers(Build(prefix, init), prefix + labels[n].0, labels[n].1, t, x);
      assert forall k :: 0 <= k < n ==> init[k] == labels[k];
    }
  }

  /**
   * The inverted map relates exactly the labeled items to their tickers:
   * UNKNOWN never appears, a ticker's list holds `prefix + id` iff the item
   * `id` carries that ticker.
   */
  lemma InvertedMembers(prefix: string, labels: seq<(string, seq<string>)>, t: string, x: string)
    ensures UnknownTicker !in Inverted(prefix, labels)
    ensures t in Inverted(prefix, labels) <==>
      t != UnknownTicker && exists k :: 0 <= k < |labels| && t in labels[k].1
    ensures t in Inverted(prefix, labels) ==>
      (x in Inverted(prefix, labels)[t] <==>
       exists k :: 0 <= k < |labels| && t in labels[k].1 && x == prefix + labels[k].0)
  {
    BuildMembers(prefix, labels, t, x);
  }

  /** invert_labels: builds the symbol map item by item, ticker by ticker, then drops UNKNOWN. */
  method InvertLabels(prefix: string, labels: seq<(string, seq<string>)>)
    returns (symbolMap: map<string, seq<string>>)
    ensures symbolMap == Inverted(prefix, labels)
  {
    symbolMap := map[];
    for i := 0 to |labels|
      invariant symbolMap == Build(prefix, labels[..i])
    {
      var id, tickers := labels[i].0, labels[i].1;
      for j := 0 to |tickers|
        invariant symbolMap == AddAll(Build(prefix, labels[..i]), prefix + id, tickers[..j])
      {
        ghost var before := symbolMap;
        var ticker := tickers[j];
        if ticker in symbolMap {
          symbolMap := symbolMap[ticker := symbolMap[ticker] + [prefix + id]];
        } else {
          symbolMap := symbolMap[ticker := [prefix + id]];
          assert [] + [prefix + id] == [prefix + id];
        }
        ghost var ts := tickers[..j + 1];
        assert ts[..|ts| - 1] == tickers[..j] && ts[|ts| - 1] == ticker;
        assert symbolMap == before[ticker := (if ticker in before then before[ticker] else []) + [prefix + id]];
      }
      assert tickers[..|tickers|] == tickers;
      assert labels[..i + 1][..i] == labels[..i];
    }
    assert labels[..|labels|] == labels;
    symbolMap := symbolMap - {UnknownTicker};
  }

  function Prefix(kind: Kind): string {
    if kind == PostKind then PostPrefix else CommentPrefix
  }

  /** The (id, labels) items of a batch of labeled rows. */
  function LabelPairs(batch: seq<Content>): (r: seq<(string, seq<string>)>)
    requires forall c :: c in batch ==> c.labels.Some?
    ensures |r| == |batch|
    ensures forall k :: 0 <= k < |batch| ==> r[k] == (batch[k].id, batch[k].labels.value)
  {
    seq(|batch|, k requires 0 <= k < |batch| => (batch[k].id, batch[k].labels.value))
  }

  /**
   * label_tickers: inverts the labels of the next batch of unprocessed items
   * and returns the ids of that batch; both are empty when everything is processed.
   */
  method LabelTickers(kind: Kind, rows: seq<Content>)
    returns (tickerLabels: map<string, seq<string>>, contentIds: seq<string>)
    requires forall c :: c in Batch(rows, IsUnprocessed, MaxBatch) ==> c.labels.Some?
    ensures contentIds == Ids(Batch(rows, IsUnprocessed, MaxBatch)) && |contentIds| <= MaxBatch
    ensures tickerLabels == Inverted(Prefix(kind), LabelPairs(Batch(rows, IsUnprocessed, MaxBatch)))
    ensures (forall c :: c in rows ==> c.processed) ==> tickerLabels == map[] && contentIds == []
  {
    var prefix := if kind == PostKind then PostPrefix else CommentPrefix;
    var batch := Batch(rows, IsUnprocessed, MaxBatch);
    if batch != [] {
      tickerLabels := InvertLabels(prefix, LabelPairs(batch));
      contentIds := Ids(batch);
    } else {
      tickerLabels, contentIds := map[], [];
    }
  }

  /** An array concatenation `content_ids || added`; a NULL array yields `added`. */
  function AppendIds(t: Ticker, added: seq<string>): Ticker {
    t.(contentIds := Some(t.contentIds.GetOr([]) + added))
  }

  /** The ticker table after every listed symbol's ids are appended. Unlisted or unknown symbols are untouched. */
  function AppendLabels(tickers: map<string, Ticker>, updates: map<string, seq<string>>): map<string, Ticker> {
    map s | s in tickers :: if s in updates then AppendIds(tickers[s], updates[s]) else tickers[s]
  }

  /** The content rows after `processed` is set on every row whose id is listed. */
  function MarkProcessed(rows: seq<Content>, ids: seq<string>): (r: seq<Content>)
    ensures SameKeys(rows, r)
  {
    seq(|rows|, i requires 0 <= i < |rows| => if rows[i].id in ids then rows[i].(processed := true) else rows[i])
  }

  /** write_ticker_labels: appends the new ids to each ticker's list and marks the batch processed, in one commit. */
  method WriteTickerLabels(db: Store, kind: Kind, tickerLabels: map<string, seq<string>>, contentIds: seq<string>)
    requires db.Valid()
    modifies db
    ensures db.Valid()
    ensures db.tickers == AppendLabels(old(db.tickers), tickerLabels)
    ensures db.Rows(kind) == MarkProcessed(old(db.Rows(kind)), contentIds)
    ensures db.Rows(Other(kind)) == old(db.Rows(Other(kind)))
  {
    var tickers := db.tickers;
    var todo := tickerLabels.Keys;
    while todo != {}
      invariant todo <= tickerLabels.Keys
      invariant tickers.Keys == db.tickers.Keys
      invariant forall s :: s in tickers ==>
        tickers[s] == if s in tickerLabels && s !in todo then AppendIds(db.tickers[s], tickerLabels[s]) else db.tickers[s]
      decreases todo
    {
      var symbol :| symbol in todo;
      if symbol in tickers {
        tickers := tickers[symbol := AppendIds(tickers[symbol], tickerLabels[symbol])];
      }
      todo := todo - {symbol};
    }
    var rows := db.Rows(kind);
    for i := 0 to |contentIds|
      invariant rows == MarkProcessed(db.Rows(kind), contentIds[..i])
    {
      assert contentIds[..i + 1] == contentIds[..i] + [contentIds[i]];
      rows := MarkProcessed(rows, [contentIds[i]]);
    }
    assert contentIds[..|contentIds|] == contentIds;
    db.SetRows(kind, rows);
    db.tickers := tickers;
  }

  /** Once a batch is written back, none of its items is selected again: the inversion stage is re-entrant. */
  lemma ProcessedLeaveSelection(rows: seq<Content>, ids: seq<string>, c: Content)
    requires c in MarkProcessed(rows, ids) && IsUnprocessed(c)
    ensures c.id !in ids
  {
    var k :| 0 <= k < |rows| && MarkProcessed(rows, ids)[k] == c;
  }

  /** The UNKNOWN ticker's list never grows through the inversion stage. */
  lemma UnknownNeverIndexed(tickers: map<string, Ticker>, prefix: string, labels: seq<(string, seq<string>)>)
    requires UnknownTicker in tickers
    ensures AppendLabels(tickers, Inverted(prefix, labels))[UnknownTicker] == tickers[UnknownTicker]
  {
    InvertedMembers(prefix, labels, UnknownTicker, "");
  }

  /** Appending keeps every existing id list as a prefix of the new one. */
  lemma AppendOnly(tickers: map<string, Ticker>, updates: map<string, seq<string>>, s: string)
    requires s in tickers && tickers[s].contentIds.Some?
    ensures var ids := tickers[s].contentIds.value;
      AppendLabels(tickers, updates)[s].contentIds.Some? &&
      AppendLabels(tickers, updates)[s].contentIds.value[..|ids|] == ids
  {
  }
}
