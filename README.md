# red-stocks content pipeline, modelled in Dafny

red-stocks collects Reddit posts and comments about stocks. It then:

- labels each item with the ticker symbols it mentions;
- indexes the content under each ticker;
- scores each item's sentiment;
- refreshes the Reddit scores of older items;
- downloads daily price bars;
- attributes the sentiment of each labelled item to the first price bar at or after its creation.

This project models the batch rules of that pipeline and proves what they guarantee.

The database is the class `Models.Store`. It holds the `posts` and `comments` tables as sequences of rows in scan order. Ids are unique and act as the primary key. The `tickers` table is a map keyed by symbol. A query's `.limit(n)` is `Models.Batch`, the first `n` rows that pass the filter. The operations that write to the database are methods that modify the store.

Everything outside the database is a parameter of the operations:

- the Pushshift search stream;
- the Reddit `info` endpoint;
- the Tiingo price service;
- the VADER polarity function;
- the clock (`now`).

The modules follow the source files:

| module | file | what it models |
|---|---|---|
| `Wrappers` | | `Option` and `Result` |
| `Models` | db/models.py | record types, ingest normalisation, the store, filtered and limited queries |
| `Tickers` | analyze/tickers.py | the ticker lexer (an explicit scanner equivalent to the regular expression), the label rule, label inversion, batch selection and the label write-backs |
| `TickerCases` | tests/test_tickers.py | the repository's lexer test cases, proved, and the adjacent-ticker input where the regular expression misses a ticker |
| `Sentiment` | analyze/sentiment.py | sentiment batch selection and write-back, routing of prefixed ids, and alignment of sentiment events to price bars (with an in-place loop over a bar array) |
| `SentimentCases` | analyze/sentiment.py | a worked alignment example |
| `Reddit` | scrape/reddit.py | the per-subreddit cursor, the capped fetch, and accumulation with early stop |
| `Scores` | scrape/scores.py | due-item selection, API replies, deleted-item detection, and the score write-back |
| `StockData` | scrape/stockdata.py | price-response validation and the per-ticker update-or-skip loop |

## Model

| member | source | states |
|---|---|---|
| Models.NormalizePost | db/models.py:81-104 | A stored post keeps the submission's id, timestamps, subreddit, title and score. A missing selftext becomes `""`. Gilded is the sum of the gildings, or 0 when they are absent. Age is retrieved minus created, and the row is neither deleted nor processed. Labels and sentiment are unset. |
| Models.NormalizeComment | db/models.py:112-128 | A stored comment keeps the comment's id, body, author, flair text and CSS class, creation time, subreddit and subreddit id, link id, parent id and score. Gilded is the sum of the gildings. A missing retrieval time falls back to the creation time; age is retrieved minus created, so 0 in that case. The row is neither deleted nor processed, and labels, parent labels and sentiment are unset. |
| Models.Gilded | db/models.py:92 | With no gildings, the gilded count is 0. |
| Models.IngestPosts | db/models.py:80-105 | Exactly one post row per submission, in order, with the same id, each freshly ingested. |
| Models.IngestComments | db/models.py:111-129 | Exactly one comment row per comment, in order, with the same id, each freshly ingested. |
| Models.AddPosts | db/models.py:78-106 | On commit the post table grows by exactly the ingested rows. A duplicate or already-present id makes the commit fail and leaves the table unchanged. The other tables never change. |
| Models.AddComments | db/models.py:109-130 | The same for the comment table. |
| Models.InsertKeepsTable | db/models.py:14-65 | Appending rows with fresh, distinct ids keeps the primary key unique and the table homogeneous. |
| Models.Where | analyze/tickers.py:104 | A filter returns exactly the rows that satisfy the predicate: nothing else, and none missing. |
| Models.Batch | analyze/tickers.py:106-111 | A filtered query limited to n returns at most n matching rows. Below n it returns all matching rows. It is empty exactly when no row matches. |
| Models.BatchUnique | analyze/tickers.py:106-112 | A batch of a keyed table has unique ids. |
| Models.BarsRoundTrip | db/models.py:74 | Reading back a price series stored as JSON gives the same series. |
| Models.AsBars | db/models.py:74 | A `price_data` value that reads as a series is exactly the JSON of that series. |
| Models.Store.SetRows | db/models.py:14-65 | A bulk update that keeps the keys keeps the store valid and leaves the other tables as they were. |
| Tickers.RunEnd | analyze/tickers.py:86 | `[A-Z]+` takes the maximal run of capitals. |
| Tickers.MatchAt | analyze/tickers.py:86 | A match starts at the start of the string or at whitespace, and has the shape of the pattern: optional `$`, a maximal capital run, then whitespace or the end. |
| Tickers.FindAll | analyze/tickers.py:86 | `findall` yields only well-shaped matches, each where the pattern matches. |
| Tickers.NoMatchAtEnd | analyze/tickers.py:86 | The pattern never matches the empty remainder. |
| Tickers.TrimMatch | analyze/tickers.py:85 | Stripping whitespace and removing `$` from a match leaves exactly its capital run. |
| Tickers.LeadPieces | analyze/tickers.py:85 | What the pattern matches before the run is at most one whitespace, then nothing or one `$`. |
| Tickers.TrimPieces | analyze/tickers.py:85 | Trimming an optional separator, an optional `$`, a capital run and an optional separator leaves the run. |
| Tickers.RemoveDollarsAppend | analyze/tickers.py:85 | `replace("$", "")` distributes over concatenation. |
| Tickers.TokensSound | analyze/tickers.py:85-86 | Every token is a capital run bounded on the left by the start or whitespace (optionally after `$`), and on the right by whitespace or the end. |
| Tickers.TokensComplete | analyze/tickers.py:85-86 | Every such bounded run is a token when the scan resumes before the trailing separator. Under the regular expression's own scan, it holds at least when the character before the run's separator is not a capital letter. |
| Tickers.FindAllReaches | analyze/tickers.py:86 | Every position where the pattern matches, and which the scan does not skip, is reported. |
| Tickers.MatchEndsBefore | analyze/tickers.py:86 | A match never consumes past the start of a later reachable match. |
| Tickers.LabelsWith | analyze/tickers.py:85-89 | A label set is exactly `{UNKNOWN}`, or a non-empty subset of the known tickers with at most five elements. Every label is mentioned in the text. |
| Tickers.Labels | analyze/tickers.py:85-92 | The label set `find_tickers` computes: the rule above with the regular expression's own scan, which resumes after the consumed trailing whitespace. |
| Tickers.IntendedLabels | analyze/tickers.py:86 | The corrected rule: the same label rule with a scan that resumes before the trailing whitespace, so every bounded run is a candidate. |
| Tickers.LabelsComplete | analyze/tickers.py:86-89 | Under the intended label rule (the lookahead scan), every mentioned known ticker is a label, unless more than five known tickers are found. |
| Tickers.LabelsAsWrittenComplete | analyze/tickers.py:86-89 | With the regular expression's scan, which `Labels` uses, a mentioned known ticker is a label, or more than five known tickers are found, at least when no capital letter precedes its separator. |
| Tickers.FindTickers | analyze/tickers.py:73-90 | The output has exactly the input's ids as keys, and each value is that text's label set under the regular expression's own scan (`Labels`). |
| Tickers.ContentMap | analyze/tickers.py:106-112 | The content map has exactly the batch's ids as keys. Each maps to `title + " " + selftext` for posts, or to the body for comments. |
| Tickers.LabelContent | analyze/tickers.py:93-114 | Labels the first 20000 unlabeled rows with their label sets under the regular expression's own scan. Returns `{}` when every row is labeled. |
| Tickers.ListOf | analyze/tickers.py:68 | `list(labels)` lists each label exactly once. |
| Tickers.LabelRows | analyze/tickers.py:68-69 | Every row whose id is in the map gets that label set as a duplicate-free list. Every other row is untouched, and keys are kept. |
| Tickers.WriteContentLabels | analyze/tickers.py:63-70 | The store's table is the labelled rows. The other tables are unchanged. |
| Tickers.AddAllMembers | analyze/tickers.py:148-152 | Appending an id under each of its tickers adds exactly those memberships. |
| Tickers.BuildMembers | analyze/tickers.py:146-152 | A symbol is a key exactly when some item carries it. Its list holds exactly the prefixed ids of the items that carry it. |
| Tickers.InvertedMembers | analyze/tickers.py:146-154 | The inversion has the same memberships, except that `UNKNOWN` is never a key. |
| Tickers.Inverted | analyze/tickers.py:137-154 | `invert_labels` as a value: each ticker maps to the prefixed ids of the items labelled with it, in item order, and `UNKNOWN` is dropped. |
| Tickers.InvertLabels | analyze/tickers.py:137-154 | The nested appending loops compute the inversion. |
| Tickers.LabelTickers | analyze/tickers.py:157-178 | The content ids are the first 20000 unprocessed rows' ids. The ticker lists are their inverted labels under `t3_` for posts and `t1_` for comments. Returns `([], [])` when everything is processed. |
| Tickers.MarkProcessed | analyze/tickers.py:129-132 | Setting `processed` keeps every row's key. |
| Tickers.AppendIds | analyze/tickers.py:125 | `content_ids || added`, where a `NULL` array counts as empty. |
| Tickers.AppendLabels | analyze/tickers.py:124-127 | Each listed ticker gets its new ids appended. Unlisted tickers and listed symbols without a row are untouched. |
| Tickers.WriteTickerLabels | analyze/tickers.py:117-134 | Each listed ticker's `content_ids` becomes the old array concatenated with the new ids (`NULL` counts as empty). Exactly the listed rows are marked processed. |
| Tickers.ProcessedLeaveSelection | analyze/tickers.py:129-132 | A row that is still unprocessed after the write was not in the written batch. |
| Tickers.UnknownNeverIndexed | analyze/tickers.py:153 | The `UNKNOWN` ticker row never receives content ids from an inversion. |
| Tickers.AppendOnly | analyze/tickers.py:125 | A ticker's stored content ids are always a prefix of its new content ids. |
| TickerCases.FindsTickerBeforeWords | tests/test_tickers.py:11 | `find_tickers` labels `"F is great"` `{F}` with the regular expression's own scan. |
| TickerCases.FindsTickerAfterSpace | tests/test_tickers.py:12 | `find_tickers` labels `" F"` `{F}` with the regular expression's own scan. The same input is listed again at line 19. |
| TickerCases.FindsDollarTickerAfterSpace | tests/test_tickers.py:13 | `find_tickers` labels `" $F"` `{F}` with the regular expression's own scan. |
| TickerCases.FindsLoneTicker | tests/test_tickers.py:14 | `find_tickers` labels `"F"` `{F}` with the regular expression's own scan. |
| TickerCases.FindsTickerAfterWord | tests/test_tickers.py:15 | `find_tickers` labels `"a F"` `{F}` with the regular expression's own scan. |
| TickerCases.FindsTickerBeforeWord | tests/test_tickers.py:16 | `find_tickers` labels `"F a"` `{F}` with the regular expression's own scan. |
| TickerCases.FindsTickerBetweenWords | tests/test_tickers.py:17 | `find_tickers` labels `"a F a"` `{F}` with the regular expression's own scan. |
| TickerCases.FindsTickerBeforeSpace | tests/test_tickers.py:18 | `find_tickers` labels `"F "` `{F}` with the regular expression's own scan. |
| TickerCases.FindsTickerBetweenSpaces | tests/test_tickers.py:20 | `find_tickers` labels `" F "` `{F}` with the regular expression's own scan. |
| TickerCases.FindsTickerAfterNewline | tests/test_tickers.py:21 | `find_tickers` labels `"\nF"` `{F}` with the regular expression's own scan. |
| TickerCases.FindsTickerBeforeNewline | tests/test_tickers.py:22 | `find_tickers` labels `"F\n"` `{F}` with the regular expression's own scan. |
| TickerCases.FindsTickerBetweenNewlines | tests/test_tickers.py:23 | `find_tickers` labels `"\nF\n"` `{F}` with the regular expression's own scan. |
| TickerCases.FindsLoneLongerTicker | tests/test_tickers.py:24 | `find_tickers` labels `"FF"` `{FF}` with the regular expression's own scan. Not `{F}`. |
| TickerCases.FindsLongTickerAfterWord | tests/test_tickers.py:25 | `find_tickers` labels `"a FFF"` `{FFF}` with the regular expression's own scan. Not `{F}`. |
| TickerCases.FindsLongTickerBetweenWords | tests/test_tickers.py:26 | `find_tickers` labels `"a FFF a"` `{FFF}` with the regular expression's own scan. Not `{F}`. |
| TickerCases.FindsLongTickerBetweenSpaces | tests/test_tickers.py:27 | `find_tickers` labels `" FFF "` `{FFF}` with the regular expression's own scan. Not `{F}`. |
| TickerCases.FindsLongTickerBeforeSpace | tests/test_tickers.py:28 | `find_tickers` labels `"FFF "` `{FFF}` with the regular expression's own scan. Not `{F}`. |
| TickerCases.FindsDollarTickerAtStart | tests/test_tickers.py:29 | `find_tickers` labels `"$FFF "` `{FFF}` with the regular expression's own scan. Not `{F}`. |
| TickerCases.FindsLongTickerBeforeNewline | tests/test_tickers.py:30 | `find_tickers` labels `"FFF\n"` `{FFF}` with the regular expression's own scan. Not `{F}`. |
| TickerCases.FindsLongestLoneTicker | tests/test_tickers.py:31 | `find_tickers` labels `"FFF"` `{FFF}` with the regular expression's own scan. Not `{F}`. |
| TickerCases.RejectsCapitalAfterLower | tests/test_tickers.py:39 | `"aF"` is labelled `{UNKNOWN}` with the regular expression's own scan. |
| TickerCases.RejectsCapitalBeforeLower | tests/test_tickers.py:40 | `"Fa"` is labelled `{UNKNOWN}` with the regular expression's own scan. |
| TickerCases.RejectsRunBeforeLower | tests/test_tickers.py:41 | `"FFa"` is labelled `{UNKNOWN}` with the regular expression's own scan. |
| TickerCases.RejectsRunAfterLower | tests/test_tickers.py:42 | `"aFF"` is labelled `{UNKNOWN}` with the regular expression's own scan. |
| TickerCases.RejectsCapitalsAroundLower | tests/test_tickers.py:43 | `"FaF"` is labelled `{UNKNOWN}` with the regular expression's own scan. |
| TickerCases.RejectsAlternating | tests/test_tickers.py:44 | `"aFaF"` is labelled `{UNKNOWN}` with the regular expression's own scan. |
| TickerCases.RejectsAlternatingRuns | tests/test_tickers.py:45 | `"aFFaFF"` is labelled `{UNKNOWN}` with the regular expression's own scan. |
| TickerCases.RejectsDollarCapitalBeforeLower | tests/test_tickers.py:46 | `"$Fa"` is labelled `{UNKNOWN}` with the regular expression's own scan. |
| TickerCases.RejectsDollarAfterCapital | tests/test_tickers.py:47 | `"F$a"` is labelled `{UNKNOWN}` with the regular expression's own scan. |
| TickerCases.RejectsDollarBeforeLower | tests/test_tickers.py:48 | `"$aF"` is labelled `{UNKNOWN}` with the regular expression's own scan. |
| TickerCases.RejectsMixedDollars | tests/test_tickers.py:49 | `"F$FaFFa$$Fa"` is labelled `{UNKNOWN}` with the regular expression's own scan. |
| TickerCases.NoCapitalNoMatch | analyze/tickers.py:86 | Without a capital letter ahead, nothing more matches. |
| TickerCases.AsWrittenTokensOfAdjacent | analyze/tickers.py:86 | The regular expression finds only `F` in `"F FF"`. |
| TickerCases.AdjacentMatches | analyze/tickers.py:86 | In `"F FF"` the pattern matches `F` with its trailing space at 0, and `FF` from the space at 1. |
| TickerCases.LookaheadTokensOfAdjacent | analyze/tickers.py:86 | A scan that leaves the trailing separator finds `F` and `FF` in `"F FF"`. |
| TickerCases.TwoKnownTokens | analyze/tickers.py:88-89 | Two distinct tokens that are both known tickers are exactly the labels. |
| TickerCases.KnownLabels | analyze/tickers.py:88-92 | Between one and five known tickers among the tokens are exactly the labels. |
| TickerCases.SecondAdjacentTickerMissed | analyze/tickers.py:86-89 | `Labels`, the rule as written, gives `{F}` for `"F FF"`; `IntendedLabels` gives `{F, FF}`. |
| Sentiment.SentimentBatch | analyze/sentiment.py:27-52 | One score per selected unscored row: at most 20000, in order, each the polarity of `title + " " + selftext` or of the body. Every unscored row is covered when fewer than 20000 are returned. The result is empty exactly when every row is scored. |
| Sentiment.ScoreEach | analyze/sentiment.py:48-51 | The loop produces one `{id, sentiment}` entry per item, in order, with the polarity of its text. |
| Sentiment.LastScore | analyze/sentiment.py:23 | An id has a written score exactly when the update lists it. |
| Sentiment.ApplyScoresEffect | analyze/sentiment.py:18-24 | After a bulk update, each row carries its last listed sentiment and is otherwise unchanged. |
| Sentiment.ApplyScores | analyze/sentiment.py:23 | The bulk update as a value: the mappings applied in order, keeping every row's key. |
| Sentiment.WriteSentiment | analyze/sentiment.py:18-24 | The store's table is the updated rows. The other tables are unchanged. |
| Sentiment.ScoredLeaveSelection | analyze/sentiment.py:38-46 | A written row is never selected for scoring again. |
| Sentiment.Routed | analyze/sentiment.py:114-115 | An id is routed exactly when its prefixed form is in the ticker's list. |
| Sentiment.GetSentimentData | analyze/sentiment.py:100-120 | A ticker without content ids has no sentiment data. |
| Sentiment.SentimentDataReferenced | analyze/sentiment.py:113-119 | The data holds the (sentiment, created) pairs of the posts referenced with `t3_`, then of the comments referenced with `t1_`. Other prefixes are ignored. |
| Sentiment.FirstAtOrAfter | analyze/sentiment.py:82-83 | The chosen bar is at or after the event, and every earlier bar is before it. With no such bar, the event is dropped. |
| Sentiment.FirstIsNearest | analyze/sentiment.py:82 | On increasing dates, the chosen bar is the nearest one at or after the event. |
| Sentiment.Nonzero | analyze/sentiment.py:77 | Exactly the events with a non-zero score are kept, and the result is no longer than the input. |
| Sentiment.NonzeroCounts | analyze/sentiment.py:77 | Each nonzero event is kept as many times as it occurs and each zero event is dropped: duplicate events stay separate events. |
| Sentiment.ResetAll | analyze/sentiment.py:71-74 | Every bar keeps its date, prices and volume, and its four aggregate columns become 0. |
| Sentiment.FoldTallies | analyze/sentiment.py:79-88 | After the event loop, each bar's counts and sum grew by exactly the positive count, negative count and score sum of the events attributed to it. |
| Sentiment.AlignedBar | analyze/sentiment.py:66-93 | Each aligned bar carries: the positive and negative counts of the non-zero events whose first bar at or after is this one; their score sum; and that sum divided by the count, or 0 when there are none. |
| Sentiment.AttributeAll | analyze/sentiment.py:79-88 | The loop over the non-zero events adds each one to its first bar at or after, in place, as the event fold specifies. |
| Sentiment.ScaleAll | analyze/sentiment.py:90-93 | The loop over the bars sets each bar's scaled sentiment to its sum over its count, and leaves it unchanged when the count is 0. |
| Sentiment.ZeroScoreIgnored | analyze/sentiment.py:77 | A zero-score event changes nothing. |
| Sentiment.AlignedIgnoresAggregates | analyze/sentiment.py:71-74 | The result does not depend on the aggregate columns already stored. |
| Sentiment.AlignedIdempotent | analyze/sentiment.py:71-74 | Aligning again with the same events gives the same bars. |
| Sentiment.TotalCountFold | analyze/sentiment.py:79-88 | The event loop adds one to the total count per matched event. |
| Sentiment.TotalCountScaled | analyze/sentiment.py:90-93 | Scaling does not change any count. |
| Sentiment.CountsConserved | analyze/sentiment.py:77-93 | The counts over all bars total the number of non-zero events that have a bar at or after them. |
| Sentiment.Aligned | analyze/sentiment.py:66-93 | `update_symbol_data` on the price frame as a value, one bar per input bar; its meaning is stated by `AlignedBar`. |
| Sentiment.Align | analyze/sentiment.py:68-93 | The in-place loops over the bar array compute the aligned bars. |
| Sentiment.UpdateSymbolData | analyze/sentiment.py:66-97 | The ticker's price data becomes the aligned series. Nothing else in the store changes. |
| SentimentCases.ExampleDropsZero | analyze/sentiment.py:77 | In the example, the zero-score event is dropped. |
| SentimentCases.ExampleFirstBars | analyze/sentiment.py:82-83 | In the example, events at 2 and 3 go to the bar at 3. An event at 7 has no bar. |
| SentimentCases.ExampleAttribution | analyze/sentiment.py:79-83 | In the example, only the bar at 3 receives events. |
| SentimentCases.AlignmentExampleMatched | analyze/sentiment.py:84-93 | In the example, the bar at 3 gets one positive event, one negative event, sum 0.4 and scaled sentiment 0.2. |
| SentimentCases.AlignmentExampleUnmatched | analyze/sentiment.py:71-74 | In the example, bars with no events have their stale aggregates reset to 0. |
| Reddit.MaxCreated | scrape/reddit.py:42 | The maximum creation time among the subreddit's rows, or none when it has no rows. |
| Reddit.LatestItem | scrape/reddit.py:33-45 | The cursor is never below the floor, and never below any of the subreddit's creation times. It is the floor or one of them. |
| Reddit.CursorPerSubreddit | scrape/reddit.py:42 | Rows of other subreddits never move the cursor. |
| Reddit.KindOf | scrape/reddit.py:18-23 | Only the table names `posts` and `comments` are content tables. |
| Reddit.Capped | scrape/reddit.py:24-30 | At most 10000 items, an in-order prefix of the stream, and the whole stream when it is shorter than the cap. |
| Reddit.GetItems | scrape/reddit.py:9-30 | The loop with `break` returns the capped stream. Any other table name is refused. |
| Reddit.Batches | scrape/reddit.py:59-61 | One capped batch per subreddit, in list order, each fetched from that subreddit's own cursor `LatestItem`. |
| Reddit.Gather | scrape/reddit.py:59-65 | The accumulation loop as a value: batches are appended in order until the total first exceeds 10000. |
| Reddit.GatherStops | scrape/reddit.py:59-65 | The content is the batches in list order, up to the first batch that brings the total above 10000. |
| Reddit.GatherBounded | scrape/reddit.py:59-65 | The content never exceeds 20000 items. |
| Reddit.ScrapeContent | scrape/reddit.py:48-65 | The loop computes the gathered content, which is at most twice the cap. |
| Scores.ApplyDeletedEffect | scrape/scores.py:19-24 | A row listed as deleted is marked deleted, with retrieval time and age both set to its timestamp. Other rows are unchanged. |
| Scores.ApplyUpdatedEffect | scrape/scores.py:21-25 | A row listed as found gets retrieval time t, age t minus created, and the new score. Other rows are unchanged. |
| Scores.ApplyDeleted | scrape/scores.py:19-24 | The deleted bulk update as a value: the mappings applied in order, keeping every row's key. |
| Scores.ApplyUpdated | scrape/scores.py:21-25 | The updated bulk update as a value: the mappings applied in order, keeping every row's key. |
| Scores.LastDeleted | scrape/scores.py:19-20 | An id has a deletion timestamp exactly when the deleted list names it. |
| Scores.LastFound | scrape/scores.py:21-22 | An id has a found record exactly when the updated list names it, and the record is one of the list's records. |
| Scores.UpdateContentRow | scrape/scores.py:14-26 | The combined effect on each row: deletions first, then updates. An unlisted row is unchanged. Id, creation time, labels and sentiment are always kept. |
| Scores.UpdateContent | scrape/scores.py:14-26 | The table is the result of both bulk updates. The other tables are unchanged. |
| Scores.PrawScrape | scrape/scores.py:29-50 | An exception yields `[]`. Otherwise there is one record per returned item, in order, carrying its id, the retrieval time, its creation time and its score. |
| Scores.Selected | scrape/scores.py:83-85 | At most 10000 rows, each created before `now - freq` with age below `freq`. |
| Scores.NeedsUpdate | scrape/scores.py:53-68 | `needs_update`: some row was created before `now - (freq + buffer)` and has an age below `freq`. |
| Scores.NeedsUpdateSelects | scrape/scores.py:65-85 | When an update is needed and the buffer is not negative, the selected batch is not empty. |
| Scores.ScrapeList | scrape/scores.py:87-92 | One fullname per selected row, in order: the three-character prefix (`t1_` for comments, `t3_` for posts) followed by exactly the id. |
| Scores.ScrapeListRouted | scrape/scores.py:87-92 | Reading the fullnames back by their prefix gives exactly the batch's ids, and reading them with the other kind's prefix gives none. |
| Scores.Unfound | scrape/scores.py:99 | Exactly the selected rows whose id is not among the found values, each with the timestamp. |
| Scores.Missing | scrape/scores.py:98-99 | Exactly the selected rows that no found record names, each with the timestamp. |
| Scores.AsWrittenDeletesAll | scrape/scores.py:98-99 | As written, every selected row is listed as deleted. |
| Scores.FoundItemListedDeleted | scrape/scores.py:98-99 | A returned row is listed as deleted as written, and not when ids are compared. |
| Scores.ScrapeUpdate | scrape/scores.py:71-103 | Returns `([], [])` when no update is needed. Otherwise the output is one record per returned item, in order, with its id, the retrieval time, its creation time and its score; nothing is deleted when every item came back. On a shortfall, every selected row is listed as deleted as written, or exactly the missing ones when ids are compared. Deleted rows are always selected rows. |
| StockData.Head | scrape/stockdata.py:55 | `s[:20]`: the whole string when it has at most 20 characters, otherwise exactly its first 20. |
| StockData.DataRequest | scrape/stockdata.py:46-62 | A response succeeds exactly when it is neither a list of fewer than two items nor an object with a non-null `detail`. A success returns the response unchanged. A non-string item or detail raises an uncaught exception. A service error names the symbol. |
| StockData.AcceptsPriceSeries | scrape/stockdata.py:54-62 | A price series of two or more bars is accepted unchanged and reads back as the same bars. |
| StockData.Run | scrape/stockdata.py:28-41 | The loop never adds or removes ticker rows. |
| StockData.Step | scrape/stockdata.py:32-41 | One loop iteration as a value: a service error adds one to `skipped`, any other exception aborts, and an accepted response is stored with `now` on the symbol's row, or aborts when the row is missing. |
| StockData.Failures | scrape/stockdata.py:34-37 | The number of failed requests is at most the number of symbols. |
| StockData.RunKeepsRows | scrape/stockdata.py:39-40 | Only price data and update time ever change. |
| StockData.RunCompletes | scrape/stockdata.py:28-41 | The loop completes exactly when no request raises an uncaught exception and no accepted symbol lacks a row. |
| StockData.RunCounts | scrape/stockdata.py:37-43 | `skipped` counts exactly the failed requests, so the updated count is the number of accepted ones. |
| StockData.RunEffect | scrape/stockdata.py:32-40 | A ticker holds the accepted response and the single `now` when its request succeeded, and is unchanged when it failed. |
| StockData.RunStopped | scrape/stockdata.py:28-41 | After an uncaught exception, later symbols change nothing. |
| StockData.Enumerate | scrape/stockdata.py:25-26 | By default, every symbol of the ticker table is processed once. |
| StockData.RefreshAll | scrape/stockdata.py:28-41 | The loop with early exits computes `Run`, and each write keeps rows keyed by symbol. |
| StockData.RefreshOne | scrape/stockdata.py:31-41 | One iteration: skip on an API error, abort on any other failure, otherwise store the new price data and update time; the outcome is one step of `Run`. |
| StockData.UpdateStockData | scrape/stockdata.py:17-43 | The ticker table, completion and `skipped` are those of `Run` over the given or enumerated symbols. On completion the updated count is `len(tickers) - skipped`. The content tables are unchanged. |

## Left out

- `download_tickers` and `update_tickers` (analyze/tickers.py:22-60): FTP download and CSV parsing. Both are I/O.
- `add_sentiment_to_symbol_data` (analyze/sentiment.py:55-63): it only loops `UpdateSymbolData` over the tickers that have price data.
- analyze/plot.py and worker.py are not part of this model. They are chart rendering and an orchestration loop with `sleep`.
- The external services are uninterpreted parameters:
  - the Pushshift, PRAW and Tiingo HTTP calls;
  - the VADER analyzer.
  - The Pushshift generator is a finite sequence. An exception raised mid-iteration is not modelled.
- `Scores.PrawScrape`: the reply is one value, a listing or an exception. Records already built when an exception arrives are discarded, as in the source, but the timing of the exception inside the generator is not represented. The `sleep(60)` and the logging are left out.
- Clock reads are one parameter `now`. This covers the cutoffs in `needs_update` and `scrape_update`, the retrieval time in `praw_scrape` and the deletion time in `scrape_update`. The source reads the clock separately each time, a few seconds apart.
- `Scores.ScrapeUpdate`: the items query is executed twice by the source (once for the id list, once for the deleted scan). The model assumes both return the same rows.
- `Scores.ScrapeUpdate` returns deleted entries as (row, timestamp), as the source does. `Scores.UpdateContent` takes (id, timestamp), as `update_content` reads `item[0]` as the id. How worker code connects the two is not part of this model.
- Sessions, commits and SQL text are replaced by the `Store` class. A failed commit is modelled only for inserts (duplicate primary keys). Bulk updates of ids that are not in the table change nothing.
- Floating point is `real`: no rounding, and no claims about bitwise equality.
- Dates are `int` timestamps. The date parsing, timezone handling and JSON date strings in `update_symbol_data` are not modelled.
- `Sentiment.UpdateSymbolData` requires non-null sentiment scores for the referenced content and strictly increasing bar dates. The source crashes or misbehaves otherwise. Price data that is not a bar series is excluded by precondition.
- `Sentiment.Align`: the counters are ints and the sum is a real. pandas' column dtype changes (integer 0 becoming float after `+=`) are not modelled.
- `Tickers.InvertLabels`: labels must be present (non-null) for every processed row, as the source iterates over them.
- Python's `\s` is modelled as `str.isspace` for the code points that Unicode classes as whitespace. No other Unicode behaviour is modelled.
- `StockData.DataRequest`: the JSON payload is the `Json` datatype. A body that is not JSON, and so makes `.json()` raise, is not modelled. `str(raw_data)` is modelled only for the empty list, the one case where it is reached.
- Iteration order over Python sets and dicts is one fixed order: the sequence order of the argument or the table's scan order.
- `Tickers.TokensComplete` proves that the scan as written finds a whitespace-bounded capital run only when the character before its separator is not a capital letter (`SeparatorFree`). The exact condition is that no earlier match consumed that separator, and it depends recursively on the whole prefix. In `"aF FF"`, `FF` is found even though `SeparatorFree` does not hold.
- `Tickers.LabelsAsWrittenComplete` proves completeness of `Labels` under the same `SeparatorFree` condition, so it is narrower than the scan's real behaviour in the same way.
- `Models.AsBars`: a bar keeps only date, open, high, low, close and volume. Tiingo's other columns (`adjClose`, `adjOpen`, `adjHigh`, `adjLow`, `adjVolume`, `divCash`, `splitFactor`) are dropped. The source carries them through the DataFrame and writes them back with `to_dict`.

## Findings

| source | as written | input that shows it | evidently intended | confidence | as-written member | corrected member |
|---|---|---|---|---|---|---|
| analyze/tickers.py:86 | The trailing `\s` of the pattern is consumed, so the next match cannot use it as its leading separator. `Tickers.Labels`, which the pipeline uses, follows the source here. | `"F FF"` with tickers `{F, FF}` is labelled `{F}` | Every whitespace-bounded capital run is a candidate: `{F, FF}`, as `Tickers.IntendedLabels` computes | high (not executed) | TickerCases.SecondAdjacentTickerMissed | Tickers.LabelsComplete |
| scrape/scores.py:98 | `found_ids` collects `item[3]`, the score, so `item.id not in found_ids` always holds. | Select rows a and b, and have the API return only a. Then a is still listed as deleted. | Collect `item[0]`, the id, so only rows the API did not return are deleted | high (not executed) | Scores.AsWrittenDeletesAll | Scores.Missing |
