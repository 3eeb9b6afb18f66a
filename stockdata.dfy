/**
 * Price data refresh: validation of the price service's JSON response and the
 * per-ticker update loop that stores accepted responses and skips rejected
 * ones. The service is the parameter `fetch`, which maps a symbol to the JSON
 * reply for the configured start date; the clock is the parameter `now`.
 */
module StockData {
  import opened Wrappers
  import opened Models

  // ---------------------------------------------------------------------------
  // Response validation
  // ---------------------------------------------------------------------------

  /**
   * The two ways a request can fail: the service's own error, which the update
   * loop catches, and any other exception (a malformed error reply that cannot
   * be formatted into a message), which it does not.
   */
  datatype RequestError = TiingoApiError(message: string) | OtherException

  /** Python's `s[:n]`. */
  function Head(s: string, n: nat): (r: string)
    ensures |r| <= n && r <= s
    ensures |s| <= n ==> r == s
    ensures |s| > n ==> r == s[..n]
  {
    if |s| <= n then s else s[..n]
  }

  /** The response is a list of fewer than two items. */
  predicate ShortList(raw: Json) {
    raw.JList? && |raw.items| < 2
  }

  /** The response is an object carrying a non-null `detail` field. */
  predicate HasDetail(raw: Json) {
    raw.JObject? && "detail" in raw.fields && raw.fields["detail"] != JNull
  }

  /**
   * data_request: a list of fewer than two items and an object with a `detail`
   * are errors; every other response is the price data, unchanged. The error
   * message quotes the first 20 characters of a one-item list's string or the
   * whole detail string; a one-item list whose item is not a string, or a detail
   * that is not a string, raises a different exception.
   */
  function DataRequest(raw: Json, symbol: string): (r: Result<Json, RequestError>)
    ensures r.Success? <==> !ShortList(raw) && !HasDetail(raw)
    ensures r.Success? ==> r.value == raw
    ensures r == Failure(OtherException) <==>
      (ShortList(raw) && |raw.items| == 1 && !raw.items[0].JStr?) || (HasDetail(raw) && !raw.fields["detail"].JStr?)
    ensures r.Failure? && r.error.TiingoApiError? ==>
      r.error.message == "Unknown response for " + symbol + ": []"
      || ("Error with " + symbol + " request: " <= r.error.message
          && |r.error.message| <= |"Error with " + symbol + " request: "| + (if ShortList(raw) then 20 else |r.error.message|))
  {
    if raw.JList? && |raw.items| < 2 then
      if |raw.items| > 0 then
        match raw.items[0]
        case JStr(s) => Failure(TiingoApiError("Error with " + symbol + " request: " + Head(s, 20)))
        case _ => Failure(OtherException)
      else Failure(TiingoApiError("Unknown response for " + symbol + ": []"))
    else if raw.JObject? && "detail" in raw.fields && raw.fields["detail"] != JNull then
      match raw.fields["detail"]
      case JStr(d) => Failure(TiingoApiError("Error with " + symbol + " request: " + d))
      case _ => Failure(OtherException)
    else Success(raw)
  }

  /** A price series of two or more records is accepted and stored as it came. */
  lemma AcceptsPriceSeries(bars: seq<Bar>, symbol: string)
    requires |bars| >= 2
    ensures DataRequest(BarsJson(bars), symbol) == Success(BarsJson(bars))
    ensures AsBars(DataRequest(BarsJson(bars), symbol).value) == Some(bars)
  {
    BarsRoundTrip(bars);
  }

  // ---------------------------------------------------------------------------
  // The update loop, as a function of the responses
  // ---------------------------------------------------------------------------

  /** The ticker table, the skip counter, and whether an uncaught exception ended the loop. */
  datatype Progress = Progress(tickers: map<string, Ticker>, skipped: nat, aborted: bool)

  /** A symbol whose request neither raises an uncaught exception nor succeeds for a missing ticker row. */
  predicate Safe(tickers: map<string, Ticker>, symbol: string, raw: Json) {
    match DataRequest(raw, symbol)
    case Failure(e) => e.TiingoApiError?
    case Success(_) => symbol in tickers
  }

  /** The accepted price data stored on a ticker, stamped with `now`. */
  function Refreshed(t: Ticker, data: Json, now: int): Ticker {
    t.(priceData := Some(data), lastUpdate := Some(now))
  }

  /** One iteration of the loop: skip on a service error, store on success, stop otherwise. */
  function Step(p: Progress, symbol: string, raw: Json, now: int): Progress {
    match DataRequest(raw, symbol)
    case Failure(TiingoApiError(_)) => p.(skipped := p.skipped + 1)
    case Failure(OtherException) => p.(aborted := true)
    case Success(data) =>
      if symbol in p.tickers then p.(tickers := p.tickers[symbol := Refreshed(p.tickers[symbol], data, now)])
      else p.(aborted := true)
  }

  /** The loop over the symbols in order, stopping at the first uncaught exception. */
  function Run(tickers: map<string, Ticker>, symbols: seq<string>, fetch: string -> Json, now: int): (r: Progress)
    ensures r.tickers.Keys == tickers.Keys
    decreases |symbols|
  {
    if symbols == [] then Progress(tickers, 0, false)
    else
      var p := Run(tickers, symbols[..|symbols| - 1], fetch, now);
      if p.aborted then p else Step(p, symbols[|symbols| - 1], fetch(symbols[|symbols| - 1]), now)
  }

  /** How many of the symbols' requests end in a service error. */
  function Failures(symbols: seq<string>, fetch: string -> Json): (r: nat)
    ensures r <= |symbols|
    decreases |symbols|
  {
    if symbols == [] then 0
    else
      var s := symbols[|symbols| - 1];
      Failures(symbols[..|symbols| - 1], fetch) + (if DataRequest(fetch(s), s).Failure? then 1 else 0)
  }

  /** The loop only touches a ticker's price data and update time. */
  lemma {:induction false} RunKeepsRows(tickers: map<string, Ticker>, symbols: seq<string>, fetch: string -> Json, now: int)
    ensures forall s :: s in tickers ==>
      var t := Run(tickers, symbols, fetch, now).tickers[s];
      t.symbol == tickers[s].symbol && t.name == tickers[s].name && t.contentIds == tickers[s].contentIds
    decreases |symbols|
  {
    if symbols != [] {
      RunKeepsRows(tickers, symbols[..|symbols| - 1], fetch, now);
    }
  }

  /** The loop runs to the end exactly when every symbol is safe. */
  lemma {:induction false} RunCompletes(tickers: map<string, Ticker>, symbols: seq<string>, fetch: string -> Json, now: int)
    ensures !Run(tickers, symbols, fetch, now).aborted <==>
      forall k :: 0 <= k < |symbols| ==> Safe(tickers, symbols[k], fetch(symbols[k]))
    decreases |symbols|
  {
    if symbols != [] {
      var init := symbols[..|symbols| - 1];
      RunCompletes(tickers, init, fetch, now);
      RunKeepsRows(tickers, init, fetch, now);
      assert forall k :: 0 <= k < |init| ==> init[k] == symbols[k];
    }
  }

  /**
   * A completed loop counts as skipped exactly the symbols whose request failed,
   * so the reported updated count is the number of accepted responses.
   */
  lemma {:induction false} RunCounts(tickers: map<string, Ticker>, symbols: seq<string>, fetch: string -> Json, now: int)
    requires !Run(tickers, symbols, fetch, now).aborted
    ensures Run(tickers, symbols, fetch, now).skipped == Failures(symbols, fetch)
    ensures |symbols| - Run(tickers, symbols, fetch, now).skipped == |symbols| - Failures(symbols, fetch) >= 0
    decreases |symbols|
  {
    if symbols != [] {
      RunCounts(tickers, symbols[..|symbols| - 1], fetch, now);
    }
  }

  /**
   * After a completed loop, a ticker holds the response and `now` when one of its
   * symbol's requests succeeded, and is untouched when none did.
   */
  lemma {:induction false} RunEffect(tickers: map<string, Ticker>, symbols: seq<string>, fetch: string -> Json, now: int, s: string)
    requires s in tickers && !Run(tickers, symbols, fetch, now).aborted
    ensures Run(tickers, symbols, fetch, now).tickers[s] ==
      if s in symbols && DataRequest(fetch(s), s).Success? then Refreshed(tickers[s], fetch(s), now) else tickers[s]
    decreases |symbols|
  {
    if symbols != [] {
      var init := symbols[..|symbols| - 1];
      RunEffect(tickers, init, fetch, now, s);
      RunKeepsRows(tickers, init, fetch, now);
      assert symbols == init + [symbols[|symbols| - 1]];
      assert s in symbols <==> s in init || s == symbols[|symbols| - 1];
    }
  }

  /** The loop over one more symbol is one more step, unless it has stopped. */
  lemma RunNext(tickers: map<string, Ticker>, symbols: seq<string>, fetch: string -> Json, now: int, i: nat)
    requires i < |symbols| && !Run(tickers, symbols[..i], fetch, now).aborted
    ensures Run(tickers, symbols[..i + 1], fetch, now) ==
      Step(Run(tickers, symbols[..i], fetch, now), symbols[i], fetch(symbols[i]), now)
  {
    assert symbols[..i + 1][..i] == symbols[..i];
  }

  /** Once the loop has stopped, the remaining symbols change nothing. */
  lemma {:induction false} RunStopped(tickers: map<string, Ticker>, symbols: seq<string>, fetch: string -> Json, now: int, n: nat)
    requires n <= |symbols| && Run(tickers, symbols[..n], fetch, now).aborted
    ensures Run(tickers, symbols, fetch, now) == Run(tickers, symbols[..n], fetch, now)
    decreases |symbols| - n
  {
    if n < |symbols| {
      var init := symbols[..|symbols| - 1];
      assert init[..n] == symbols[..n];
      RunStopped(tickers, init, fetch, now, n);
    } else {
      assert symbols[..n] == symbols;
    }
  }

  // ---------------------------------------------------------------------------
  // The update loop over the store
  // ---------------------------------------------------------------------------

  /** The distinct symbols of a set, in some order. */
  method Enumerate(symbols: set<string>) returns (order: seq<string>)
    ensures |order| == |symbols|
    ensures forall s :: s in order <==> s in symbols
    ensures forall i, j :: 0 <= i < j < |order| ==> order[i] != order[j]
  {
    order := [];
    var rest := symbols;
    while rest != {}
      invariant |order| + |rest| == |symbols|
      invariant forall s :: s in symbols <==> s in rest || s in order
      invariant forall s :: s in rest ==> s !in order
      invariant forall i, j :: 0 <= i < j < |order| ==> order[i] != order[j]
      decreases |rest|
    {
      var s :| s in rest;
      order := order + [s];
      rest := rest - {s};
    }
  }

  /** Every ticker row is stored under its own symbol. */
  predicate KeyedBySymbol(tickers: map<string, Ticker>) {
    forall s :: s in tickers ==> tickers[s].symbol == s
  }

  /**
   * One iteration of update_stock_data: requests the symbol's price data; a
   * service error is skipped, an accepted response is stored with `now` as the
   * update time, and anything else stops the loop.
   */
  method RefreshOne(db: Store, symbol: string, raw: Json, now: int, ghost skipped: nat) returns (skip: bool, stop: bool)
    requires KeyedBySymbol(db.tickers)
    modifies db
    ensures KeyedBySymbol(db.tickers)
    ensures db.posts == old(db.posts) && db.comments == old(db.comments)
    ensures var p := Step(Progress(old(db.tickers), skipped, false), symbol, raw, now);
      !stop ==> p == Progress(db.tickers, skipped + (if skip then 1 else 0), false)
    ensures var p := Step(Progress(old(db.tickers), skipped, false), symbol, raw, now);
      stop ==> p.aborted && db.tickers == old(db.tickers) && p.tickers == db.tickers && p.skipped == skipped
  {
    var response := DataRequest(raw, symbol);
    skip, stop := false, false;
    if response.Failure? && response.error.TiingoApiError? {
      skip := true;
    } else if response.Failure? || symbol !in db.tickers {
      stop := true;
    } else {
      db.tickers := db.tickers[symbol := Refreshed(db.tickers[symbol], response.value, now)];
    }
  }

  /**
   * The loop of update_stock_data over the symbols in order, committing after
   * each accepted response; an uncaught exception ends the loop with the earlier
   * commits kept.
   */
  method RefreshAll(db: Store, order: seq<string>, fetch: string -> Json, now: int)
    returns (completed: bool, skipped: nat)
    requires KeyedBySymbol(db.tickers)
    modifies db
    ensures KeyedBySymbol(db.tickers)
    ensures db.posts == old(db.posts) && db.comments == old(db.comments)
    ensures var p := Run(old(db.tickers), order, fetch, now);
      db.tickers == p.tickers && completed == !p.aborted && skipped == p.skipped
  {
    ghost var start := db.tickers;
    skipped, completed := 0, true;
    var i := 0;
    while i < |order|
      invariant i <= |order| && KeyedBySymbol(db.tickers)
      invariant db.posts == old(db.posts) && db.comments == old(db.comments)
      invariant Run(start, order[..i], fetch, now) == Progress(db.tickers, skipped, false)
    {
      RunNext(start, order, fetch, now, i);
      var skip, stop := RefreshOne(db, order[i], fetch(order[i]), now, skipped);
      if stop {
        completed := false;
        RunStopped(start, order, fetch, now, i + 1);
        return;
      }
      if skip {
        skipped := skipped + 1;
      }
      i := i + 1;
    }
    assert order[..|order|] == order;
  }

  /**
   * update_stock_data: refreshes every given symbol, by default every symbol in
   * the ticker table, and reports the skipped count and, when the loop
   * completes, the updated count. Returns the symbols in the order processed.
   */
  method UpdateStockData(db: Store, symbols: Option<seq<string>>, fetch: string -> Json, now: int)
    returns (order: seq<string>, completed: bool, skipped: nat, updated: int)
    requires db.Valid()
    modifies db
    ensures db.Valid()
    ensures db.posts == old(db.posts) && db.comments == old(db.comments)
    ensures symbols.Some? ==> order == symbols.value
    ensures symbols.None? ==> |order| == |old(db.tickers).Keys| && forall s :: s in order <==> s in old(db.tickers)
    ensures var p := Run(old(db.tickers), order, fetch, now);
      db.tickers == p.tickers && completed == !p.aborted && skipped == p.skipped
    ensures completed ==> updated == |order| - skipped
  {
    if symbols.Some? {
      order := symbols.value;
    } else {
      order := Enumerate(db.tickers.Keys);
    }
    completed, skipped := RefreshAll(db, order, fetch, now);
    updated := if completed then |order| - skipped else 0;
  }
}
