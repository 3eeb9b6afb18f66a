/**
 * Score refresh: deciding whether stored content is due for a new score,
 * selecting a batch of due items, asking the Reddit API for their current
 * state, detecting items it no longer returns, and writing the results back.
 * The clock is the parameter `now`; the API is the parameter `info`, which maps
 * a list of prefixed ids to a reply.
 */
module Scores {
  import opened Wrappers
  import opened Models
  import Tickers
  import Sentiment

  const MaxBatch := 10000

  // ---------------------------------------------------------------------------
  // Writing refreshed scores
  // ---------------------------------------------------------------------------

  /** One found item: (id, retrieval time, creation time, score). */
  datatype Found = Found(id: string, retrieved: int, created: int, score: int)

  /** A row the API no longer returns: marked deleted, with the timestamp as both retrieval time and age. */
  function DeleteRow(c: Content, ts: int): Content {
    c.(retrievedOn := ts, updateAge := ts, deleted := true)
  }

  /** A row with its refreshed score, retrieval time and age. */
  function RescoreRow(c: Content, f: Found): Content {
    c.(retrievedOn := f.retrieved, updateAge := f.retrieved - f.created, score := f.score)
  }

  /** The rows after the deleted mappings are applied in order. */
  function ApplyDeleted(rows: seq<Content>, deleted: seq<(string, int)>): (r: seq<Content>)
    ensures SameKeys(rows, r)
    decreases |deleted|
  {
    if deleted == [] then rows
    else
      var prev := ApplyDeleted(rows, deleted[..|deleted| - 1]);
      var d := deleted[|deleted| - 1];
      seq(|prev|, i requires 0 <= i < |prev| => if prev[i].id == d.0 then DeleteRow(prev[i], d.1) else prev[i])
  }

  /** The rows after the updated mappings are applied in order. */
  function ApplyUpdated(rows: seq<Content>, updated: seq<Found>): (r: seq<Content>)
    ensures SameKeys(rows, r)
    decreases |updated|
  {
    if updated == [] then rows
    else
      var prev := ApplyUpdated(rows, updated[..|updated| - 1]);
      var f := updated[|updated| - 1];
      seq(|prev|, i requires 0 <= i < |prev| => if prev[i].id == f.id then RescoreRow(prev[i], f) else prev[i])
  }

  /** The timestamp of the last deleted mapping for `id`, if any. */
  function LastDeleted(deleted: seq<(string, int)>, id: string): (r: Option<int>)
    ensures r.None? <==> forall k :: 0 <= k < |deleted| ==> deleted[k].0 != id
    decreases |deleted|
  {
    if deleted == [] then None
    else if deleted[|deleted| - 1].0 == id then Some(deleted[|deleted| - 1].1)
    else LastDeleted(deleted[..|deleted| - 1], id)
  }

  /** The last updated mapping for `id`, if any. */
  function LastFound(updated: seq<Found>, id: string): (r: Option<Found>)
    ensures r.None? <==> forall k :: 0 <= k < |updated| ==> updated[k].id != id
    ensures r.Some? ==> r.value in updated && r.value.id == id
    decreases |updated|
  {
    if updated == [] then None
    else if updated[|updated| - 1].id == id then Some(updated[|updated| - 1])
    else LastFound(updated[..|updated| - 1], id)
  }

  lemma {:induction false} ApplyDeletedEffect(rows: seq<Content>, deleted: seq<(string, int)>, i: nat)
    requires i < |rows|
    ensures ApplyDeleted(rows, deleted)[i] ==
      match LastDeleted(deleted, rows[i].id)
      case Some(ts) => DeleteRow(rows[i], ts)
      case None => rows[i]
    decreases |deleted|
  {
    if deleted != [] {
      ApplyDeletedEffect(rows, deleted[..|deleted| - 1], i);
    }
  }

  lemma {:induction false} ApplyUpdatedEffect(rows: seq<Content>, updated: seq<Found>, i: nat)
    requires i < |rows|
    ensures ApplyUpdated(rows, updated)[i] ==
      match LastFound(updated, rows[i].id)
      case Some(f) => RescoreRow(rows[i], f)
      case None => rows[i]
    decreases |updated|
  {
    if updated != [] {
      ApplyUpdatedEffect(rows, updated[..|updated| - 1], i);
    }
  }

  /**
   * The effect of update_content on one row: a row listed as deleted is marked
   * deleted with retrieval time and age both set to the timestamp; a row listed
   * as updated then gets retrieval time t, age t minus its creation time and the
   * new score; an unlisted row is unchanged.
   */
  lemma UpdateContentRow(rows: seq<Content>, updated: seq<Found>, deleted: seq<(string, int)>, i: nat)
    requires i < |rows|
    ensures var c, c' := rows[i], ApplyUpdated(ApplyDeleted(rows, deleted), updated)[i];
      && (LastDeleted(deleted, c.id).None? && LastFound(updated, c.id).None? ==> c' == c)
      && (LastDeleted(deleted, c.id).Some? ==>
            c'.deleted && (LastFound(updated, c.id).None? ==>
              c'.retrievedOn == c'.updateAge == LastDeleted(deleted, c.id).value))
      && (LastFound(updated, c.id).Some? ==>
            var f := LastFound(updated, c.id).value;
            c'.retrievedOn == f.retrieved && c'.updateAge == f.retrieved - f.created && c'.score == f.score)
      && c'.id == c.id && c'.createdUtc == c.createdUtc && c'.sentiment == c.sentiment && c'.labels == c.labels
  {
    ApplyDeletedEffect(rows, deleted, i);
    var mid := ApplyDeleted(rows, deleted);
    ApplyUpdatedEffect(mid, updated, i);
  }

  /** update_content: applies the deleted mappings, then the updated mappings, in one commit. */
  method UpdateContent(db: Store, kind: Kind, updated: seq<Found>, deleted: seq<(string, int)>)
    requires db.Valid()
    modifies db
    ensures db.Valid()
    ensures db.Rows(kind) == ApplyUpdated(ApplyDeleted(old(db.Rows(kind)), deleted), updated)
    ensures db.Rows(Other(kind)) == old(db.Rows(Other(kind))) && db.tickers == old(db.tickers)
  {
    var rows := db.Rows(kind);
    for k := 0 to |deleted|
      invariant rows == ApplyDeleted(db.Rows(kind), deleted[..k])
    {
      assert deleted[..k + 1][..k] == deleted[..k];
      var d := deleted[k];
      rows := seq(|rows|, i requires 0 <= i < |rows| => if rows[i].id == d.0 then DeleteRow(rows[i], d.1) else rows[i]);
    }
    assert deleted[..|deleted|] == deleted;
    ghost var afterDeleted := rows;
    for k := 0 to |updated|
      invariant rows == ApplyUpdated(afterDeleted, updated[..k])
    {
      assert updated[..k + 1][..k] == updated[..k];
      var f := updated[k];
      rows := seq(|rows|, i requires 0 <= i < |rows| => if rows[i].id == f.id then RescoreRow(rows[i], f) else rows[i]);
    }
    assert updated[..|updated|] == updated;
    db.SetRows(kind, rows);
  }

  // ---------------------------------------------------------------------------
  // Asking the API
  // ---------------------------------------------------------------------------

  /** One item as the API returns it. */
  datatype Thing = Thing(id: string, createdUtc: int, score: int)

  /** The API's reply: the items it found, or one of the two request failures. */
  datatype Reply = Listing(things: seq<Thing>) | ResponseException | RequestException

  /**
   * praw_scrape: one found record per returned item, all stamped with the same
   * retrieval time; a failed request yields no records.
   */
  method PrawScrape(reply: Reply, now: int) returns (output: seq<Found>)
    ensures !reply.Listing? ==> output == []
    ensures reply.Listing? ==> |output| == |reply.things|
    ensures reply.Listing? ==> forall i :: 0 <= i < |output| ==>
      output[i] == Found(reply.things[i].id, now, reply.things[i].createdUtc, reply.things[i].score)
  {
    match reply
    case ResponseException => return [];
    case RequestException => return [];
    case Listing(things) =>
      output := [];
      var retrieved := now;
      for i := 0 to |things|
        invariant |output| == i
        invariant forall k :: 0 <= k < i ==> output[k] == Found(things[k].id, retrieved, things[k].createdUtc, things[k].score)
      {
        output := output + [Found(things[i].id, retrieved, things[i].createdUtc, things[i].score)];
      }
  }

  // ---------------------------------------------------------------------------
  // Selecting due items
  // ---------------------------------------------------------------------------

  /** An item created before the cutoff whose score was last refreshed less than `freq` after its creation. */
  predicate DueBefore(c: Content, cutoff: int, freq: int) {
    c.createdUtc < cutoff && c.updateAge < freq
  }

  /** needs_update: some item older than the frequency plus the buffer is still due. */
  predicate NeedsUpdate(rows: seq<Content>, freq: int, buffer: int, now: int) {
    exists c :: c in rows && DueBefore(c, now - (freq + buffer), freq)
  }

  /** The batch scrape_update refreshes: due items older than the frequency, at most MAX_BATCH. */
  function Selected(rows: seq<Content>, freq: int, now: int): (r: seq<Content>)
    ensures |r| <= MaxBatch
    ensures forall c :: c in r ==> c in rows && DueBefore(c, now - freq, freq)
  {
    Batch(rows, (c: Content) => DueBefore(c, now - freq, freq), MaxBatch)
  }

  /** With a non-negative buffer, whenever an update is needed the batch is not empty. */
  lemma NeedsUpdateSelects(rows: seq<Content>, freq: int, buffer: int, now: int)
    requires buffer >= 0 && NeedsUpdate(rows, freq, buffer, now)
    ensures Selected(rows, freq, now) != []
  {
    var c :| c in rows && DueBefore(c, now - (freq + buffer), freq);
    assert DueBefore(c, now - freq, freq);
  }

  /** The fullnames requested for a batch: the kind's prefix followed by each id. */
  function ScrapeList(kind: Kind, items: seq<Content>): (r: seq<string>)
    ensures |r| == |items|
    ensures forall i :: 0 <= i < |items| ==> |r[i]| == 3 + |items[i].id| && r[i][..3] == Tickers.Prefix(kind) && r[i][3..] == items[i].id
  {
    seq(|items|, i requires 0 <= i < |items| => Tickers.Prefix(kind) + items[i].id)
  }

  /**
   * The fullnames read back: routing them by the kind's prefix gives exactly
   * the batch's ids, and routing them by the other kind's prefix gives none.
   */
  lemma ScrapeListRouted(kind: Kind, items: seq<Content>)
    ensures forall x :: x in Sentiment.Routed(ScrapeList(kind, items), Tickers.Prefix(kind)) <==> x in Ids(items)
    ensures forall x :: x !in Sentiment.Routed(ScrapeList(kind, items), Tickers.Prefix(Other(kind)))
  {
    var names, p, q := ScrapeList(kind, items), Tickers.Prefix(kind), Tickers.Prefix(Other(kind));
    forall x ensures p + x in names <==> x in Ids(items) {
      if p + x in names {
        var i :| 0 <= i < |names| && names[i] == p + x;
        assert x == (p + x)[3..] == items[i].id;
        assert Ids(items)[i] == x;
      }
      if x in Ids(items) {
        var i :| 0 <= i < |items| && Ids(items)[i] == x;
        assert names[i] == names[i][..3] + names[i][3..];
      }
    }
  }

  // ---------------------------------------------------------------------------
  // Detecting deleted items
  // ---------------------------------------------------------------------------

  /** A Python value as held in the set of found values: the code puts a field of each found record in it. */
  datatype PyValue = PyStr(s: string) | PyInt(n: int)

  /** The selected items whose id is not among the found values, each paired with the timestamp. */
  function Unfound(items: seq<Content>, found: set<PyValue>, now: int): (r: seq<(Content, int)>)
    ensures |r| <= |items|
    ensures forall d :: d in r <==> d.0 in items && d.1 == now && PyStr(d.0.id) !in found
    decreases |items|
  {
    if items == [] then []
    else
      assert forall c :: c in items <==> c == items[0] || c in items[1..];
      (if PyStr(items[0].id) !in found then [(items[0], now)] else []) + Unfound(items[1..], found, now)
  }

  /**
   * Which field of a found record goes into the set of found values: as written
   * the fourth, the score; as intended the first, the id.
   */
  datatype FoundKey = ScoreField | IdField

  /** The set of found values built from the records. */
  function FoundValues(output: seq<Found>, key: FoundKey): set<PyValue> {
    match key
    case ScoreField => set f | f in output :: PyInt(f.score)
    case IdField => set f | f in output :: PyStr(f.id)
  }

  /** The deleted list as intended: exactly the selected items the API did not return. */
  function Missing(items: seq<Content>, output: seq<Found>, now: int): (r: seq<(Content, int)>)
    ensures forall d :: d in r <==> d.0 in items && d.1 == now && forall f :: f in output ==> f.id != d.0.id
  {
    Unfound(items, FoundValues(output, IdField), now)
  }

  /** As written, no id is ever among the found values, so every selected item is listed as deleted. */
  lemma {:induction false} AsWrittenDeletesAll(items: seq<Content>, output: seq<Found>, now: int)
    ensures Unfound(items, FoundValues(output, ScoreField), now) == seq(|items|, i requires 0 <= i < |items| => (items[i], now))
    decreases |items|
  {
    if items != [] {
      assert PyStr(items[0].id) !in FoundValues(output, ScoreField);
      AsWrittenDeletesAll(items[1..], output, now);
    }
  }

  /** A selected item that the API did return is listed as deleted as written, and not as intended. */
  lemma FoundItemListedDeleted(a: Content, b: Content, f: Found, now: int)
    requires a.id == f.id && b.id != f.id
    ensures (a, now) in Unfound([a, b], FoundValues([f], ScoreField), now)
    ensures Missing([a, b], [f], now) == [(b, now)]
  {
    AsWrittenDeletesAll([a, b], [f], now);
    assert [a, b][1..] == [b];
    assert PyStr(a.id) in FoundValues([f], IdField);
    assert PyStr(b.id) !in FoundValues([f], IdField);
  }

  /**
   * scrape_update: when an update is needed, requests the selected batch and,
   * when fewer records come back than were requested, lists as deleted, stamped
   * with `now`, the selected items whose id is not among the found values. With
   * `ScoreField`, as written, that is every selected item; with `IdField`, as
   * intended, exactly the missing ones.
   */
  method ScrapeUpdate(rows: seq<Content>, kind: Kind, freq: int, buffer: int, now: int,
                      info: seq<string> -> Reply, key: FoundKey)
    returns (output: seq<Found>, deleted: seq<(Content, int)>)
    ensures !NeedsUpdate(rows, freq, buffer, now) ==> output == [] && deleted == []
    ensures NeedsUpdate(rows, freq, buffer, now) ==>
      var items := Selected(rows, freq, now);
      var reply := info(ScrapeList(kind, items));
      && (!reply.Listing? ==> output == [])
      && (reply.Listing? ==> |output| == |reply.things|)
      && (reply.Listing? ==> forall i :: 0 <= i < |output| ==>
            output[i] == Found(reply.things[i].id, now, reply.things[i].createdUtc, reply.things[i].score))
      && (|output| == |items| ==> deleted == [])
      && (|output| != |items| && key == IdField ==> deleted == Missing(items, output, now))
      && (|output| != |items| && key == ScoreField ==>
            deleted == seq(|items|, i requires 0 <= i < |items| => (items[i], now)))
      && (forall d :: d in deleted ==> d.0 in rows && DueBefore(d.0, now - freq, freq) && d.1 == now)
  {
    if !NeedsUpdate(rows, freq, buffer, now) {
      return [], [];
    }
    var items := Selected(rows, freq, now);
    var scrapeList := ScrapeList(kind, items);
    output := PrawScrape(info(scrapeList), now);
    deleted := [];
    if |output| != |scrapeList| {
      var found := FoundValues(output, key);
      deleted := Unfound(items, found, now);
      if key == ScoreField {
        AsWrittenDeletesAll(items, output, now);
      }
    }
  }
}
