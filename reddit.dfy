/**
 * Incremental content fetching: the per-subreddit cursor, the capped fetch of
 * one subreddit's stream, and the accumulation over several subreddits with an
 * early stop. The search service is a parameter: for a kind, a subreddit and a
 * cursor it yields the stream of items created after the cursor, oldest first.
 */
module Reddit {
  import opened Wrappers
  import opened Models

  const MaxBatch := 10000

  type Search = (Kind, string, int) -> seq<RawItem>

  // ---------------------------------------------------------------------------
  // The cursor
  // ---------------------------------------------------------------------------

  /** The largest creation time among the rows of a subreddit, if it has any. */
  function MaxCreated(rows: seq<Content>, subreddit: string): (r: Option<int>)
    ensures r.None? <==> forall c :: c in rows ==> c.subreddit != subreddit
    ensures r.Some? ==> exists c :: c in rows && c.subreddit == subreddit && c.createdUtc == r.value
    ensures r.Some? ==> forall c :: c in rows && c.subreddit == subreddit ==> c.createdUtc <= r.value
    decreases |rows|
  {
    if rows == [] then None
    else
      var rest := MaxCreated(rows[1..], subreddit);
      assert forall c :: c in rows <==> c == rows[0] || c in rows[1..];
      if rows[0].subreddit != subreddit then rest
      else match rest
        case None => Some(rows[0].createdUtc)
        case Some(m) => Some(if rows[0].createdUtc > m then rows[0].createdUtc else m)
  }

  /** latest_item: the subreddit's latest creation time, never below `earliest`. */
  function LatestItem(rows: seq<Content>, subreddit: string, earliest: int): (r: int)
    ensures r >= earliest
    ensures forall c :: c in rows && c.subreddit == subreddit ==> c.createdUtc <= r
    ensures r == earliest || exists c :: c in rows && c.subreddit == subreddit && c.createdUtc == r
  {
    match MaxCreated(rows, subreddit)
    case None => earliest
    case Some(latest) => if latest < earliest then earliest else latest
  }

  /** Only the rows of the requested subreddit move its cursor. */
  lemma CursorPerSubreddit(rows: seq<Content>, rows': seq<Content>, subreddit: string, earliest: int)
    requires forall c: Content :: c.subreddit == subreddit ==> (c in rows <==> c in rows')
    ensures LatestItem(rows, subreddit, earliest) == LatestItem(rows', subreddit, earliest)
  {
    assert forall c :: c in rows' && c.subreddit == subreddit ==> c in rows;
    assert forall c :: c in rows && c.subreddit == subreddit ==> c in rows';
  }

  // ---------------------------------------------------------------------------
  // Fetching one subreddit
  // ---------------------------------------------------------------------------

  /** The leading part of a stream that one fetch keeps. */
  function Capped(stream: seq<RawItem>): (r: seq<RawItem>)
    ensures |r| <= MaxBatch && |r| <= |stream| && r == stream[..|r|]
    ensures |r| < MaxBatch ==> r == stream
  {
    if |stream| <= MaxBatch then stream else stream[..MaxBatch]
  }

  datatype FetchError = UnsupportedTable(name: string)

  /** The content kind a table name denotes, if it is one of the two content tables. */
  function KindOf(tableName: string): (r: Option<Kind>)
    ensures r.Some? <==> tableName == "posts" || tableName == "comments"
    ensures r.Some? ==> TableName(r.value) == tableName
  {
    if tableName == "posts" then Some(PostKind)
    else if tableName == "comments" then Some(CommentKind)
    else None
  }

  /**
   * get_items: reads the subreddit's stream after `latest` item by item and
   * stops once MAX_BATCH items are held; any table but the two content tables
   * is refused.
   */
  method GetItems(tableName: string, subreddit: string, latest: int, search: Search)
    returns (r: Result<seq<RawItem>, FetchError>)
    ensures r.Failure? <==> KindOf(tableName).None?
    ensures r.Failure? ==> r.error == UnsupportedTable(tableName)
    ensures r.Success? ==> r.value == Capped(search(KindOf(tableName).value, subreddit, latest))
  {
    var kind := KindOf(tableName);
    if kind.None? {
      return Failure(UnsupportedTable(tableName));
    }
    var stream := search(kind.value, subreddit, latest);
    var cache := [];
    var i := 0;
    while i < |stream|
      invariant i <= |stream| && cache == stream[..i] && |cache| < MaxBatch
    {
      cache := cache + [stream[i]];
      i := i + 1;
      if |cache| >= MaxBatch {
        break;
      }
    }
    assert i == |stream| ==> cache == stream;
    return Success(cache);
  }

  // ---------------------------------------------------------------------------
  // Fetching several subreddits
  // ---------------------------------------------------------------------------

  /** The capped fetch of every subreddit, each from its own cursor. */
  function Batches(subreddits: seq<string>, kind: Kind, rows: seq<Content>, earliest: int, search: Search)
    : (r: seq<seq<RawItem>>)
    ensures |r| == |subreddits|
    ensures forall i :: 0 <= i < |r| ==> |r[i]| <= MaxBatch
    ensures forall i :: 0 <= i < |r| ==> r[i] == Capped(search(kind, subreddits[i], LatestItem(rows, subreddits[i], earliest)))
  {
    var r := seq(|subreddits|, i requires 0 <= i < |subreddits| =>
      Capped(search(kind, subreddits[i], LatestItem(rows, subreddits[i], earliest))));
    assert forall i :: 0 <= i < |r| ==> r[i] == Capped(search(kind, subreddits[i], LatestItem(rows, subreddits[i], earliest)));
    r
  }

  function Concat(bs: seq<seq<RawItem>>): seq<RawItem>
    decreases |bs|
  {
    if bs == [] then [] else Concat(bs[..|bs| - 1]) + bs[|bs| - 1]
  }

  /** Appends batches in order and stops after the first one that brings the total above MAX_BATCH. */
  function Gather(acc: seq<RawItem>, bs: seq<seq<RawItem>>): seq<RawItem>
    decreases |bs|
  {
    if bs == [] then acc
    else
      var acc' := acc + bs[0];
      if |acc'| > MaxBatch then acc' else Gather(acc', bs[1..])
  }

  /** k is the first count of batches whose total exceeds MAX_BATCH, or all of them. */
  predicate StopsAt(acc: seq<RawItem>, bs: seq<seq<RawItem>>, k: nat) {
    && k <= |bs|
    && (forall j :: 0 <= j < k ==> |acc + Concat(bs[..j])| <= MaxBatch)
    && (k == |bs| || |acc + Concat(bs[..k])| > MaxBatch)
  }

  /** The gathered content is the concatenation of the batches up to the stopping count. */
  lemma {:induction false} GatherStops(acc: seq<RawItem>, bs: seq<seq<RawItem>>)
    requires |acc| <= MaxBatch
    ensures exists k: nat :: StopsAt(acc, bs, k) && Gather(acc, bs) == acc + Concat(bs[..k])
    decreases |bs|
  {
    if bs == [] {
      assert Gather(acc, bs) == acc + Concat(bs[..0]);
    } else {
      var acc' := acc + bs[0];
      ConcatFirst(bs, 1);
      assert bs[..1] == [bs[0]];
      if |acc'| > MaxBatch {
        assert Gather(acc, bs) == acc + Concat(bs[..1]);
        assert bs[..0] == [];
        assert forall j :: 0 <= j < 1 ==> |acc + Concat(bs[..j])| <= MaxBatch;
      } else {
        GatherStops(acc', bs[1..]);
        var k: nat :| StopsAt(acc', bs[1..], k) && Gather(acc', bs[1..]) == acc' + Concat(bs[1..][..k]);
        forall j | 0 <= j <= k
          ensures acc + Concat(bs[..j + 1]) == acc' + Concat(bs[1..][..j])
        {
          ConcatFirst(bs, j + 1);
          assert bs[..j + 1][1..] == bs[1..][..j];
        }
        forall j | 0 <= j < k + 1 ensures |acc + Concat(bs[..j])| <= MaxBatch {
          if j == 0 {
            assert bs[..0] == [];
          } else {
            assert acc + Concat(bs[..j]) == acc' + Concat(bs[1..][..j - 1]);
          }
        }
      }
    }
  }

  /** Splitting off the first batch of a non-empty prefix. */
  lemma {:induction false} ConcatFirst(bs: seq<seq<RawItem>>, n: nat)
    requires 0 < n <= |bs|
    ensures Concat(bs[..n]) == bs[0] + Concat(bs[..n][1..])
    decreases n
  {
    var p := bs[..n];
    if n == 1 {
      assert p[1..] == [] && p[..0] == [];
    } else {
      ConcatFirst(bs, n - 1);
      assert p[..n - 1] == bs[..n - 1];
      assert p[1..][..n - 2] == bs[..n - 1][1..];
      assert p[1..][n - 2] == p[n - 1];
    }
  }

  /** When every batch is capped, the early stop keeps the total within twice MAX_BATCH. */
  lemma GatherBounded(bs: seq<seq<RawItem>>)
    requires forall i :: 0 <= i < |bs| ==> |bs[i]| <= MaxBatch
    ensures |Gather([], bs)| <= 2 * MaxBatch
  {
    GatherStops([], bs);
    var k: nat :| StopsAt([], bs, k) && Gather([], bs) == [] + Concat(bs[..k]);
    if k > 0 {
      assert bs[..k][..k - 1] == bs[..k - 1];
      assert Concat(bs[..k]) == Concat(bs[..k - 1]) + bs[k - 1];
      assert |[] + Concat(bs[..k - 1])| <= MaxBatch;
    } else {
      assert bs[..0] == [];
    }
  }

  /**
   * scrape_content: fetches each subreddit from its own cursor, in list order,
   * appending the batches, and stops once more than MAX_BATCH items are held.
   */
  method ScrapeContent(subreddits: seq<string>, kind: Kind, rows: seq<Content>, earliest: int, search: Search)
    returns (content: seq<RawItem>)
    ensures content == Gather([], Batches(subreddits, kind, rows, earliest, search))
    ensures |content| <= 2 * MaxBatch
  {
    ghost var bs := Batches(subreddits, kind, rows, earliest, search);
    content := [];
    var i := 0;
    while i < |subreddits|
      invariant i <= |subreddits| && |content| <= MaxBatch
      invariant Gather([], bs) == Gather(content, bs[i..])
    {
      var latest := LatestItem(rows, subreddits[i], earliest);
      var items := GetItems(TableName(kind), subreddits[i], latest, search);
      assert KindOf(TableName(kind)) == Some(kind);
      assert items.value == bs[i];
      content := content + items.value;
      i := i + 1;
      if |content| > MaxBatch {
        break;
      }
    }
    GatherBounded(bs);
  }
}
