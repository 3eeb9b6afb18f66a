/**
 * The stored records of the pipeline (posts, comments, tickers), the store that
 * holds them, and record normalisation on ingest (add_posts, add_comments).
 *
 * A content table is a sequence of rows in the order the database returns them;
 * `id` is its primary key. `query(...).filter(p).limit(n)` is the first n rows
 * that satisfy p (`Batch`). The ticker table is a map from symbol to row.
 */
module Models {
  import opened Wrappers

  /** The two content tables. */
  datatype Kind = PostKind | CommentKind

  /** The table's `__tablename__`. */
  function TableName(kind: Kind): string {
    match kind
    case PostKind => "posts"
    case CommentKind => "comments"
  }

  /**
   * One stored content row. Columns the pipeline never inspects are kept as
   * opaque strings; `score` and `gilded` hold the integers the code writes.
   * `labels` and `sentiment` are NULL (None) until the labeling and scoring
   * stages set them.
   */
  datatype Content =
    | Post(createdUtc: int, subreddit: string, author: string, domain: string, url: string,
           numComments: string, score: int, title: string, selftext: string, id: string,
           gilded: int, stickied: string, retrievedOn: int, over18: string, thumbnail: string,
           subredditId: string, authorFlairCssClass: string, isSelf: string, permalink: string,
           authorFlairText: string, updateAge: int, deleted: bool, labels: Option<seq<string>>,
           processed: bool, sentiment: Option<real>)
    | Comment(body: string, author: string, authorFlairText: string, createdUtc: int,
              subredditId: string, linkId: string, parentId: string, score: int,
              retrievedOn: int, gilded: int, id: string, subreddit: string,
              authorFlairCssClass: string, updateAge: int, deleted: bool, processed: bool,
              labels: Option<seq<string>>, parentLabels: Option<seq<string>>,
              sentiment: Option<real>)

  /** The text the labeling and scoring stages read: title and selftext of a post, body of a comment. */
  function Text(c: Content): string {
    match c
    case Post(_, _, _, _, _, _, _, _, _, _, _, _, _, _, _, _, _, _, _, _, _, _, _, _, _) =>
      c.title + " " + c.selftext
    case Comment(_, _, _, _, _, _, _, _, _, _, _, _, _, _, _, _, _, _, _) => c.body
  }

  /** A submission as the archive returns it; absent attributes are None. */
  datatype RawPost = RawPost(
    createdUtc: int, subreddit: string, author: string, domain: string, url: string,
    numComments: string, score: int, title: string, selftext: Option<string>, id: string,
    gildings: Option<seq<int>>, stickied: string, retrievedOn: int, over18: string,
    thumbnail: string, subredditId: string, authorFlairCssClass: string, isSelf: string,
    permalink: string, authorFlairText: string)

  /** A comment as the archive returns it; absent attributes are None. */
  datatype RawComment = RawComment(
    body: string, author: string, authorFlairText: string, createdUtc: int,
    subredditId: string, linkId: string, parentId: string, score: int,
    retrievedOn: Option<int>, gildings: Option<seq<int>>, id: string, subreddit: string,
    authorFlairCssClass: string)

  /** An item yielded by the archive's search generator. */
  datatype RawItem = PostItem(post: RawPost) | CommentItem(comment: RawComment)

  /** One daily price record with the sentiment columns the aligner adds. */
  datatype Bar = Bar(date: int, open: real, high: real, low: real, close: real, volume: int,
                     positiveCount: int, negativeCount: int, sentimentSum: real,
                     scaledSentiment: real)

  /** A JSON value as stored in the `price_data` column; `JBar` is one price record object. */
  datatype Json =
    | JNull
    | JStr(s: string)
    | JNum(n: real)
    | JBar(bar: Bar)
    | JList(items: seq<Json>)
    | JObject(fields: map<string, Json>)

  /** A row of the ticker table. `contentIds` is a Postgres text array that only grows. */
  datatype Ticker = Ticker(symbol: string, name: Option<string>, contentIds: Option<seq<string>>,
                           priceData: Option<Json>, lastUpdate: Option<int>)

  /** The price series of a `price_data` value that is a list of price records. */
  function AsBars(j: Json): (r: Option<seq<Bar>>)
    ensures r.Some? ==> j == BarsJson(r.value)
  {
    if j.JList? && forall i :: 0 <= i < |j.items| ==> j.items[i].JBar? then
      Some(seq(|j.items|, i requires 0 <= i < |j.items| => j.items[i].bar))
    else
      None
  }

  /** The `price_data` value that stores a price series. */
  function BarsJson(bars: seq<Bar>): Json {
    JList(seq(|bars|, i requires 0 <= i < |bars| => JBar(bars[i])))
  }

  lemma BarsRoundTrip(bars: seq<Bar>)
    ensures AsBars(BarsJson(bars)) == Some(bars)
  {
    var j := BarsJson(bars);
    assert forall i :: 0 <= i < |j.items| ==> j.items[i] == JBar(bars[i]);
    assert AsBars(j).value == bars;
  }

  predicate UniqueIds(rows: seq<Content>) {
    forall i, j :: 0 <= i < j < |rows| ==> rows[i].id != rows[j].id
  }

  /** Every row of the table has the record type of `kind`. */
  predicate OfKind(rows: seq<Content>, kind: Kind) {
    forall i :: 0 <= i < |rows| ==> (rows[i].Post? <==> kind == PostKind)
  }

  /** `rows'` holds the same records as `rows` (same ids, same table), possibly with other column values. */
  predicate SameKeys(rows: seq<Content>, rows': seq<Content>) {
    |rows'| == |rows| &&
    forall i :: 0 <= i < |rows| ==> rows'[i].id == rows[i].id && rows'[i].Post? == rows[i].Post?
  }

  lemma SameKeysKeepTable(rows: seq<Content>, rows': seq<Content>, kind: Kind)
    requires SameKeys(rows, rows') && UniqueIds(rows) && OfKind(rows, kind)
    ensures UniqueIds(rows') && OfKind(rows', kind)
  {
  }

  function Ids(rows: seq<Content>): (r: seq<string>)
    ensures |r| == |rows| && forall i :: 0 <= i < |rows| ==> r[i] == rows[i].id
  {
    seq(|rows|, i requires 0 <= i < |rows| => rows[i].id)
  }

  /** The rows that satisfy `p`, in table order (a SQL `WHERE`). */
  function Where(rows: seq<Content>, p: Content -> bool): (r: seq<Content>)
    ensures |r| <= |rows|
    ensures forall c :: c in r ==> c in rows && p(c)
    ensures forall c :: c in rows && p(c) ==> c in r
  {
    if rows == [] then []
    else (if p(rows[0]) then [rows[0]] else []) + Where(rows[1..], p)
  }

  /** `filter(p).limit(n)`: the first n rows that satisfy `p`. */
  function Batch(rows: seq<Content>, p: Content -> bool, n: nat): (r: seq<Content>)
    ensures |r| <= n
    ensures forall c :: c in r ==> c in rows && p(c)
    ensures |r| < n ==> forall c :: c in rows && p(c) ==> c in r
    ensures 0 < n ==> (r == [] <==> forall c :: c in rows ==> !p(c))
  {
    var w := Where(rows, p);
    assert w != [] ==> w[0] in w;
    if |w| <= n then w else w[..n]
  }

  lemma BatchUnique(rows: seq<Content>, p: Content -> bool, n: nat)
    requires UniqueIds(rows)
    ensures UniqueIds(Batch(rows, p, n))
  {
    WhereUnique(rows, p);
  }

  lemma {:induction false} WhereUnique(rows: seq<Content>, p: Content -> bool)
    requires UniqueIds(rows)
    ensures UniqueIds(Where(rows, p))
  {
    if rows != [] {
      WhereUnique(rows[1..], p);
      var rest := Where(rows[1..], p);
      forall c | c in rest ensures c.id != rows[0].id {
        var k :| 0 <= k < |rows[1..]| && rows[1..][k] == c;
        assert rows[k + 1] == c;
      }
    }
  }

  function Sum(xs: seq<int>): int {
    if xs == [] then 0 else xs[0] + Sum(xs[1..])
  }

  /** The gilding count: the sum of the award counts, 0 when the item carries none. */
  function Gilded(gildings: Option<seq<int>>): (r: int)
    ensures gildings.None? ==> r == 0
  {
    match gildings
    case None => 0
    case Some(values) => Sum(values)
  }

  predicate IsUnlabeled(c: Content) { c.labels.None? }
  predicate IsUnprocessed(c: Content) { !c.processed }
  predicate IsUnscored(c: Content) { c.sentiment.None? }

  function IdSet(rows: seq<Content>): set<string> {
    set c | c in rows :: c.id
  }

  function Other(kind: Kind): Kind {
    match kind
    case PostKind => CommentKind
    case CommentKind => PostKind
  }

  /** The state in which ingest leaves a row: derived age, not deleted, and untouched by the later stages. */
  predicate Ingested(c: Content) {
    && c.updateAge == c.retrievedOn - c.createdUtc
    && !c.deleted
    && !c.processed
    && c.labels.None?
    && c.sentiment.None?
  }

  /** The stored post for an archived submission. */
  function NormalizePost(p: RawPost): (c: Content)
    ensures c.Post? && c.id == p.id && Ingested(c)
    ensures c.createdUtc == p.createdUtc && c.retrievedOn == p.retrievedOn
    ensures c.subreddit == p.subreddit && c.title == p.title && c.score == p.score
    ensures c.selftext == p.selftext.GetOr("")
    ensures c.gilded == Gilded(p.gildings)
  {
    Post(createdUtc := p.createdUtc, subreddit := p.subreddit, author := p.author,
         domain := p.domain, url := p.url, numComments := p.numComments, score := p.score,
         title := p.title, selftext := p.selftext.GetOr(""), id := p.id,
         gilded := Gilded(p.gildings), stickied := p.stickied, retrievedOn := p.retrievedOn,
         over18 := p.over18, thumbnail := p.thumbnail, subredditId := p.subredditId,
         authorFlairCssClass := p.authorFlairCssClass, isSelf := p.isSelf,
         permalink := p.permalink, authorFlairText := p.authorFlairText,
         updateAge := p.retrievedOn - p.createdUtc, deleted := false, labels := None,
         processed := false, sentiment := None)
  }

  /** The stored comment for an archived comment; a missing `retrieved_on` falls back to the creation time. */
  function NormalizeComment(r: RawComment): (c: Content)
    ensures c.Comment? && c.id == r.id && Ingested(c)
    ensures c.createdUtc == r.createdUtc && c.subreddit == r.subreddit && c.body == r.body
    ensures c.score == r.score && c.gilded == Gilded(r.gildings)
    ensures c.author == r.author && c.authorFlairText == r.authorFlairText && c.authorFlairCssClass == r.authorFlairCssClass
    ensures c.subredditId == r.subredditId && c.linkId == r.linkId && c.parentId == r.parentId
    ensures c.retrievedOn == r.retrievedOn.GetOr(r.createdUtc)
    ensures c.updateAge == c.retrievedOn - c.createdUtc
    ensures r.retrievedOn.None? ==> c.updateAge == 0
    ensures c.parentLabels.None?
  {
    var retrieved := r.retrievedOn.GetOr(r.createdUtc);
    Comment(body := r.body, author := r.author, authorFlairText := r.authorFlairText,
            createdUtc := r.createdUtc, subredditId := r.subredditId, linkId := r.linkId,
            parentId := r.parentId, score := r.score, retrievedOn := retrieved,
            gilded := Gilded(r.gildings), id := r.id, subreddit := r.subreddit,
            authorFlairCssClass := r.authorFlairCssClass, updateAge := retrieved - r.createdUtc,
            deleted := false, processed := false, labels := None, parentLabels := None,
            sentiment := None)
  }

  /** The rows `add_posts` creates: one per submission, in order, with the same id. */
  function IngestPosts(posts: seq<RawPost>): (rows: seq<Content>)
    ensures |rows| == |posts| && OfKind(rows, PostKind)
    ensures forall i :: 0 <= i < |rows| ==> rows[i].id == posts[i].id && Ingested(rows[i])
  {
    seq(|posts|, i requires 0 <= i < |posts| => NormalizePost(posts[i]))
  }

  /** The rows `add_comments` creates: one per comment, in order, with the same id. */
  function IngestComments(comments: seq<RawComment>): (rows: seq<Content>)
    ensures |rows| == |comments| && OfKind(rows, CommentKind)
    ensures forall i :: 0 <= i < |rows| ==> rows[i].id == comments[i].id && Ingested(rows[i])
  {
    seq(|comments|, i requires 0 <= i < |comments| => NormalizeComment(comments[i]))
  }

  /** Inserting rows with these ids succeeds: no id repeats and none is already stored. */
  predicate Insertable(rows: seq<Content>, ids: seq<string>) {
    && (forall i, j :: 0 <= i < j < |ids| ==> ids[i] != ids[j])
    && (forall i, k :: 0 <= i < |ids| && 0 <= k < |rows| ==> ids[i] != rows[k].id)
  }

  lemma InsertKeepsTable(rows: seq<Content>, added: seq<Content>, kind: Kind)
    requires UniqueIds(rows) && OfKind(rows, kind) && OfKind(added, kind)
    requires Insertable(rows, Ids(added))
    ensures UniqueIds(rows + added) && OfKind(rows + added, kind)
  {
    var all := rows + added;
    forall i, j | 0 <= i < j < |all| ensures all[i].id != all[j].id {
      if j >= |rows| && i >= |rows| {
        assert Ids(added)[i - |rows|] != Ids(added)[j - |rows|];
      } else if j >= |rows| {
        assert Ids(added)[j - |rows|] != rows[i].id;
      }
    }
  }

  /** The database behind a session: the two content tables and the ticker table. */
  class Store {
    var posts: seq<Content>
    var comments: seq<Content>
    var tickers: map<string, Ticker>

    /** Primary keys are unique, each table holds its own record type, tickers are keyed by symbol. */
    ghost predicate Valid()
      reads this
    {
      && UniqueIds(posts) && OfKind(posts, PostKind)
      && UniqueIds(comments) && OfKind(comments, CommentKind)
      && forall s :: s in tickers ==> tickers[s].symbol == s
    }

    function Rows(kind: Kind): seq<Content>
      reads this
    {
      match kind
      case PostKind => posts
      case CommentKind => comments
    }

    constructor ()
      ensures Valid() && posts == [] && comments == [] && tickers == map[]
    {
      posts, comments, tickers := [], [], map[];
    }

    /** Replaces the rows of one content table; the other tables stay as they were. */
    method SetRows(kind: Kind, rows: seq<Content>)
      requires Valid() && SameKeys(Rows(kind), rows)
      modifies this
      ensures Valid() && Rows(kind) == rows
      ensures Rows(Other(kind)) == old(Rows(Other(kind))) && tickers == old(tickers)
    {
      SameKeysKeepTable(Rows(kind), rows, kind);
      match kind
      case PostKind => posts := rows;
      case CommentKind => comments := rows;
    }
  }

  /**
   * add_posts: stores one normalised row per submission. The commit fails, and
   * nothing is stored, when an id repeats or is already present.
   */
  method AddPosts(db: Store, posts: seq<RawPost>) returns (ok: bool)
    requires db.Valid()
    modifies db
    ensures db.Valid()
    ensures ok <==> Insertable(old(db.posts), Ids(IngestPosts(posts)))
    ensures db.posts == if ok then old(db.posts) + IngestPosts(posts) else old(db.posts)
    ensures db.comments == old(db.comments) && db.tickers == old(db.tickers)
  {
    var rows := IngestPosts(posts);
    ok := Insertable(db.posts, Ids(rows));
    if ok {
      InsertKeepsTable(db.posts, rows, PostKind);
      db.posts := db.posts + rows;
    }
  }

  /**
   * add_comments: stores one normalised row per comment. The commit fails, and
   * nothing is stored, when an id repeats or is already present.
   */
  method AddComments(db: Store, comments: seq<RawComment>) returns (ok: bool)
    requires db.Valid()
    modifies db
    ensures db.Valid()
    ensures ok <==> Insertable(old(db.comments), Ids(IngestComments(comments)))
    ensures db.comments == if ok then old(db.comments) + IngestComments(comments) else old(db.comments)
    ensures db.posts == old(db.posts) && db.tickers == old(db.tickers)
  {
    var rows := IngestComments(comments);
    ok := Insertable(db.comments, Ids(rows));
    if ok {
      InsertKeepsTable(db.comments, rows, CommentKind);
      db.comments := db.comments + rows;
    }
  }
}
