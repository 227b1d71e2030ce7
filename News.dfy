/**
 * The news ingestion and digest of
 * src/infrastructure/news_and_calendar_manager.py.
 *
 * The network and the HTML parser are oracles: whether the cookie
 * warm-up request succeeds, what the listing request for a URL yields once
 * parsed, and what the (already retried) content fetch for an article link
 * yields. The `articles` table is a map keyed by its unique `link` column;
 * sleeps and content fetches are counted.
 */
module News {
  import opened Wrappers
  import Retry

  const BaseUrl: string := "https://www.investing.com/"
  const NewsPath: string := "news/forex-news"
  /** The page `get_articles_from_page` reads when called without one. */
  const DefaultPage: int := 1
  /** The page count `get_articles` walks when called without one. */
  const DefaultPageCount: int := 5
  /** The listing page the digest reads its articles from. */
  const DigestPage: int := 3
  const NewsHeader: string := "Latest news articles:\n"

  /** A row of the `articles` table (its generated `id` column aside). */
  datatype Article = Article(title: string, link: string, content: string)

  /** An economic-calendar record as the calendar provider returns it. */
  datatype EconomicCalendarEvent = EconomicCalendarEvent(
    id: string, date: string, time: string, zone: string,
    currency: Option<string>, importance: Option<string>, event: string,
    actual: Option<string>, forecast: Option<string>, previous: Option<string>)

  datatype ChatMessage = ChatMessage(role: string, content: string)

  /** The title anchor of a list item: its text, and its `href` attribute if it has one. */
  datatype Anchor = Anchor(title: string, href: Option<string>)

  /** A `<li>` of the news list: `None` when it has no title anchor. */
  type ListItem = Option<Anchor>

  /** What the listing request yields once parsed. */
  datatype Listing = RequestFailed | NoNewsList | NewsList(items: seq<ListItem>)

  /** What one article request yields once parsed: the text of the content container, if present. */
  datatype ArticlePage = ArticleRequestFailed | ArticleHtml(container: Option<string>)

  /** The table invariant: every row is filed under its own link. */
  ghost predicate StoreValid(store: map<string, Article>) {
    forall l :: l in store ==> store[l].link == l
  }

  // ---------------------------------------------------------------------------
  // Page URL

  function DigitChar(d: nat): char
    requires d < 10
  {
    (48 + d) as char
  }

  /** Python's `str(n)` for a natural number: no leading zero unless `n` is 0. */
  function DecimalString(n: nat): (s: string)
    ensures |s| >= 1
    ensures forall i :: 0 <= i < |s| ==> '0' <= s[i] <= '9'
    ensures n > 0 ==> s[0] != '0'
    decreases n
  {
    if n < 10 then [DigitChar(n)] else DecimalString(n / 10) + [DigitChar(n % 10)]
  }

  /** The number a string of decimal digits denotes. */
  function DecimalValue(s: string): nat
    requires forall i :: 0 <= i < |s| ==> '0' <= s[i] <= '9'
    decreases |s|
  {
    if s == [] then 0 else DecimalValue(s[..|s| - 1]) * 10 + (s[|s| - 1] as int - 48)
  }

  /** Reading back the decimal rendering of a page number gives the page number. */
  lemma {:induction false} DecimalRoundTrip(n: nat)
    ensures DecimalValue(DecimalString(n)) == n
  {
    if n >= 10 {
      DecimalRoundTrip(n / 10);
      var s := DecimalString(n / 10);
      assert (s + [DigitChar(n % 10)])[..|s|] == s;
    }
  }

  /** The listing URL of page 1. */
  const ListingUrl: string := BaseUrl + NewsPath

  /** The listing URL `get_articles_from_page` requests for `page`. */
  function PageUrl(page: int): (url: string)
    ensures page <= 1 <==> url == ListingUrl
    ensures page > 1 ==> PageNumberOf(url) == Some(page)
  {
    if page > 1 then
      var digits := DecimalString(page);
      DecimalRoundTrip(page);
      assert (ListingUrl + "/" + digits)[|ListingUrl| + 1..] == digits;
      ListingUrl + "/" + digits
    else ListingUrl
  }

  /**
   * The page number a listing URL carries after `ListingUrl + "/"`, if it
   * carries one: decimal digits without a leading zero, as `str` writes a
   * positive number.
   */
  function PageNumberOf(url: string): Option<int> {
    var n := |ListingUrl| + 1;
    if |url| > n && url[..n] == ListingUrl + "/" && url[n] != '0'
       && forall i :: n <= i < |url| ==> '0' <= url[i] <= '9'
    then Some(DecimalValue(url[n..]))
    else None
  }

  /** Called without a page number, the page function reads the bare listing URL. */
  lemma DefaultPageUrl()
    ensures PageUrl(DefaultPage) == ListingUrl
  {
  }

  /** Distinct pages from 1 on are requested at distinct URLs. */
  lemma PageUrlDistinct(p: int, q: int)
    requires 1 <= p && 1 <= q && p != q
    ensures PageUrl(p) != PageUrl(q)
  {
  }

  // ---------------------------------------------------------------------------
  // Listing items

  /** The title and link of an item the loop keeps: it has a title anchor with a non-empty `href`. */
  function Entry(item: ListItem): (e: Option<(string, string)>)
    ensures e.Some? <==> item.Some? && item.value.href.Some? && item.value.href.value != ""
    ensures e.Some? ==> e.value == (item.value.title, item.value.href.value)
  {
    match item
    case None => None
    case Some(a) => if a.href.None? || a.href.value == "" then None else Some((a.title, a.href.value))
  }

  /** The (title, link) pairs of the kept items, in listing order. */
  function Kept(items: seq<ListItem>): seq<(string, string)>
    decreases |items|
  {
    if items == [] then []
    else match Entry(items[0])
      case None => Kept(items[1..])
      case Some(e) => [e] + Kept(items[1..])
  }

  /** The title of the first kept pair with link `link`: the one a new row is written with. */
  function FirstTitle(kept: seq<(string, string)>, link: string): string
    decreases |kept|
  {
    if kept == [] then ""
    else if kept[0].1 == link then kept[0].0
    else FirstTitle(kept[1..], link)
  }

  /** The links of the kept items, in listing order. */
  function Links(items: seq<ListItem>): seq<string>
    decreases |items|
  {
    if items == [] then []
    else match Entry(items[0])
      case None => Links(items[1..])
      case Some(e) => [e.1] + Links(items[1..])
  }

  /** The stored article of each link. */
  function Lookup(store: map<string, Article>, links: seq<string>): (r: seq<Article>)
    requires forall l :: l in links ==> l in store
    ensures |r| == |links|
    decreases |links|
  {
    if links == [] then [] else [store[links[0]]] + Lookup(store, links[1..])
  }

  predicate NoDup(s: seq<string>) {
    forall i, j :: 0 <= i < j < |s| ==> s[i] != s[j]
  }

  // ---------------------------------------------------------------------------
  // The ingestion loop, as a specification

  /** The state of the `for li` loop: articles returned so far, the table, and the links fetched so far. */
  datatype Ingestion = Ingestion(articles: seq<Article>, store: map<string, Article>, fetched: seq<string>)

  /** One iteration of the `for li` loop. */
  function Step(acc: Ingestion, item: ListItem, content: string -> Option<string>): (next: Ingestion)
    ensures |next.articles| == |acc.articles| + (if Entry(item).Some? then 1 else 0)
    ensures next.articles[..|acc.articles|] == acc.articles
    ensures forall l :: l in acc.store ==> l in next.store && next.store[l] == acc.store[l]
    ensures Entry(item).Some? ==>
      Entry(item).value.1 in next.store && next.articles[|acc.articles|] == next.store[Entry(item).value.1]
  {
    match Entry(item)
    case None => acc
    case Some((title, link)) =>
      if link in acc.store then
        Ingestion(acc.articles + [acc.store[link]], acc.store, acc.fetched)
      else
        var article := Article(title, link, content(link).GetOr(""));
        Ingestion(acc.articles + [article], acc.store[link := article], acc.fetched + [link])
  }

  /** The loop run over `items` from state `acc`. */
  function IngestFrom(acc: Ingestion, items: seq<ListItem>, content: string -> Option<string>): Ingestion
    decreases |items|
  {
    if items == [] then acc else IngestFrom(Step(acc, items[0], content), items[1..], content)
  }

  /** The loop over a parsed news list, against the table `store`. */
  function Ingest(store: map<string, Article>, items: seq<ListItem>, content: string -> Option<string>): (r: Ingestion)
    ensures |r.articles| == |Links(items)|
    ensures forall l :: l in store ==> l in r.store && r.store[l] == store[l]
  {
    var acc := Ingestion([], store, []);
    IngestFromArticles(acc, items, content);
    IngestFromStore(acc, items, content);
    IngestFrom(acc, items, content)
  }

  /** Stored rows are never changed, and the rows afterwards are the old ones plus the kept links. */
  lemma {:induction false} IngestFromStore(acc: Ingestion, items: seq<ListItem>, content: string -> Option<string>)
    ensures var r := IngestFrom(acc, items, content);
      && (forall l :: l in acc.store ==> l in r.store && r.store[l] == acc.store[l])
      && (forall l :: l in r.store <==> l in acc.store || l in Links(items))
    decreases |items|
  {
    if items != [] {
      IngestFromStore(Step(acc, items[0], content), items[1..], content);
    }
  }

  /** The articles returned are the final rows of the kept links, in listing order. */
  lemma {:induction false} IngestFromArticles(acc: Ingestion, items: seq<ListItem>, content: string -> Option<string>)
    ensures var r := IngestFrom(acc, items, content);
      && (forall l :: l in Links(items) ==> l in r.store)
      && r.articles == acc.articles + Lookup(r.store, Links(items))
    decreases |items|
  {
    IngestFromStore(acc, items, content);
    if items != [] {
      var next := Step(acc, items[0], content);
      var r := IngestFrom(acc, items, content);
      IngestFromArticles(next, items[1..], content);
      IngestFromStore(next, items[1..], content);
      match Entry(items[0])
      case None =>
      case Some((title, link)) =>
        assert Links(items) == [link] + Links(items[1..]);
        assert link in next.store;
        assert next.articles == acc.articles + [next.store[link]];
        assert Lookup(r.store, Links(items)) == [r.store[link]] + Lookup(r.store, Links(items[1..]));
    }
  }

  /** New rows carry their own link, a title the listing gave for it, and the fetched content or `""`. */
  lemma {:induction false} IngestFromNewRows(acc: Ingestion, items: seq<ListItem>, content: string -> Option<string>)
    ensures var r := IngestFrom(acc, items, content);
      forall l :: l in r.store && l !in acc.store ==>
        && r.store[l].link == l
        && r.store[l].content == content(l).GetOr("")
        && r.store[l].title == FirstTitle(Kept(items), l)
    decreases |items|
  {
    if items != [] {
      var next := Step(acc, items[0], content);
      IngestFromNewRows(next, items[1..], content);
      IngestFromStore(next, items[1..], content);
      var r := IngestFrom(acc, items, content);
      match Entry(items[0])
      case None =>
        assert Kept(items) == Kept(items[1..]);
      case Some((title, link)) =>
        var kept := Kept(items);
        assert kept == [(title, link)] + Kept(items[1..]);
        assert kept[1..] == Kept(items[1..]);
        forall l | l in r.store && l !in acc.store
          ensures r.store[l].title == FirstTitle(kept, l)
        {
          if l != link {
            assert l !in next.store;
          }
        }
    }
  }

  /** Content is fetched once for each kept link missing from the table. */
  lemma {:induction false} IngestFromFetches(acc: Ingestion, items: seq<ListItem>, content: string -> Option<string>)
    ensures var r := IngestFrom(acc, items, content);
      && |acc.fetched| <= |r.fetched|
      && r.fetched[..|acc.fetched|] == acc.fetched
      && NoDup(r.fetched[|acc.fetched|..])
      && (forall l :: l in r.fetched[|acc.fetched|..] <==> l in Links(items) && l !in acc.store)
    decreases |items|
  {
    if items != [] {
      var next := Step(acc, items[0], content);
      var r := IngestFrom(acc, items, content);
      assert r == IngestFrom(next, items[1..], content);
      IngestFromFetches(next, items[1..], content);
      match Entry(items[0])
      case None =>
        assert next == acc;
        assert Links(items) == Links(items[1..]);
      case Some((title, link)) =>
        var rest := Links(items[1..]);
        assert Links(items) == [link] + rest;
        if link in acc.store {
          assert next == Ingestion(acc.articles + [acc.store[link]], acc.store, acc.fetched);
        } else {
          var article := Article(title, link, content(link).GetOr(""));
          assert next == Ingestion(acc.articles + [article], acc.store[link := article], acc.fetched + [link]);
          var later := r.fetched[|next.fetched|..];
          assert r.fetched[..|acc.fetched|] == r.fetched[..|next.fetched|][..|acc.fetched|];
          assert r.fetched[|acc.fetched|..] == [link] + later;
          assert link !in later;
        }
    }
  }

  /** Each fetch adds one row: the table grows by the number of links fetched. */
  lemma {:induction false} IngestFromStoreSize(acc: Ingestion, items: seq<ListItem>, content: string -> Option<string>)
    ensures var r := IngestFrom(acc, items, content);
      |r.store| == |acc.store| + |r.fetched| - |acc.fetched|
    decreases |items|
  {
    if items != [] {
      var next := Step(acc, items[0], content);
      assert IngestFrom(acc, items, content) == IngestFrom(next, items[1..], content);
      IngestFromStoreSize(next, items[1..], content);
      match Entry(items[0])
      case None =>
      case Some((title, link)) =>
        if link !in acc.store {
          var article := Article(title, link, content(link).GetOr(""));
          assert next == Ingestion(acc.articles + [article], acc.store[link := article], acc.fetched + [link]);
          assert |next.store| == |acc.store| + 1;
        }
    }
  }

  /** An item whose link is stored only appends the stored row. */
  lemma StepOnStoredLink(acc: Ingestion, item: ListItem, content: string -> Option<string>)
    requires Entry(item).Some? && Entry(item).value.1 in acc.store
    ensures Step(acc, item, content) == Ingestion(acc.articles + [acc.store[Entry(item).value.1]], acc.store, acc.fetched)
  {
  }

  /** When every kept link is already stored, the loop fetches nothing, stores nothing and returns the stored rows. */
  lemma {:induction false} IngestFromAllHits(acc: Ingestion, items: seq<ListItem>, content: string -> Option<string>)
    requires forall l :: l in Links(items) ==> l in acc.store
    ensures IngestFrom(acc, items, content) == Ingestion(acc.articles + Lookup(acc.store, Links(items)), acc.store, acc.fetched)
    decreases |items|
  {
    if items != [] {
      var next := Step(acc, items[0], content);
      assert IngestFrom(acc, items, content) == IngestFrom(next, items[1..], content);
      var rest := Links(items[1..]);
      if Entry(items[0]).None? {
        assert Links(items) == rest;
        IngestFromAllHits(next, items[1..], content);
      } else {
        var link := Entry(items[0]).value.1;
        assert Links(items) == [link] + rest;
        StepOnStoredLink(acc, items[0], content);
        var row := acc.store[link];
        IngestFromAllHits(next, items[1..], content);
        calc {
          next.articles + Lookup(acc.store, rest);
          acc.articles + [row] + Lookup(acc.store, rest);
          acc.articles + ([row] + Lookup(acc.store, rest));
          { assert ([link] + rest)[1..] == rest; }
          acc.articles + Lookup(acc.store, Links(items));
        }
      }
    }
  }

  lemma {:induction false} DistinctCard(s: seq<string>)
    requires NoDup(s)
    ensures |set l | l in s| == |s|
  {
    if s != [] {
      DistinctCard(s[1..]);
      assert (set l | l in s) == {s[0]} + (set l | l in s[1..]);
    }
  }

  /**
   * One article per kept item, in listing order, each the row stored under
   * its link; a link already in the table gives the stored row and is not
   * fetched.
   */
  lemma IngestReturnsStoredRows(store: map<string, Article>, items: seq<ListItem>, content: string -> Option<string>)
    requires StoreValid(store)
    ensures var r := Ingest(store, items, content);
      && |r.articles| == |Links(items)|
      && (forall j :: 0 <= j < |r.articles| ==> r.articles[j].link == Links(items)[j])
      && (forall j :: 0 <= j < |r.articles| ==> Links(items)[j] in r.store && r.articles[j] == r.store[Links(items)[j]])
      && (forall j :: 0 <= j < |r.articles| && Links(items)[j] in store ==>
            r.articles[j] == store[Links(items)[j]] && Links(items)[j] !in r.fetched)
  {
    var acc := Ingestion([], store, []);
    var r := Ingest(store, items, content);
    IngestFromArticles(acc, items, content);
    IngestFromStore(acc, items, content);
    IngestFromNewRows(acc, items, content);
    IngestFromFetches(acc, items, content);
    forall j | 0 <= j < |r.articles|
      ensures r.articles[j] == r.store[Links(items)[j]]
    {
      LookupAt(r.store, Links(items), j);
    }
    assert r.fetched[|acc.fetched|..] == r.fetched;
  }

  lemma {:induction false} LookupAt(store: map<string, Article>, links: seq<string>, j: nat)
    requires forall l :: l in links ==> l in store
    requires j < |links|
    ensures Lookup(store, links)[j] == store[links[j]]
    decreases |links|
  {
    if j > 0 {
      LookupAt(store, links[1..], j - 1);
    }
  }

  /**
   * The table afterwards is the old table plus exactly the kept links it
   * lacked, old rows unchanged; each new row has its link, the fetched
   * content or `""`, and the title of the first item listing that link.
   */
  lemma IngestInsertsNewLinks(store: map<string, Article>, items: seq<ListItem>, content: string -> Option<string>)
    requires StoreValid(store)
    ensures var r := Ingest(store, items, content);
      && StoreValid(r.store)
      && r.store.Keys == store.Keys + (set l | l in Links(items))
      && (forall l :: l in store ==> r.store[l] == store[l])
      && (forall l :: l in r.store && l !in store ==>
            r.store[l] == Article(FirstTitle(Kept(items), l), l, content(l).GetOr("")))
  {
    var acc := Ingestion([], store, []);
    var r := Ingest(store, items, content);
    IngestFromStore(acc, items, content);
    IngestFromNewRows(acc, items, content);
    assert r.store.Keys == store.Keys + (set l | l in Links(items));
  }

  /**
   * One content fetch per distinct kept link missing from the table: a link
   * repeated on the page is fetched once.
   */
  lemma IngestFetchesEachNewLinkOnce(store: map<string, Article>, items: seq<ListItem>, content: string -> Option<string>)
    ensures var r := Ingest(store, items, content);
      && NoDup(r.fetched)
      && (set l | l in r.fetched) == (set l | l in Links(items)) - store.Keys
      && |r.fetched| == |(set l | l in Links(items)) - store.Keys|
  {
    var acc := Ingestion([], store, []);
    var r := Ingest(store, items, content);
    IngestFromFetches(acc, items, content);
    assert r.fetched[|acc.fetched|..] == r.fetched;
    assert (set l | l in r.fetched) == (set l | l in Links(items)) - store.Keys;
    DistinctCard(r.fetched);
  }

  /** One insert per fetch: the table grows by exactly the number of links fetched. */
  lemma IngestInsertsOnePerFetch(store: map<string, Article>, items: seq<ListItem>, content: string -> Option<string>)
    ensures var r := Ingest(store, items, content);
      |r.store| == |store| + |r.fetched|
  {
    IngestFromStoreSize(Ingestion([], store, []), items, content);
  }

  /** Running the loop again on the same listing against the table it produced fetches nothing, stores nothing and returns the same articles. */
  lemma IngestIdempotent(store: map<string, Article>, items: seq<ListItem>, content: string -> Option<string>, content2: string -> Option<string>)
    ensures var r := Ingest(store, items, content);
      Ingest(r.store, items, content2) == Ingestion(r.articles, r.store, [])
  {
    var acc := Ingestion([], store, []);
    var r := Ingest(store, items, content);
    IngestFromArticles(acc, items, content);
    IngestFromAllHits(Ingestion([], r.store, []), items, content2);
  }

  /** Three list items, the middle one without a title anchor: two articles, in listing order. */
  lemma ThreeItemListing(title1: string, link1: string, title3: string, link3: string, content: string -> Option<string>)
    requires link1 != "" && link3 != "" && link1 != link3
    ensures var items := [Some(Anchor(title1, Some(link1))), None, Some(Anchor(title3, Some(link3)))];
      var r := Ingest(map[], items, content);
      r.articles == [Article(title1, link1, content(link1).GetOr("")), Article(title3, link3, content(link3).GetOr(""))]
  {
    var items: seq<ListItem> := [Some(Anchor(title1, Some(link1))), None, Some(Anchor(title3, Some(link3)))];
    var a1 := Article(title1, link1, content(link1).GetOr(""));
    var a3 := Article(title3, link3, content(link3).GetOr(""));
    var s0 := Ingestion([], map[], []);
    var s1 := Ingestion([a1], map[link1 := a1], [link1]);
    var s3 := Ingestion([a1, a3], map[link1 := a1][link3 := a3], [link1, link3]);
    assert Step(s0, items[0], content) == s1;
    assert Step(s1, items[1], content) == s1;
    assert Step(s1, items[2], content) == s3;
    assert items[1..][1..][1..] == [];
    assert IngestFrom(s0, items, content) == IngestFrom(s1, items[1..], content);
    assert IngestFrom(s1, items[1..], content) == IngestFrom(s1, items[1..][1..], content);
    assert IngestFrom(s1, items[1..][1..], content) == IngestFrom(s3, items[1..][1..][1..], content);
  }

  // ---------------------------------------------------------------------------
  // Pages

  /**
   * `get_articles_from_page` as a specification: nothing is returned or
   * stored when the warm-up request fails, when the listing request fails
   * or when the page has no news list.
   */
  function PageIngestion(store: map<string, Article>, page: int, cookiesOk: bool,
                         site: string -> Listing, content: string -> Option<string>): (r: Ingestion)
    ensures forall l :: l in store ==> l in r.store && r.store[l] == store[l]
  {
    if !cookiesOk then Ingestion([], store, [])
    else match site(PageUrl(page))
      case NewsList(items) => Ingest(store, items, content)
      case _ => Ingestion([], store, [])
  }

  /** A failed warm-up, a failed listing request or a page without a news list gives an empty list and leaves the table alone. */
  lemma PageFailureIsEmpty(store: map<string, Article>, page: int, cookiesOk: bool,
                           site: string -> Listing, content: string -> Option<string>)
    requires !cookiesOk || !site(PageUrl(page)).NewsList?
    ensures PageIngestion(store, page, cookiesOk, site, content) == Ingestion([], store, [])
  {
  }

  /**
   * The page function always returns a list, never `None`, so the retry
   * decorator around it returns its first result, even an empty list,
   * after one call and no sleep.
   */
  lemma PageNeverRetried(store: map<string, Article>, page: int, cookiesOk: bool,
                         site: string -> Listing, content: string -> Option<string>,
                         later: seq<Option<seq<Article>>>)
    requires |later| >= 2
    ensures var first := PageIngestion(store, page, cookiesOk, site, content).articles;
      Retry.Retried([Some(first)] + later, Retry.Attempts(Retry.DefaultMaxAttempts)) == Retry.Run(Some(first), 1, 0)
  {
    var first := PageIngestion(store, page, cookiesOk, site, content).articles;
    Retry.ValueReturnedAtOnce(first, later, Retry.DefaultMaxAttempts);
  }

  /** The state of the page loop of `get_articles`. */
  datatype PagesRun = PagesRun(pages: seq<seq<Article>>, store: map<string, Article>, fetched: seq<string>)

  /** The page loop from `page` to `last`. */
  function PagesFrom(acc: PagesRun, page: int, last: int, cookiesOk: int -> bool,
                     site: string -> Listing, content: string -> Option<string>): PagesRun
    decreases if page <= last then last - page + 1 else 0
  {
    if page > last then acc
    else
      var p := PageIngestion(acc.store, page, cookiesOk(page), site, content);
      PagesFrom(PagesRun(acc.pages + [p.articles], p.store, acc.fetched + p.fetched), page + 1, last, cookiesOk, site, content)
  }

  /** `get_articles(page_count)` as a specification: pages 1 to `page_count`, in order. */
  function Pages(store: map<string, Article>, pageCount: int, cookiesOk: int -> bool,
                 site: string -> Listing, content: string -> Option<string>): (r: PagesRun)
    ensures |r.pages| == if pageCount <= 0 then 0 else pageCount
    ensures pageCount <= 0 ==> r == PagesRun([], store, [])
  {
    PagesFromCount(PagesRun([], store, []), 1, pageCount, cookiesOk, site, content);
    PagesFrom(PagesRun([], store, []), 1, pageCount, cookiesOk, site, content)
  }

  /** Running the page loop to `mid` and then on to `last` is running it to `last`. */
  lemma {:induction false} PagesFromSplit(acc: PagesRun, page: int, mid: int, last: int, cookiesOk: int -> bool,
                                          site: string -> Listing, content: string -> Option<string>)
    requires page - 1 <= mid <= last
    ensures PagesFrom(acc, page, last, cookiesOk, site, content)
         == PagesFrom(PagesFrom(acc, page, mid, cookiesOk, site, content), mid + 1, last, cookiesOk, site, content)
    decreases mid - page + 1
  {
    if page <= mid {
      var p := PageIngestion(acc.store, page, cookiesOk(page), site, content);
      PagesFromSplit(PagesRun(acc.pages + [p.articles], p.store, acc.fetched + p.fetched), page + 1, mid, last, cookiesOk, site, content);
    }
  }

  /** The page loop adds one list per page, empty pages included. */
  lemma {:induction false} PagesFromCount(acc: PagesRun, page: int, last: int, cookiesOk: int -> bool,
                                          site: string -> Listing, content: string -> Option<string>)
    ensures var r := PagesFrom(acc, page, last, cookiesOk, site, content);
      |r.pages| == |acc.pages| + (if page <= last then last - page + 1 else 0) && r.pages[..|acc.pages|] == acc.pages
    decreases if page <= last then last - page + 1 else 0
  {
    if page <= last {
      var p := PageIngestion(acc.store, page, cookiesOk(page), site, content);
      var next := PagesRun(acc.pages + [p.articles], p.store, acc.fetched + p.fetched);
      PagesFromCount(next, page + 1, last, cookiesOk, site, content);
      var r := PagesFrom(acc, page, last, cookiesOk, site, content);
      assert r.pages[..|acc.pages|] == r.pages[..|next.pages|][..|acc.pages|];
    }
  }

  /**
   * `get_articles(n)` returns max(n, 0) lists, and list k is page k + 1
   * read against the table the first k pages left.
   */
  lemma PagesInOrder(store: map<string, Article>, pageCount: int, cookiesOk: int -> bool,
                     site: string -> Listing, content: string -> Option<string>, k: nat)
    requires k < pageCount
    ensures var r := Pages(store, pageCount, cookiesOk, site, content);
      var before := Pages(store, k, cookiesOk, site, content);
      && |r.pages| == pageCount
      && r.pages[..k] == before.pages
      && r.pages[k] == PageIngestion(before.store, k + 1, cookiesOk(k + 1), site, content).articles
  {
    var acc := PagesRun([], store, []);
    var before := Pages(store, k, cookiesOk, site, content);
    PagesFromSplit(acc, 1, k, pageCount, cookiesOk, site, content);
    PagesFromCount(acc, 1, k, cookiesOk, site, content);
    var p := PageIngestion(before.store, k + 1, cookiesOk(k + 1), site, content);
    var next := PagesRun(before.pages + [p.articles], p.store, before.fetched + p.fetched);
    PagesFromCount(next, k + 2, pageCount, cookiesOk, site, content);
    PagesFromCount(acc, 1, pageCount, cookiesOk, site, content);
    var r := Pages(store, pageCount, cookiesOk, site, content);
    assert r.pages[..k] == r.pages[..k + 1][..k];
  }

  /** Called without a page count, `get_articles` reads pages 1 to 5, in order. */
  lemma DefaultPages(store: map<string, Article>, cookiesOk: int -> bool,
                     site: string -> Listing, content: string -> Option<string>)
    ensures var r := Pages(store, DefaultPageCount, cookiesOk, site, content);
      && |r.pages| == 5
      && r.pages[0] == PageIngestion(store, 1, cookiesOk(1), site, content).articles
  {
    PagesInOrder(store, DefaultPageCount, cookiesOk, site, content, 0);
  }

  // ---------------------------------------------------------------------------
  // Article content

  /**
   * One attempt of `get_article_content`: the text of the content
   * container, or `None` when the warm-up or the article request fails or
   * the page has no content container.
   */
  function ArticleContent(cookiesOk: bool, page: ArticlePage): (text: Option<string>)
    ensures text.Some? <==> cookiesOk && page.ArticleHtml? && page.container.Some?
    ensures text.Some? ==> page.ArticleHtml? && text == page.container
  {
    if !cookiesOk then None
    else match page
      case ArticleRequestFailed => None
      case ArticleHtml(container) => container
  }

  /**
   * The content stored for a new link when the retried fetch gives up: the
   * three attempts all fail, so the row is written with `""`.
   */
  lemma MissingContentStoredEmpty(attempts: seq<(bool, ArticlePage)>)
    requires |attempts| == 3
    requires forall i :: 0 <= i < 3 ==> !attempts[i].0 || !attempts[i].1.ArticleHtml? || attempts[i].1.container.None?
    ensures var outcomes := seq(3, i requires 0 <= i < 3 => ArticleContent(attempts[i].0, attempts[i].1));
      var run := Retry.Retried(outcomes, Retry.Attempts(Retry.DefaultMaxAttempts));
      run.result.GetOr("") == "" && run.calls == 3 && run.sleeps == 3
  {
    var outcomes := seq(3, i requires 0 <= i < 3 => ArticleContent(attempts[i].0, attempts[i].1));
    Retry.RetriedExhausted(outcomes, 3);
  }

  // ---------------------------------------------------------------------------
  // Digest

  /** One line of the news message. */
  function NewsLine(a: Article): string {
    "- " + a.title + ": " + a.content
  }

  function NewsLines(articles: seq<Article>): (lines: seq<string>)
    ensures |lines| == |articles|
    ensures forall i :: 0 <= i < |articles| ==> lines[i] == NewsLine(articles[i])
    decreases |articles|
  {
    if articles == [] then [] else [NewsLine(articles[0])] + NewsLines(articles[1..])
  }

  /** Python's `sep.join(parts)` for a one-character separator. */
  function Join(sep: char, parts: seq<string>): string
    decreases |parts|
  {
    if parts == [] then "" else if |parts| == 1 then parts[0] else parts[0] + [sep] + Join(sep, parts[1..])
  }

  /** Splits `s` at each `sep`, `line` being the part of the current line already read. */
  function SplitFrom(sep: char, s: string, line: string): seq<string>
    decreases |s|
  {
    if s == [] then [line]
    else if s[0] == sep then [line] + SplitFrom(sep, s[1..], "")
    else SplitFrom(sep, s[1..], line + [s[0]])
  }

  /** Python's `s.split(sep)` for a one-character separator: the inverse of `Join`. */
  function Split(sep: char, s: string): seq<string> {
    SplitFrom(sep, s, "")
  }

  lemma {:induction false} SplitFromNoSeparator(sep: char, s: string, line: string)
    requires sep !in s
    ensures SplitFrom(sep, s, line) == [line + s]
    decreases |s|
  {
    if s != [] {
      assert s[0] in s;
      assert SplitFrom(sep, s, line) == SplitFrom(sep, s[1..], line + [s[0]]);
      SplitFromNoSeparator(sep, s[1..], line + [s[0]]);
      assert line + [s[0]] + s[1..] == line + s;
    } else {
      assert line + s == line;
    }
  }

  lemma {:induction false} SplitFromAtSeparator(sep: char, x: string, y: string, line: string)
    ensures SplitFrom(sep, x + [sep] + y, line) == SplitFrom(sep, x, line) + SplitFrom(sep, y, "")
    decreases |x|
  {
    var s := x + [sep] + y;
    if x == [] {
      assert s[0] == sep && s[1..] == y;
    } else {
      assert s[0] == x[0] && s[1..] == x[1..] + [sep] + y;
      if x[0] == sep {
        SplitFromAtSeparator(sep, x[1..], y, "");
      } else {
        SplitFromAtSeparator(sep, x[1..], y, line + [x[0]]);
      }
    }
  }

  lemma SplitNoSeparator(sep: char, s: string)
    requires sep !in s
    ensures Split(sep, s) == [s]
  {
    SplitFromNoSeparator(sep, s, "");
    assert "" + s == s;
  }

  lemma SplitAtSeparator(sep: char, x: string, y: string)
    ensures Split(sep, x + [sep] + y) == Split(sep, x) + Split(sep, y)
  {
    SplitFromAtSeparator(sep, x, y, "");
  }

  /** Splitting joined parts that do not contain the separator gives the parts back. */
  lemma {:induction false} SplitJoin(sep: char, parts: seq<string>)
    requires parts != []
    requires forall p :: p in parts ==> sep !in p
    ensures Split(sep, Join(sep, parts)) == parts
    decreases |parts|
  {
    var first := parts[0];
    assert first in parts;
    SplitNoSeparator(sep, first);
    if |parts| > 1 {
      var rest := parts[1..];
      assert forall p :: p in rest ==> p in parts;
      SplitJoin(sep, rest);
      assert Join(sep, parts) == first + [sep] + Join(sep, rest);
      SplitAtSeparator(sep, first, Join(sep, rest));
      assert parts == [first] + rest;
    }
  }

  /** The news message: a header line followed by one line per article. */
  function NewsMessage(articles: seq<Article>): (message: string)
    ensures |message| >= |NewsHeader| && message[..|NewsHeader|] == NewsHeader
    ensures articles == [] <==> message == NewsHeader
  {
    NewsHeader + Join('\n', NewsLines(articles))
  }

  /** Python truthiness of the calendar result: `None` and an empty collection are falsy. */
  function CalendarTruthy(calendar: Option<seq<EconomicCalendarEvent>>): (truthy: bool)
    ensures calendar == None ==> !truthy
    ensures calendar == Some([]) ==> !truthy
    ensures calendar.Some? && calendar.value != [] ==> truthy
  {
    calendar.Some? && |calendar.value| > 0
  }

  function CalendarMessage(fromDate: string, toDate: string, rendered: string): string {
    "Economic Calendar Events from " + fromDate + " to " + toDate + ": " + rendered
  }

  /**
   * The messages `get_context_news_and_economic_calendar` assembles:
   * `render` is Python's rendering of the calendar result.
   */
  function Digest(calendar: Option<seq<EconomicCalendarEvent>>, render: seq<EconomicCalendarEvent> -> string,
                  fromDate: string, toDate: string, articles: seq<Article>): (messages: seq<ChatMessage>)
    ensures |messages| == if CalendarTruthy(calendar) then 2 else 1
    ensures forall i :: 0 <= i < |messages| ==> messages[i].role == "user"
    ensures messages[|messages| - 1].content == NewsMessage(articles)
    ensures CalendarTruthy(calendar) ==> messages[0].content == CalendarMessage(fromDate, toDate, render(calendar.value))
  {
    var news := ChatMessage("user", NewsMessage(articles));
    if CalendarTruthy(calendar) then
      [ChatMessage("user", CalendarMessage(fromDate, toDate, render(calendar.value))), news]
    else [news]
  }

  lemma NewsLineUnbroken(a: Article)
    requires '\n' !in a.title && '\n' !in a.content
    ensures '\n' !in NewsLine(a)
  {
    var prefix, middle := "- ", ": ";
    assert '\n' !in prefix && '\n' !in middle;
    assert NewsLine(a) == prefix + a.title + middle + a.content;
  }

  lemma NewsLinesUnbroken(articles: seq<Article>)
    requires forall a :: a in articles ==> '\n' !in a.title && '\n' !in a.content
    ensures forall p :: p in NewsLines(articles) ==> '\n' !in p
  {
    var lines := NewsLines(articles);
    forall p | p in lines
      ensures '\n' !in p
    {
      var i :| 0 <= i < |lines| && lines[i] == p;
      assert articles[i] in articles;
      NewsLineUnbroken(articles[i]);
    }
  }

  /** A header line followed by joined lines splits back into the header and the lines. */
  lemma SplitHeaderedLines(header: string, lines: seq<string>)
    requires '\n' !in header && lines != []
    requires forall p :: p in lines ==> '\n' !in p
    ensures Split('\n', header + ['\n'] + Join('\n', lines)) == [header] + lines
  {
    SplitJoin('\n', lines);
    SplitNoSeparator('\n', header);
    SplitAtSeparator('\n', header, Join('\n', lines));
  }

  /**
   * Read line by line, the news message is its header and then one
   * `- title: content` line per article, in order, provided no title or
   * content holds a line break; with no articles it is the header alone.
   */
  lemma NewsMessageLines(articles: seq<Article>)
    requires forall a :: a in articles ==> '\n' !in a.title && '\n' !in a.content
    ensures articles == [] ==> NewsMessage(articles) == NewsHeader
    ensures articles != [] ==> Split('\n', NewsMessage(articles)) == ["Latest news articles:"] + NewsLines(articles)
  {
    if articles != [] {
      var title := "Latest news articles:";
      NewsLinesUnbroken(articles);
      assert NewsHeader == title + ['\n'];
      SplitHeaderedLines(title, NewsLines(articles));
    }
  }

  // ---------------------------------------------------------------------------
  // The manager

  /** `NewsAndCalendarManager`, with the `articles` table it reads and writes. */
  class NewsManager {
    /** The `articles` table, by its unique `link` column. */
    var store: map<string, Article>
    /** The links whose content was fetched, in order. */
    var fetched: seq<string>
    /** Rows inserted. */
    var inserts: nat
    /** Five-second politeness sleeps taken, one after each insert. */
    var sleeps: nat

    ghost predicate Valid()
      reads this
    {
      StoreValid(store)
    }

    constructor (table: map<string, Article>)
      requires StoreValid(table)
      ensures Valid()
      ensures store == table && fetched == [] && inserts == 0 && sleeps == 0
    {
      store := table;
      fetched := [];
      inserts := 0;
      sleeps := 0;
    }

    /**
     * `get_articles_from_page(page)`: the articles of one listing page.
     * Each new link is fetched once, inserted, and followed by one sleep.
     */
    method GetArticlesFromPage(page: int, cookiesOk: bool, site: string -> Listing, content: string -> Option<string>)
      returns (articles: seq<Article>)
      requires Valid()
      modifies this
      ensures Valid()
      ensures var r := PageIngestion(old(store), page, cookiesOk, site, content);
        && articles == r.articles
        && store == r.store
        && fetched == old(fetched) + r.fetched
        && inserts == old(inserts) + |r.fetched|
        && sleeps == old(sleeps) + |r.fetched|
    {
      articles := [];
      if !cookiesOk {
        return;
      }
      var url := PageUrl(page);
      var response := site(url);
      if !response.NewsList? {
        return;
      }
      var items := response.items;
      ghost var newLinks: seq<string> := [];
      for i := 0 to |items|
        invariant StoreValid(store)
        invariant IngestFrom(Ingestion(articles, store, newLinks), items[i..], content) == Ingest(old(store), items, content)
        invariant fetched == old(fetched) + newLinks
        invariant inserts == old(inserts) + |newLinks| && sleeps == old(sleeps) + |newLinks|
      {
        ghost var acc := Ingestion(articles, store, newLinks);
        assert items[i..][1..] == items[i + 1..];
        var item := items[i];
        if item.None? {
          continue;
        }
        var title := item.value.title;
        var link := item.value.href;
        if link.None? || link.value == "" {
          continue;
        }
        if link.value !in store {
          var body := content(link.value);
          fetched := fetched + [link.value];
          var article := Article(title, link.value, body.GetOr(""));
          store := store[link.value := article];
          inserts := inserts + 1;
          sleeps := sleeps + 1;
          newLinks := newLinks + [link.value];
          articles := articles + [article];
        } else {
          articles := articles + [store[link.value]];
        }
        assert Ingestion(articles, store, newLinks) == Step(acc, item, content);
      }
    }

    /** `get_articles(page_count)`: pages 1 to `page_count`, in order, one list per page. */
    method GetArticles(pageCount: int, cookiesOk: int -> bool, site: string -> Listing, content: string -> Option<string>)
      returns (allArticles: seq<seq<Article>>)
      requires Valid()
      modifies this
      ensures Valid()
      ensures var r := Pages(old(store), pageCount, cookiesOk, site, content);
        && allArticles == r.pages
        && store == r.store
        && fetched == old(fetched) + r.fetched
        && inserts == old(inserts) + |r.fetched|
        && sleeps == old(sleeps) + |r.fetched|
      ensures |allArticles| == if pageCount <= 0 then 0 else pageCount
    {
      allArticles := [];
      ghost var newLinks: seq<string> := [];
      ghost var spec := Pages(store, pageCount, cookiesOk, site, content);
      var pageNumber := 1;
      while pageNumber <= pageCount
        invariant Valid()
        invariant PagesFrom(PagesRun(allArticles, store, newLinks), pageNumber, pageCount, cookiesOk, site, content) == spec
        invariant fetched == old(fetched) + newLinks
        invariant inserts == old(inserts) + |newLinks| && sleeps == old(sleeps) + |newLinks|
        decreases pageCount - pageNumber
      {
        ghost var p := PageIngestion(store, pageNumber, cookiesOk(pageNumber), site, content);
        var pageArticles := GetArticlesFromPage(pageNumber, cookiesOk(pageNumber), site, content);
        newLinks := newLinks + p.fetched;
        allArticles := allArticles + [pageArticles];
        pageNumber := pageNumber + 1;
      }
    }

    /**
     * `get_context_news_and_economic_calendar`: the calendar result for the
     * window, and the articles of listing page 3, as chat messages.
     */
    method GetContextNewsAndEconomicCalendar(fromDate: string, toDate: string,
                                             calendar: Option<seq<EconomicCalendarEvent>>,
                                             render: seq<EconomicCalendarEvent> -> string,
                                             cookiesOk: bool, site: string -> Listing,
                                             content: string -> Option<string>)
      returns (messages: seq<ChatMessage>)
      requires Valid()
      modifies this
      ensures Valid()
      ensures var r := PageIngestion(old(store), DigestPage, cookiesOk, site, content);
        && messages == Digest(calendar, render, fromDate, toDate, r.articles)
        && store == r.store
        && fetched == old(fetched) + r.fetched
        && inserts == old(inserts) + |r.fetched|
        && sleeps == old(sleeps) + |r.fetched|
    {
      var articles := GetArticlesFromPage(DigestPage, cookiesOk, site, content);
      messages := [];
      if CalendarTruthy(calendar) {
        messages := messages + [ChatMessage("user", CalendarMessage(fromDate, toDate, render(calendar.value)))];
      }
      messages := messages + [ChatMessage("user", NewsMessage(articles))];
    }
  }
}
