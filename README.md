# bot-stat news ingestion, in Dafny

This project models the part of bot-stat that holds logic: the news
ingestion and digest of the investing.com manager, the retry decorator it
relies on, the request-header profiles, and the credential lookups.

- `Retry.dfy` covers the `retry_on_failure` decorator. The wrapped operation
  is a sequence of outcomes, one per attempt. `Retried` is the
  specification. `RetryOnFailure` is the attempt loop, proved against it.
  Each sleep is counted rather than waited for.
- `News.dfy` covers `NewsAndCalendarManager`:
  - The `articles` table is a `map` keyed by its unique `link` column
    (src/domain/entity/article.py:36).
  - The network and the HTML parser are replaced by oracles:
    - `cookiesOk` says whether the warm-up request succeeded;
    - `site` gives what the listing request for a URL yields once parsed;
    - `content` gives what the retried content fetch for a link yields.
  - `Ingest`, `PageIngestion` and `Pages` specify the item loop, one page
    and the page loop. The class `NewsManager` holds the table and counts
    the fetches, inserts and politeness sleeps. Its methods are proved
    against those specifications.
  - `Digest` assembles the chat messages.
- `Headers.dfy` covers `Headers.get_headers`. The parsed `headers.json` is
  an input map. Each random referer choice is an index.
- `Settings.dfy` covers `Settings`. The environment is an input map.
  Raising `ValueError` becomes a `Failure`. Both functions only read the map.
- `Wrappers.dfy` holds the `Option` and `Result` types.

## Behaviour of the code worth knowing

- **What the retry decorator retries.** It retries only `None`
  (src/config/utile.py:25). An empty list, an empty string or 0 is returned
  at once.
- **The page function is never retried.** It always returns a list, `[]`
  on every failure, so the decorator around it returns after one call. See
  `News.PageNeverRetried`.
- **The calendar fetch is not retried either.** It returns a dictionary,
  possibly empty, which is not `None`.
- **The request-error handler returns `[]`.** The handler of
  `get_articles_from_page` returns the articles gathered so far. The only
  calls in that `try` that raise a request error are the listing request
  and its status check, and both run before the loop. The handler
  therefore always returns `[]`, and the model returns `[]` there.

## Model

| member | source | states |
|---|---|---|
| Retry.Retried | src/config/utile.py:22-29 | At most `n` calls. A value is the outcome of the last call, after `calls - 1` sleeps. `None` means all `n` calls were made, each followed by a sleep. |
| Retry.RetryOnFailure | src/config/utile.py:21-29 | The attempt loop returns, calls and sleeps exactly as `Retried` says, with `max(max_attempts, 0)` attempts. Every call receives the same arguments. |
| Retry.RetriedSucceedsAt | src/config/utile.py:23-26 | If the first non-`None` outcome is at attempt k+1, the result is that outcome after exactly k+1 calls and k sleeps. |
| Retry.RetriedExhausted | src/config/utile.py:23-29 | If every attempt yields `None`, there are `n` calls and `n` sleeps (the last attempt included), and the result is `None`. |
| Retry.RetriedFailsOnlyOnNone | src/config/utile.py:25-26 | The result is `None` if and only if every attempt yielded `None`. |
| Retry.ValueReturnedAtOnce | src/config/utile.py:24-26 | Any value, even an empty list, string or 0, is returned after one call and no sleep. |
| Retry.NoAttemptsBelowOne | src/config/utile.py:23-29 | With `max_attempts <= 0` the operation is never called, nothing sleeps, and the result is `None`. |
| Retry.DefaultsOnTotalFailure | src/config/utile.py:9-29 | With the defaults (3 attempts, 5 s delay), total failure means 3 calls and 15 s of sleep. |
| Headers.UserAgents | src/config/headers.py:50-59 | The configured `user_agents` list, or `[]` when the key is missing. |
| Headers.Profile | src/config/headers.py:78-87 | The dictionary has exactly the seven fixed keys. User agent and referer are the ones given, and the five other fields are the fixed constants. |
| Headers.GetHeaders | src/config/headers.py:74-90 | One header dictionary per user agent, in order. Entry i is the profile of user agent i with the referer picked from the fixed 30-entry list. A missing `user_agents` key gives `[]`. |
| Headers.ProfileOfChosenReferer | src/config/headers.py:78-87 | A dictionary built with a picked referer has exactly the seven fixed keys, user agent and referer as given (the referer from the fixed list), and the same five constant fields in every entry. |
| Headers.ProfileHasSevenKeys | src/config/headers.py:78-87 | Every header dictionary has exactly seven entries. |
| Settings.ApiOpenaiKey | src/config/settings.py:24-29 | Fails if and only if `API_KEY_OPENAI` is unset. Otherwise it returns the value as it is, even `""`. |
| Settings.Mt4Credentials | src/config/settings.py:41-52 | Succeeds if and only if all three MT4 variables are set and non-empty. It then returns exactly the keys account, server and password, mapped to those values. |
| Settings.EmptyValueAcceptedOnlyForApiKey | src/config/settings.py:26-45 | An empty value is accepted as an OpenAI key but rejected as an MT4 credential. |
| News.DecimalRoundTrip | src/infrastructure/news_and_calendar_manager.py:79 | Reading back the decimal rendering of a page number gives the number. |
| News.PageUrl | src/infrastructure/news_and_calendar_manager.py:77-79 | The URL is `base_url + news_path` if and only if the page is 1 or less. Past page 1, the URL is that prefix, `/`, and decimal digits without a leading zero that read back as the page number, so exactly `str(page)`. |
| News.DefaultPageUrl | src/infrastructure/news_and_calendar_manager.py:55 | Called without a page number (default 1), the page function reads the bare listing URL. |
| News.PageUrlDistinct | src/infrastructure/news_and_calendar_manager.py:77-79 | Distinct page numbers from 1 up give distinct listing URLs. |
| News.Entry | src/infrastructure/news_and_calendar_manager.py:91-98 | An item is kept if and only if it has a title anchor with a non-empty `href`. It then yields the anchor's title and that link. |
| News.Step | src/infrastructure/news_and_calendar_manager.py:90-107 | One iteration of the item loop. It appends one article for a kept item and none otherwise, and never changes a row already stored. The appended article is the row stored under the item's link. |
| News.Ingest | src/infrastructure/news_and_calendar_manager.py:90-109 | The item loop (`IngestFrom` runs `Step` over the items) gives one article per kept link and leaves every stored row as it was. |
| News.IngestReturnsStoredRows | src/infrastructure/news_and_calendar_manager.py:90-107 | One article per kept item (title anchor and non-empty href), in listing order. Article j is the row the table holds afterwards under link j. A link already stored gives the stored row and is not fetched. |
| News.IngestInsertsNewLinks | src/infrastructure/news_and_calendar_manager.py:100-106 | The table afterwards is the old table plus exactly the kept links, with old rows unchanged. Each new row has its link, the fetched content or `""`, and the title of the first item on the page with that link. |
| News.IngestFetchesEachNewLinkOnce | src/infrastructure/news_and_calendar_manager.py:100-106 | Fetches are distinct. There is one per distinct kept link missing from the table, so a link repeated on the page is fetched once. |
| News.IngestInsertsOnePerFetch | src/infrastructure/news_and_calendar_manager.py:100-106 | The table grows by exactly one row per fetch. |
| News.IngestIdempotent | src/infrastructure/news_and_calendar_manager.py:100-107 | A rerun on the same listing, against the table the first run produced, fetches and inserts nothing and returns the same articles. |
| News.ThreeItemListing | src/infrastructure/news_and_calendar_manager.py:90-107 | Three items, the middle one without a title anchor, give exactly the two valid articles in order. |
| News.PageIngestion | src/infrastructure/news_and_calendar_manager.py:66-113 | One page: the warm-up, the listing request for `PageUrl(page)`, then the item loop. Rows already stored are never changed. |
| News.PageFailureIsEmpty | src/infrastructure/news_and_calendar_manager.py:71-88 | A failed warm-up, a failed listing request, or a missing news list gives `[]` and leaves the table alone. |
| News.PageNeverRetried | src/infrastructure/news_and_calendar_manager.py:54-55 | The page function's list, empty or not, is returned by the retry decorator after one call and no sleep. |
| News.PagesInOrder | src/infrastructure/news_and_calendar_manager.py:160-166 | `get_articles(n)` gives n lists. List k is page k+1, read against the table the earlier pages left. |
| News.Pages | src/infrastructure/news_and_calendar_manager.py:160-166 | The page loop gives `max(n, 0)` lists. A page count of 0 or less gives `[]` and changes nothing. |
| News.DefaultPages | src/infrastructure/news_and_calendar_manager.py:150-166 | Called without a page count (default 5), `get_articles` gives 5 lists, the first being page 1 read against the starting table. |
| News.ArticleContent | src/infrastructure/news_and_calendar_manager.py:126-148 | One content attempt gives text if and only if the warm-up and the article request succeed and the page has a content container. The text is then the container's text. |
| News.MissingContentStoredEmpty | src/infrastructure/news_and_calendar_manager.py:102 | If all three retried content attempts fail, there are 3 calls and 3 sleeps, and the row is written with `""`. |
| News.CalendarTruthy | src/infrastructure/news_and_calendar_manager.py:206 | `None` and an empty calendar result are falsy. A non-empty result is truthy. |
| News.NewsMessage | src/infrastructure/news_and_calendar_manager.py:214-216 | The message starts with the header `Latest news articles:` and a line break. It is the header alone if and only if there are no articles. |
| News.Digest | src/infrastructure/news_and_calendar_manager.py:204-219 | There are two messages if the calendar result is truthy and one otherwise. All have role "user". The calendar message comes first. The news message always comes last. |
| News.NewsMessageLines | src/infrastructure/news_and_calendar_manager.py:214-216 | Provided no title or content contains a line break, the news message split into lines is its header, then one `- title: content` line per article in order. With no articles it is the header alone. Nothing in the code rules out such line breaks, so the condition is a real restriction. |
| News.NewsManager.constructor | src/infrastructure/news_and_calendar_manager.py:29-37 | Starts with the given table, with no fetches, inserts or sleeps. |
| News.NewsManager.GetArticlesFromPage | src/infrastructure/news_and_calendar_manager.py:54-113 | Returns and stores what `PageIngestion` specifies, logs its fetches, and adds one insert and one sleep per fetch. |
| News.NewsManager.GetArticles | src/infrastructure/news_and_calendar_manager.py:150-166 | Walks pages 1..n as `Pages` specifies and returns `max(n, 0)` lists. |
| News.NewsManager.GetContextNewsAndEconomicCalendar | src/infrastructure/news_and_calendar_manager.py:188-219 | Reads listing page 3 and returns `Digest` of the calendar result and those articles. The table, fetch log, insert count and sleep count change as `PageIngestion` of page 3 says. |

## Left out

- Network I/O is replaced by oracles. This covers the `requests.Session`, its cookies, timeouts and `raise_for_status`.
- Header rotation is not modelled. This covers `random.choice(self.headers)` and the `session.headers.update` it feeds. An empty header pool would make that `random.choice` raise `IndexError`, and the model does not capture this.
- HTML parsing with BeautifulSoup is not modelled. The model takes the parsed list items and the content container's text as given.
- The progress and error messages printed by the retry loop and the manager are left out.
- `datetime.today()` and the five-day window are not computed. The two rendered dates are inputs.
- The `investpy` calendar call and `to_dict` are not modelled. The calendar result is an input. Python's rendering of it in the message is the function parameter `render`.
- The SQL session and `get_article_from_db` are replaced by a map lookup. The generated `id` column is not modelled.
- News.NewsManager.GetContextNewsAndEconomicCalendar: treats every article of page 3 as a readable value. In the code a newly inserted row is probably not readable. The session factory keeps SQLAlchemy's default `expire_on_commit=True` (src/infrastructure/database_manager.py:32-34). `create_to_database` commits and then closes its session (src/infrastructure/database_manager.py:55-61). That leaves the new `ArticleEntity` detached, with its attributes expired. Reading `article.title` at src/infrastructure/news_and_calendar_manager.py:215 would then raise `DetachedInstanceError` whenever page 3 holds a link that was not stored yet. This comes from reading SQLAlchemy's documented defaults and was not executed. The model does not capture it.
- News.NewsManager.GetArticlesFromPage: inserts always succeed. A database error that would propagate out of the loop is not modelled.
- News.NewsManager.GetArticlesFromPage: `sleeps` counts only the politeness sleeps. Retries inside the content fetch also sleep, and those sleeps are not counted here. `content` stands for the retried fetch's final result, and `MissingContentStoredEmpty` covers the retry alone.
- Retry.RetryOnFailure: the oracle must supply one outcome per attempt. Only the number of sleeps is modelled, not the delay waited.
- Retry.RetryOnFailure: an operation that raises is not modelled, because each outcome is an `Option` and cannot raise. The wrapper has no `try` (src/config/utile.py:22-29). An exception from the wrapped operation therefore leaves the loop at once, with no further attempt and no sleep, and reaches the caller.
- Reading `headers.json` is file I/O. Its parsed contents are an input.
- database_manager.py, technical_indicator_manager.py, model_manager.py and broker.py are not part of this model. They wrap SQLAlchemy, the `ta` indicator library, the OpenAI client and the `MetaTrader5` package.
- broker_manager.py and main.py are not part of this model. broker_manager.py is an empty class. main.py is an entry script that calls `get_market_data`, a method that class lacks.
