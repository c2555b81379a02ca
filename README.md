# A verified model of the Dawn article scraper

`scripts/scrape_dawn.py` walks the numeric article IDs of dawn.com upward. For each ID it
fetches `https://www.dawn.com/news/<id>`, extracts one row (title, date, summary, category,
full text, URL, source), and stores it in SQLite with `INSERT OR REPLACE`. Every tenth saved
article it writes three progress rows (`dawn_last_id`, `dawn_last_date`,
`dawn_total_articles`) and commits. It stops after 50 consecutive 404 responses, writes the
progress rows a last time and commits. A restart resumes from `dawn_last_id + 1`, skipping IDs
already stored with source `dawn`.

This project models that crawl-and-ingest loop in Dafny and proves properties of the model.

- `wrappers.dfy`: `Option` and `Result`.
- `text.dfy` (module `Text`): Python's `str()`/`int()` on integers, as used by the progress
  table, which stores numbers as TEXT. Also `"\n".join` and `str.split("\n")`.
- `dates.dfy` (module `Dates`): `datetime.strptime(text, "%B %d, %Y").date().isoformat()`
  over ASCII text.
- `extraction.dfy` (module `Extraction`): a parsed page as a value, plus the category scan,
  headline fallback, date and paragraph split that produce one `articles` row.
- `store.dfy` (module `Store`): the two tables as durable maps, plus the writes pending in the
  open transaction. `commit()` makes them all durable at once. The class `Connection` is the
  connection object.
- `crawl.dfy` (module `Crawl`): the loop as a state machine over values. It covers resume,
  skip, one request (`Visit`), the loop (`Loop`), the final flush and a whole run (`Run`).
  The network is a finite list of fetch outcomes.
- `scraper.dfy` (module `Scraper`): the script itself. The class `Scraper` holds the
  module-level variables. Its `while true` loop, the per-page steps and the final flush are
  methods, each proved to have the effect of the corresponding `Crawl` function.
- `properties.dfy` (module `CrawlProperties`): a loop invariant, `RunInv`, and what it gives
  about whole runs:
  - the durable `dawn_last_id` never goes down, from one request to the next and over the
    whole loop, and covers every row committed;
  - counting is exact;
  - the restart point is correct after a stop, an interruption or a crash.
- `stopping.dfy` (module `CrawlStopping`): the 50-miss stop rule, the retry on request
  failure, and the counter reset on any non-404 response.
- `scenario.dfy` (module `CrawlScenario`): a run on an empty database. Three stories come in,
  then 50 404s.

## Behaviour worth knowing

The model follows what the script does, line by line. Some of it is easy to misread:

- The commit interval is `commit_every = 10` (line 52): progress is written and committed on
  every tenth saved article. Modelled in `Crawl.COMMIT_EVERY`.
- A page without `<article>` is skipped and no row is written (lines 108-112). Modelled in
  `Extraction.Extract`.
- A timestamp that strptime rejects gives the date `None` (lines 125-126). Nothing else is
  tried. Modelled in `Extraction.PageDate`.
- `articles` is keyed by `id` alone (line 24). Only the lookup of existing IDs filters on
  `source = 'dawn'` (line 46). Modelled in `Store.InsertOrReplace` and `Store.DawnIds`.
- The final flush writes `article_id - 1` (line 156). The loop breaks without advancing past
  the 50th 404 (lines 86-88), so the stored value is one less than the ID that stopped the
  loop:
  - after 50 misses starting at `N`, it is `N + 48`;
  - in the three-story run the stored `dawn_last_id` is 52
    (`CrawlScenario.ThreeStoriesThenFiftyMisses`, `CrawlStopping.FlushAfterStop`);
  - a restart probes the ID that stopped the loop once more.
- If no page of the run reached line 119, `date` is unbound at line 156 and the script dies
  with a `NameError`. It then writes no progress rows. Modelled as `Crash.UnboundDate`
  (`Crawl.FinalFlush`, `CrawlProperties.CrashKeepsTables`).
- `dawn_last_date` is the date of the last saved page, or `''` when that page had no date
  (lines 59, 149, 156).
- With exactly one paragraph, `full_text` is `""`, not `None` (line 134).

## Model

| member | source | states |
|---|---|---|
| Text.IntToString | scripts/scrape_dawn.py:59 | `str(n)`: at least one character, a leading `-` exactly for negative numbers, and decimal digits after it |
| Text.ParseInt | scripts/scrape_dawn.py:44 | `int(s)` on progress text: a number exactly when the text is decimal digits, or a sign followed by at least one digit; a negative number only after `-` |
| Text.ParseIntRoundTrip | scripts/scrape_dawn.py:55-65 | `int(str(n)) == n` for every integer: a number written to the progress table with `str()` reads back unchanged with `int()` |
| Text.SplitJoinLines | scripts/scrape_dawn.py:134 | splitting the `"\n"`-joined paragraphs on `"\n"` gives them back, when there is at least one and none contains a newline |
| Dates.ParseLongDate | scripts/scrape_dawn.py:123 | every date strptime accepts under `"%B %d, %Y"` is a valid calendar date (years 1-9999, day within the month) |
| Dates.IsoFormat | scripts/scrape_dawn.py:124 | `isoformat()` writes ten characters, four digits, `-`, two digits, `-`, two digits; `Dates.IsoRoundTrip` reads them back |
| Dates.IsoRoundTrip | scripts/scrape_dawn.py:124 | the ISO text `isoformat()` writes for a valid date parses back as that date |
| Dates.LongDateRoundTrip | scripts/scrape_dawn.py:123 | a date printed the way the site prints it (`January 5, 2024`) parses under `"%B %d, %Y"` to that date |
| Dates.MonthNamesDiffer | scripts/scrape_dawn.py:123 | no two month names share a case-insensitive prefix of `text`, so `%B` matches at most one month |
| Extraction.FirstKeyword | scripts/scrape_dawn.py:101-106 | the category is `None` exactly when no class is a keyword; otherwise it is a keyword and the first class, in list order, that is one |
| Extraction.ScanCategory | scripts/scrape_dawn.py:101-106 | the `for ... break` scan over the body classes returns exactly `FirstKeyword` |
| Extraction.Headline | scripts/scrape_dawn.py:114-117 | the title is the story link's text when there is one, else the story title's text, and absent only when both are |
| Extraction.Url | scripts/scrape_dawn.py:75 | definition: `BASE_URL` followed by `str(article_id)`; `Extraction.UrlNamesId` and `Extraction.UrlInjective` state what it promises |
| Extraction.UrlNamesId | scripts/scrape_dawn.py:75 | the URL of an ID starts with `https://www.dawn.com/news/` and the rest reads back with `int()` as that ID |
| Extraction.UrlInjective | scripts/scrape_dawn.py:75 | two IDs with the same URL are the same ID |
| Extraction.PageDate | scripts/scrape_dawn.py:119-128 | the date is present exactly when there is a timestamp that strptime accepts, and then its ISO text reads back as the parsed date |
| Extraction.SplitParagraphs | scripts/scrape_dawn.py:130-137 | no paragraphs give summary and full text `None`; otherwise the summary is the first paragraph, one paragraph gives full text `""`, and with no embedded newlines the full text splits back into paragraphs 2..n |
| Extraction.Extract | scripts/scrape_dawn.py:95-142 | no row exactly when `<body>` or `<article>` is missing; otherwise the row carries the ID, URL, source `dawn`, the first keyword class as category, the story link's text or else the story title's as title, `PageDate` and the paragraph split |
| Store.InsertOrReplace | scripts/scrape_dawn.py:139-142 | definition: the row becomes pending under its `id`, replacing any pending row with that `id`; `Store.UpsertIdempotent` and `Store.InsertNewRow` state what it promises |
| Store.InsertNewRow | scripts/scrape_dawn.py:139-142 | inserting under an ID with no pending row adds exactly that one pending key |
| Store.UpdateProgress | scripts/scrape_dawn.py:55-59 | definition: the three progress rows `str(last_id)`, `last_date or ''` and `str(total)` become pending over any others; `Store.ProgressRoundTrip` states what they read back as |
| Store.DawnIds | scripts/scrape_dawn.py:46-47 | definition: the IDs of the rows whose source is `dawn`; `Store.CommitDawnIds` states how a commit changes them |
| Store.Commit | scripts/scrape_dawn.py:150 | after `commit()` nothing is pending, the durable keys are the old ones plus the pending ones, pending rows win, other durable rows are unchanged |
| Store.UpsertIdempotent | scripts/scrape_dawn.py:139-142 | `INSERT OR REPLACE` of the same row twice leaves the connection as inserting it once |
| Store.ProgressRoundTrip | scripts/scrape_dawn.py:55-65 | on any connection, the `dawn_last_id` and `dawn_total_articles` rows that `update_progress` writes and `commit()` makes durable read back with `int()` as the values written |
| Store.CommitDawnIds | scripts/scrape_dawn.py:46-47 | after a commit of `dawn` rows, `SELECT id ... WHERE source = 'dawn'` gives the durable dawn IDs plus every pending ID |
| Store.CommitWithProgress | scripts/scrape_dawn.py:139-150 | on a tenth save the new row and the progress rows become durable together, the progress reads back as the row's ID and the total, and the dawn IDs gain the pending ones and the new one |
| Store.Connection.constructor | scripts/scrape_dawn.py:20-40 | a connection opened on a database holding `t` sees `t` with nothing pending |
| Store.Connection.ProgressValue | scripts/scrape_dawn.py:42-43 | `SELECT value FROM progress WHERE key = ?` with `fetchone()` gives the visible value for the key, or no row |
| Store.Connection.DawnIdSet | scripts/scrape_dawn.py:46-47 | the set of visible IDs whose row has source `dawn` |
| Store.Connection.Insert | scripts/scrape_dawn.py:139-142 | the connection afterwards is `InsertOrReplace` of the one before |
| Store.Connection.WriteProgress | scripts/scrape_dawn.py:55-59 | the connection afterwards has the three progress rows pending over those before |
| Store.Connection.CommitAll | scripts/scrape_dawn.py:150 | the connection afterwards is `Commit` of the one before |
| Crawl.Resume | scripts/scrape_dawn.py:42-65 | an error exactly when a stored `dawn_last_id` or `dawn_total_articles` is not an integer; otherwise start at the stored last ID + 1 (or 1 when absent), with the stored total (or 0), the stored dawn IDs, no misses, no saves and `date` unbound |
| Crawl.Skip | scripts/scrape_dawn.py:70-73 | a stored ID is passed over: the ID goes up by one and nothing else changes |
| Crawl.Save | scripts/scrape_dawn.py:139-153 | the ID goes up by one, the ID joins the stored set, total and counter go up by one, `date` is bound to the row's date; the row is inserted, and on every tenth save the progress rows for this ID and total are written and committed with it |
| Crawl.Visit | scripts/scrape_dawn.py:75-153 | a request failure changes nothing; a 404 adds one miss and stops exactly on the 50th (without advancing), else advances; any other response resets the count and advances, saving the extracted row or, without `<body>`/`<article>`, nothing else |
| Crawl.SkipShrinksAhead | scripts/scrape_dawn.py:70-73 | each skip lowers the number of stored IDs still ahead, so skipping alone cannot go on forever |
| Crawl.Loop | scripts/scrape_dawn.py:69-154 | the loop never moves backwards; it ends on an ID not stored, after consuming at least one outcome and at least 50 misses when it breaks |
| Crawl.FinalFlush | scripts/scrape_dawn.py:156-157 | a `NameError` exactly when `date` is unbound; otherwise the progress rows for `article_id - 1`, `date` and the total are written and everything pending is committed |
| Crawl.Run | scripts/scrape_dawn.py:42-157 | definition: resume, then the loop, then the final flush; `Crawl.RunEnds` states how a run can end |
| Crawl.RunEnds | scripts/scrape_dawn.py:42-157 | a run fails to resume exactly when a stored number is not an integer, and then writes nothing; it dies with a `NameError` exactly when the loop broke with `date` unbound; it is unfinished exactly when the outcomes ran out |
| Scraper.Scraper.constructor | scripts/scrape_dawn.py:49-53 | the variables start at the start ID and the total with no misses, no saves, `date` unbound |
| Scraper.Scraper.CrawlLoop | scripts/scrape_dawn.py:69-154 | the `while True` loop leaves the variables and connection in exactly the state `Crawl.Loop` reaches, and reports whether it broke and what it consumed |
| Scraper.Scraper.Probe | scripts/scrape_dawn.py:75-153 | one request has exactly the effect of `Crawl.Visit`, including whether it breaks |
| Scraper.Scraper.Ingest | scripts/scrape_dawn.py:92-153 | a fetched page has exactly the effect `Crawl.Visit` gives for it |
| Scraper.Scraper.SaveArticle | scripts/scrape_dawn.py:139-153 | saving a row has exactly the effect of `Crawl.Save` |
| Scraper.Scraper.Finish | scripts/scrape_dawn.py:156-157 | the final flush fails with `UnboundDate` leaving the connection untouched exactly when `Crawl.FinalFlush` does, else leaves its result |
| Scraper.Start | scripts/scrape_dawn.py:42-65 | reading the progress rows and stored IDs gives the resume error, or a fresh scraper whose variables are `Crawl.Resume` of the durable tables |
| Scraper.Scrape | scripts/scrape_dawn.py:20-157 | the whole script ends as `Crawl.Run` says |
| CrawlProperties.SaveShowsRow | scripts/scrape_dawn.py:139-150 | after a save the connection sees the new row under its ID and every other row as before, whether or not it committed |
| CrawlProperties.ResumeStartsRun | scripts/scrape_dawn.py:42-65 | the invariant holds at the state the loop starts in |
| CrawlProperties.SkipKeepsRunInv | scripts/scrape_dawn.py:70-73 | skipping a stored ID keeps the invariant |
| CrawlProperties.SaveKeepsCounting | scripts/scrape_dawn.py:143-146 | each save adds a new ID of this run, counted once: counter equals the number of IDs saved in the run, total is the starting total plus counter |
| CrawlProperties.SaveConnection | scripts/scrape_dawn.py:139-150 | on a tenth save nothing is left pending, the stored last ID is this article's, the stored total the new total, and the dawn IDs gain every pending row; otherwise the row is only pending |
| CrawlProperties.SaveCommitConnection | scripts/scrape_dawn.py:148-150 | the commit on a tenth save leaves nothing pending, stores this article's ID and the new total, and makes every pending dawn row durable |
| CrawlProperties.SaveKeepsRows | scripts/scrape_dawn.py:139-150 | a save keeps the stored-ID set equal to the durable dawn IDs plus the pending rows, all pending rows of this run |
| CrawlProperties.SaveKeepsCheckpoint | scripts/scrape_dawn.py:139-150 | a save keeps the checkpoint: never below the run's starting last ID, every committed row of the run at or below the stored last ID, stored total plus pending rows equal to the total |
| CrawlProperties.SaveKeepsRunInv | scripts/scrape_dawn.py:139-153 | a save keeps the whole invariant |
| CrawlProperties.VisitKeepsRunInv | scripts/scrape_dawn.py:75-153 | any request outcome keeps the invariant |
| CrawlProperties.LoopKeepsRunInv | scripts/scrape_dawn.py:69-154 | the invariant holds wherever the loop ends |
| CrawlProperties.VisitKeepsLastId | scripts/scrape_dawn.py:75-153 | one request never lowers the durable `dawn_last_id` |
| CrawlProperties.LoopKeepsLastId | scripts/scrape_dawn.py:69-154 | within a run the durable `dawn_last_id` never decreases, from any loop head to wherever the loop ends |
| CrawlProperties.FinalFlushDurable | scripts/scrape_dawn.py:156-157 | the final flush stores `article_id - 1` and the total, makes every stored ID durable, and the stored last ID does not go back |
| CrawlProperties.CheckpointAfterRun | scripts/scrape_dawn.py:139-157 | after a run that stops: the stored last ID never decreased, no dawn row was lost, every new row lies at or below the stored last ID, and the stored total grew by exactly the number of new rows |
| CrawlProperties.CheckpointWhileRunning | scripts/scrape_dawn.py:139-150 | at any point of a run the durable last ID has not decreased, every durable row of the run lies at or below it, and the durable total plus the pending rows is the running total |
| CrawlProperties.ResumeAfterStop | scripts/scrape_dawn.py:156-157 | after a run that stops, a restart resumes on the ID that stopped it, with the same total and stored IDs |
| CrawlProperties.InterruptAnywhere | scripts/scrape_dawn.py:139-150 | at every loop head of a run, killing the process loses only the pending rows, as `LosesOnlyPending` says |
| CrawlProperties.ResumeAfterInterruption | scripts/scrape_dawn.py:139-150 | a run killed at any point loses only its pending rows: a restart resumes at or before the current ID and every lost row, with the total less the lost rows and the stored IDs less the lost ones |
| CrawlProperties.CrashKeepsTables | scripts/scrape_dawn.py:156 | a run that crashes leaves the durable tables as it found them; a `NameError` on `date` means no page was saved |
| CrawlStopping.MissesAdvance | scripts/scrape_dawn.py:83-90 | while the count stays below 50, each 404 moves one ID on and adds one miss |
| CrawlStopping.StopOnFiftiethMiss | scripts/scrape_dawn.py:83-90 | from `m` misses, `50 - m` more 404s break the loop on the last of them, with `article_id` on that ID and nothing after it consumed |
| CrawlStopping.FlushResumes | scripts/scrape_dawn.py:156-157 | the final flush stores `article_id - 1`, and a restart resumes on `article_id` |
| CrawlStopping.FlushAfterStop | scripts/scrape_dawn.py:86-88 | after the 50th 404 the stored last ID is one below the ID that stopped the loop, and the next run starts on that ID |
| CrawlStopping.FetchRestartsCount | scripts/scrape_dawn.py:92-112 | any non-404 response resets the count to 0, even for a page then skipped, so 49 more 404s do not stop the loop |
| CrawlStopping.RetryOnFailure | scripts/scrape_dawn.py:76-81 | a request that raises is retried on the same ID: the loop continues as if it had not happened |
| CrawlScenario.ResumeEmpty | scripts/scrape_dawn.py:42-65 | an empty database resumes at ID 1 with total 0 and no stored IDs |
| CrawlScenario.ThreeStories | scripts/scrape_dawn.py:139-153 | three pages that each yield a row leave those rows pending under IDs 1-3, total and counter 3, next ID 4 |
| CrawlScenario.ThreeStoriesThenStop | scripts/scrape_dawn.py:83-90 | three stories and then 50 404s break the loop on ID 53 |
| CrawlScenario.FlushRows | scripts/scrape_dawn.py:156-157 | the final flush on an empty database makes the pending rows durable with total 3 and last ID 52 |
| CrawlScenario.RunThree | scripts/scrape_dawn.py:42-157 | the whole run of three stories and 50 404s finishes with exactly that flush |
| CrawlScenario.RowCategories | scripts/scrape_dawn.py:101-106 | the three rows carry the categories `pakistan`, `world` and `sport` of their pages |
| CrawlScenario.ThreeStoriesThenFiftyMisses | scripts/scrape_dawn.py:42-157 | three stories in `pakistan`, `world`, `sport`, then 50 404s: the run finishes with rows 1-3 in those categories, total 3 and stored last ID 52 |

## Left out

- HTTP: `requests.Session`, URLs being fetched, timeouts and status codes other than 404.
  Each request is the next element of a list of outcomes: a raised exception, a 404, or a
  parsed page.
- Unbounded retries: the script retries a failing request forever and has no upper ID. The
  model's loop consumes the finite outcome list and ends `Exhausted` when it runs out
  (`Crawl.Loop`, `Run` gives `Unfinished`). It therefore says nothing about a run that never
  stops.
- `time.sleep` and every `print`: these have no effect on the state.
- HTML parsing: BeautifulSoup, `find`, `find_all` and `get_text(strip=True)`. A page is the
  value `Extraction.Page`, holding the results of those look-ups, already stripped.
- SQLite: SQL text, the `CREATE TABLE` statements, the file and `conn.close()`. The tables are
  maps with an open transaction that `commit()` makes durable at once. A schema created by
  another program is not modelled.
- Text.ParseInt: weaker than Python's `int()` on text. It accepts only an optional sign
  and ASCII digits. It does not accept surrounding whitespace, `_` between digits or non-ASCII
  digits, so such progress values count as unreadable in the model.
- Dates.ParseLongDate: `%B` is matched against the English month names of the C locale,
  ignoring ASCII case only. Other locales, non-ASCII whitespace, non-ASCII digits (which the
  `\d` of `%d` and `%Y` accepts) and case folding are not modelled.
- The `dawn_last_date` progress row is written but never read back by the script. The model
  stores it and proves nothing about reading it.
- `scripts/stats_dawn.py` is not part of this model. It only runs aggregate SQL queries and
  prints the results.
