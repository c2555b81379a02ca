/**
 * The script itself, statement by statement: the module-level variables of
 * scripts/scrape_dawn.py become the fields of a `Scraper`, the `while True`
 * loop a method whose effect is proved to be that of `Crawl.Loop`.
 * Requests, sleeps and printing are not modelled: each request is the next
 * element of a list of outcomes.
 */
module Scraper {
  import opened Wrappers
  import opened Text
  import opened Extraction
  import opened Store
  import opened Crawl

  class Scraper {
    var articleId: int
    var consecutiveNotFound: nat
    var counter: nat
    var totalArticles: int
    var existingIds: set<int>
    var date: Option<Option<string>>  // None while the variable `date` is unbound
    const conn: Connection

    /** The loop state these variables and the connection stand for. */
    function View(): State
      reads this, conn
    {
      State(articleId, consecutiveNotFound, counter, totalArticles, existingIds, date, conn.View())
    }

    /** Lines 47-53 and 61: the variables as the loop first sees them. */
    constructor (conn: Connection, startId: int, total: int, existingIds: set<int>)
      ensures this.conn == conn
      ensures View() == State(startId, 0, 0, total, existingIds, None, conn.View())
    {
      this.conn := conn;
      articleId := startId;
      consecutiveNotFound := 0;
      counter := 0;
      totalArticles := total;
      this.existingIds := existingIds;
      date := None;
    }

    /**
     * Lines 69-154. Returns whether the loop reached `break` and how many
     * outcomes it used.
     */
    method CrawlLoop(outcomes: seq<Outcome>) returns (stopped: bool, consumed: nat)
      modifies this, conn
      ensures consumed <= |outcomes|
      ensures Loop(old(View()), outcomes) ==
        if stopped then Stopped(View(), outcomes[consumed..]) else Exhausted(View())
    {
      var i := 0;
      while true
        invariant 0 <= i <= |outcomes|
        invariant Loop(View(), outcomes[i..]) == Loop(old(View()), outcomes)
        decreases |outcomes| - i, Ahead(View())
      {
        if articleId in existingIds {
          SkipShrinksAhead(View());
          articleId := articleId + 1;
          continue;
        }
        if i == |outcomes| {
          return false, i;
        }
        LoopVisits(View(), outcomes[i..]);
        assert outcomes[i..][1..] == outcomes[i + 1..];
        var stop := Probe(outcomes[i]);
        i := i + 1;
        if stop {
          return true, i;
        }
      }
    }

    /** Lines 75-153 for an ID not yet stored: one request and what its outcome leads to. */
    method Probe(outcome: Outcome) returns (stop: bool)
      requires articleId !in existingIds
      modifies this, conn
      ensures Visit(old(View()), outcome) == if stop then Stop(View()) else Next(View())
    {
      stop := false;
      match outcome {
        case RequestFailed =>
        case NotFound =>
          consecutiveNotFound := consecutiveNotFound + 1;
          if consecutiveNotFound >= MAX_NOT_FOUND {
            return true;
          }
          articleId := articleId + 1;
        case Fetched(page) =>
          Ingest(page);
      }
    }

    /** Lines 92-153: a page came back; extract it, or skip it when a container is missing. */
    method Ingest(page: Page)
      requires articleId !in existingIds
      modifies this, conn
      ensures Visit(old(View()), Fetched(page)) == Next(View())
    {
      consecutiveNotFound := 0;
      if !page.hasBody {
        articleId := articleId + 1;
        return;
      }
      var category := ScanCategory(page.bodyClasses);
      if !page.hasArticle {
        articleId := articleId + 1;
        return;
      }
      var title := Headline(page);
      var pageDate := PageDate(page);
      var body := SplitParagraphs(page.paragraphs);
      var article := Article(articleId, title, pageDate, body.summary, category,
                             body.fullText, Url(articleId), SOURCE);
      assert Extract(articleId, page) == Some(article);
      SaveArticle(article);
    }

    /** Lines 119-153 once the row is built: insert, count, and commit every tenth save. */
    method SaveArticle(article: Article)
      requires article.id == articleId && article.source == SOURCE
      modifies this, conn
      ensures View() == Save(old(View()), article)
    {
      date := Some(article.date);
      conn.Insert(article);
      existingIds := existingIds + {articleId};
      totalArticles := totalArticles + 1;
      counter := counter + 1;
      if counter % COMMIT_EVERY == 0 {
        conn.WriteProgress(articleId, date.value, totalArticles);
        conn.CommitAll();
      }
      articleId := articleId + 1;
    }

    /** Lines 156-157: the last progress write and commit. */
    method Finish() returns (r: Result<(), Crash>)
      modifies conn
      ensures r.Err? <==> FinalFlush(old(View())).Err?
      ensures r.Err? ==> r.error == UnboundDate && conn.View() == old(conn.View())
      ensures r.Ok? ==> conn.View() == FinalFlush(old(View())).value
    {
      if date.None? {
        return Err(UnboundDate);
      }
      conn.WriteProgress(articleId - 1, date.value, totalArticles);
      conn.CommitAll();
      return Ok(());
    }
  }

  /** Lines 42-65: read the progress rows and the stored IDs, and set up the variables. */
  method Start(conn: Connection) returns (r: Result<Scraper, ResumeError>)
    requires conn.pendingArticles == map[] && conn.pendingProgress == map[]
    ensures Resume(conn.committed).Err? ==> r == Err(Resume(conn.committed).error)
    ensures Resume(conn.committed).Ok? ==>
      r.Ok? && fresh(r.value) && r.value.conn == conn && r.value.View() == Resume(conn.committed).value
  {
    assert Visible(conn.View()) == conn.committed;
    var lastIdRow := conn.ProgressValue(LAST_ID_KEY);
    var startId := 1;
    if lastIdRow.Some? {
      var parsed := ParseInt(lastIdRow.value);
      if parsed.None? {
        return Err(BadLastId);
      }
      startId := parsed.value + 1;
    }
    var ids := conn.DawnIdSet();
    var total := 0;
    var totalRow := conn.ProgressValue(TOTAL_KEY);
    if totalRow.Some? {
      var parsed := ParseInt(totalRow.value);
      if parsed.None? {
        return Err(BadTotal);
      }
      total := parsed.value;
    }
    var scraper := new Scraper(conn, startId, total, ids);
    return Ok(scraper);
  }

  /** The whole script on a database holding `t`, with the network's answers `outcomes`. */
  method Scrape(t: Tables, outcomes: seq<Outcome>) returns (result: RunResult)
    ensures result == Run(t, outcomes)
  {
    var conn := new Connection(t);
    var started := Start(conn);
    if started.Err? {
      return Crashed(ResumeFailed(started.error), t);
    }
    var scraper := started.value;
    var stopped, consumed := scraper.CrawlLoop(outcomes);
    if !stopped {
      return Unfinished(scraper.View());
    }
    var flushed := scraper.Finish();
    if flushed.Err? {
      return Crashed(flushed.error, conn.committed);
    }
    return Finished(conn.committed);
  }
}
