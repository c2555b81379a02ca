/**
 * The crawl-and-ingest loop of scripts/scrape_dawn.py as a state machine over
 * values: resuming from the progress table (lines 42-65), one pass of the
 * `while True` loop (lines 69-154) and the final flush (lines 156-157).
 *
 * The network is a finite list of fetch outcomes, consumed one per request;
 * skipping an ID already stored consumes none. The real loop has no bound of
 * its own: when the list runs out the model stops with `Exhausted`.
 */
module Crawl {
  import opened Wrappers
  import opened Text
  import opened Extraction
  import opened Store

  const MAX_NOT_FOUND: nat := 50
  const COMMIT_EVERY: nat := 10

  /** What `session.get` does for one article ID. */
  datatype Outcome =
    | RequestFailed       // raises requests.RequestException
    | NotFound            // status 404
    | Fetched(page: Page) // any other status, with the parsed page

  /** The module-level variables the loop updates, and the connection. */
  datatype State = State(
    articleId: int,
    misses: nat,                  // consecutive_not_found
    counter: nat,                 // articles saved in this run
    total: int,                   // total_articles
    existing: set<int>,           // existing_ids
    date: Option<Option<string>>, // the variable `date`: None while not yet bound in this run
    db: Db)

  /** `int()` raising `ValueError` on a progress row. */
  datatype ResumeError = BadLastId | BadTotal

  /** The ways the script dies before reaching the end. */
  datatype Crash =
    | ResumeFailed(error: ResumeError)
    | UnboundDate                 // NameError on `date` at line 156

  /** The state the loop starts from, read from the durable tables (lines 42-65). */
  function Resume(t: Tables): (r: Result<State, ResumeError>)
    ensures r.Err? <==> !ProgressReadable(t)
    ensures r.Ok? ==> r.value.articleId == (if StoredLastId(t).Some? then StoredLastId(t).value + 1 else 1)
    ensures r.Ok? ==> r.value.total == StoredTotal(t).GetOr(0)
    ensures r.Ok? ==> r.value.existing == DawnIds(t) && r.value.db == Open(t)
    ensures r.Ok? ==> r.value.misses == 0 && r.value.counter == 0 && r.value.date.None?
  {
    if LAST_ID_KEY in t.progress && ParseInt(t.progress[LAST_ID_KEY]).None? then Err(BadLastId)
    else if TOTAL_KEY in t.progress && ParseInt(t.progress[TOTAL_KEY]).None? then Err(BadTotal)
    else
      var startId := if LAST_ID_KEY in t.progress then ParseInt(t.progress[LAST_ID_KEY]).value + 1 else 1;
      var total := if TOTAL_KEY in t.progress then ParseInt(t.progress[TOTAL_KEY]).value else 0;
      Ok(State(startId, 0, 0, total, DawnIds(t), None, Open(t)))
  }

  /** Lines 70-73: an ID already stored is passed over without a request. */
  function Skip(s: State): (r: State)
    requires s.articleId in s.existing
    ensures r.articleId == s.articleId + 1 && r.(articleId := s.articleId) == s
  {
    s.(articleId := s.articleId + 1)
  }

  /** Lines 139-153: store the extracted row and advance; every tenth save commits with the progress rows. */
  function Save(s: State, a: Article): (r: State)
    requires a.id == s.articleId && a.source == SOURCE
    ensures r.articleId == s.articleId + 1 && r.misses == s.misses
    ensures r.existing == s.existing + {s.articleId}
    ensures r.total == s.total + 1 && r.counter == s.counter + 1
    ensures r.date == Some(a.date)
    ensures r.counter % COMMIT_EVERY == 0 ==>
      r.db == Commit(UpdateProgress(InsertOrReplace(s.db, a), s.articleId, a.date, r.total))
    ensures r.counter % COMMIT_EVERY != 0 ==> r.db == InsertOrReplace(s.db, a)
  {
    var db := InsertOrReplace(s.db, a);
    var total, counter := s.total + 1, s.counter + 1;
    var db' := if counter % COMMIT_EVERY == 0 then Commit(UpdateProgress(db, s.articleId, a.date, total)) else db;
    State(s.articleId + 1, s.misses, counter, total, s.existing + {s.articleId}, Some(a.date), db')
  }

  /** What one loop pass does after a request: go on with a new state, or `break`. */
  datatype Step = Next(state: State) | Stop(state: State)

  /** Lines 75-153: one request for the current ID and what follows from its outcome. */
  function Visit(s: State, o: Outcome): (r: Step)
    requires s.articleId !in s.existing
    ensures o.RequestFailed? ==> r == Next(s)
    ensures o.NotFound? ==>
      r.state.misses == s.misses + 1 &&
      (r.Stop? <==> s.misses + 1 >= MAX_NOT_FOUND) &&
      r.state.articleId == (if r.Stop? then s.articleId else s.articleId + 1) &&
      r.state.(misses := s.misses, articleId := s.articleId) == s
    ensures o.Fetched? ==> r.Next? && r.state.misses == 0 && r.state.articleId == s.articleId + 1
    ensures o.Fetched? && Extract(s.articleId, o.page).None? ==>
      r.state.(misses := s.misses, articleId := s.articleId) == s
    ensures o.Fetched? && Extract(s.articleId, o.page).Some? ==>
      r.state == Save(s.(misses := 0), Extract(s.articleId, o.page).value)
  {
    match o
    case RequestFailed => Next(s)
    case NotFound =>
      var missed := s.(misses := s.misses + 1);
      if missed.misses >= MAX_NOT_FOUND then Stop(missed) else Next(missed.(articleId := s.articleId + 1))
    case Fetched(page) =>
      match Extract(s.articleId, page)
      case None => Next(s.(misses := 0, articleId := s.articleId + 1))
      case Some(a) => Next(Save(s.(misses := 0), a))
  }

  /** The stored IDs the loop has still to pass over: the measure for skipping. */
  function Ahead(s: State): nat {
    |set id | id in s.existing && s.articleId <= id|
  }

  lemma SkipShrinksAhead(s: State)
    requires s.articleId in s.existing
    ensures Ahead(Skip(s)) < Ahead(s)
  {
    var before := set id | id in s.existing && s.articleId <= id;
    var after := set id | id in s.existing && s.articleId + 1 <= id;
    assert after == before - {s.articleId};
  }

  /** How the loop ends: `break` after 50 misses in a row, or the outcome list ran out. */
  datatype LoopEnd = Stopped(state: State, rest: seq<Outcome>) | Exhausted(state: State)

  /** The `while True` loop (lines 69-154), run on the outcomes `os`. */
  function Loop(s: State, os: seq<Outcome>): (r: LoopEnd)
    ensures r.Stopped? ==> |r.rest| < |os| && r.state.misses >= MAX_NOT_FOUND && r.state.articleId !in r.state.existing
    ensures r.Exhausted? ==> r.state.articleId !in r.state.existing
    ensures s.articleId <= r.state.articleId
    decreases |os|, Ahead(s)
  {
    if s.articleId in s.existing then
      SkipShrinksAhead(s);
      Loop(Skip(s), os)
    else if os == [] then
      Exhausted(s)
    else
      match Visit(s, os[0])
      case Next(s') => Loop(s', os[1..])
      case Stop(s') => Stopped(s', os[1..])
  }

  /** One pass of the loop that makes a request: `Loop` continues from what `Visit` gives. */
  lemma LoopVisits(s: State, os: seq<Outcome>)
    requires s.articleId !in s.existing && os != []
    ensures Loop(s, os) == match Visit(s, os[0])
      case Next(s') => Loop(s', os[1..])
      case Stop(s') => Stopped(s', os[1..])
  {
  }

  /**
   * Lines 156-157: `update_progress(article_id - 1, date, total_articles)` and
   * `commit()`; a NameError when no page of this run reached line 119.
   */
  function FinalFlush(s: State): (r: Result<Db, Crash>)
    ensures r.Err? <==> s.date.None?
    ensures r.Ok? ==> r.value == Commit(UpdateProgress(s.db, s.articleId - 1, s.date.value, s.total))
  {
    if s.date.None? then Err(UnboundDate)
    else Ok(Commit(UpdateProgress(s.db, s.articleId - 1, s.date.value, s.total)))
  }

  /** How one run of the script ends, with what is durable afterwards. */
  datatype RunResult =
    | Crashed(reason: Crash, durable: Tables)
    | Finished(durable: Tables)
    | Unfinished(state: State)  // the outcome list ran out with the loop still going

  /** One run of the script on the durable tables `t` and the fetch outcomes `os`. */
  function Run(t: Tables, os: seq<Outcome>): RunResult {
    match Resume(t)
    case Err(e) => Crashed(ResumeFailed(e), t)
    case Ok(s0) =>
      match Loop(s0, os)
      case Exhausted(s) => Unfinished(s)
      case Stopped(s, _) =>
        match FinalFlush(s)
        case Err(e) => Crashed(e, s.db.committed)
        case Ok(db) => Finished(db.committed)
  }

  /**
   * How a run ends: a resume error exactly when a stored number is not an
   * integer, with nothing written; a NameError exactly when the loop broke
   * before any page was saved; unfinished exactly when the outcomes ran out.
   */
  lemma RunEnds(t: Tables, os: seq<Outcome>)
    ensures var r := Run(t, os);
      && ((r.Crashed? && r.reason.ResumeFailed?) <==> !ProgressReadable(t))
      && (r.Crashed? && r.reason.ResumeFailed? ==> r.durable == t)
      && (r.Unfinished? <==> Resume(t).Ok? && Loop(Resume(t).value, os).Exhausted?)
      && (r.Crashed? && r.reason.UnboundDate? <==>
            Resume(t).Ok? && Loop(Resume(t).value, os).Stopped? && Loop(Resume(t).value, os).state.date.None?)
  {
  }
}
