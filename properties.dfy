/**
 * What the crawl loop guarantees over a whole run: the checkpoint only moves
 * forward and covers every row it commits, counting is exact, a restart picks
 * up where the run left off, and the stop rule of 50 consecutive 404s.
 */
module CrawlProperties {
  import opened Wrappers
  import opened Extraction
  import opened Store
  import opened Crawl

  /** `a <= b` for stored IDs, where an absent one lies below every number. */
  predicate AtMost(a: Option<int>, b: Option<int>) {
    a.None? || (b.Some? && a.value <= b.value)
  }

  /** The IDs saved since the run started in `s0`. */
  function SavedThisRun(s0: State, s: State): set<int> {
    s.existing - s0.existing
  }

  lemma SavedGrows(s0: State, s: State, r: State)
    requires s0.existing <= s.existing && s.articleId !in s.existing
    requires r.existing == s.existing + {s.articleId}
    ensures SavedThisRun(s0, r) == SavedThisRun(s0, s) + {s.articleId}
  {
  }

  /** After `Save`, the connection sees the new row under its ID, whether or not it was committed. */
  lemma SaveShowsRow(s: State, a: Article)
    requires a.id == s.articleId && a.source == SOURCE
    ensures Visible(Save(s, a).db).articles == Visible(s.db).articles[s.articleId := a]
  {
    var r := Save(s, a);
    if r.counter % COMMIT_EVERY == 0 {
      var db := UpdateProgress(InsertOrReplace(s.db, a), s.articleId, a.date, r.total);
      assert Visible(r.db).articles == Visible(db).articles;
    }
  }

  /** Each save adds an ID not seen before in the run, and counts it once. */
  ghost predicate Counting(s0: State, s: State) {
    && s0.existing <= s.existing
    && s0.articleId <= s.articleId
    && (forall id :: id in SavedThisRun(s0, s) ==> s0.articleId <= id < s.articleId)
    && s.counter == |SavedThisRun(s0, s)|
    && s.total == s0.total + s.counter
    && (s.date.Some? <==> s.counter > 0)
    && (s.counter == 0 ==> s.db == s0.db)
  }

  /** Which rows of the connection are durable and which are still pending. */
  ghost predicate Rows(s0: State, s: State) {
    && s.db.pendingProgress == map[]
    && s.existing == DawnIds(s.db.committed) + s.db.pendingArticles.Keys
    && (forall id :: id in s.db.pendingArticles ==>
          && s.db.pendingArticles[id].source == SOURCE
          && id in SavedThisRun(s0, s)
          && id !in DawnIds(s.db.committed))
  }

  /**
   * The rows of the run against a durable checkpoint that reads `last` as
   * `dawn_last_id` and `stored` as `dawn_total_articles`.
   */
  ghost predicate Marks(s0: State, s: State, last: Option<int>, stored: int) {
    && stored + |s.db.pendingArticles| == s.total
    && AtMost(last, Some(s.articleId - 1))
    && (forall id :: id in s.db.pendingArticles ==> AtMost(last, Some(id - 1)))
    && (forall id :: id in SavedThisRun(s0, s) && id !in s.db.pendingArticles ==> AtMost(Some(id), last))
  }

  /** The durable progress rows against the rows of the run. */
  ghost predicate Checkpoint(s0: State, s: State) {
    && ProgressReadable(s.db.committed)
    && AtMost(StoredLastId(s0.db.committed), StoredLastId(s.db.committed))
    && Marks(s0, s, StoredLastId(s.db.committed), StoredTotal(s.db.committed).GetOr(0))
  }

  /** What holds at the head of the loop, in a run that started in `s0`. */
  ghost predicate RunInv(s0: State, s: State) {
    Counting(s0, s) && Rows(s0, s) && Checkpoint(s0, s)
  }

  lemma ResumeStartsRun(t: Tables)
    requires Resume(t).Ok?
    ensures RunInv(Resume(t).value, Resume(t).value)
  {
  }

  lemma SkipKeepsRunInv(s0: State, s: State)
    requires RunInv(s0, s) && s.articleId in s.existing
    ensures RunInv(s0, Skip(s))
  {
  }

  lemma SaveKeepsCounting(s0: State, s: State, a: Article)
    requires RunInv(s0, s) && s.articleId !in s.existing
    requires a.id == s.articleId && a.source == SOURCE
    ensures Counting(s0, Save(s.(misses := 0), a))
  {
    var r := Save(s.(misses := 0), a);
    SavedGrows(s0, s, r);
  }

  /** The row that `Save` inserts, and the progress rows it writes on every tenth save. */
  lemma SaveConnection(s: State, a: Article)
    requires a.id == s.articleId && a.source == SOURCE
    requires ProgressReadable(s.db.committed) && s.db.pendingProgress == map[]
    requires forall id :: id in s.db.pendingArticles ==> s.db.pendingArticles[id].source == SOURCE
    requires s.articleId !in s.db.pendingArticles
    ensures var r := Save(s.(misses := 0), a);
      && (r.counter % COMMIT_EVERY == 0 ==>
            && r.db.pendingArticles == map[] && r.db.pendingProgress == map[]
            && StoredLastId(r.db.committed) == Some(s.articleId)
            && StoredTotal(r.db.committed) == Some(r.total)
            && ProgressReadable(r.db.committed)
            && DawnIds(r.db.committed) == DawnIds(s.db.committed) + s.db.pendingArticles.Keys + {s.articleId})
      && (r.counter % COMMIT_EVERY != 0 ==> r.db == InsertOrReplace(s.db, a))
  {
    var r := Save(s.(misses := 0), a);
    if r.counter % COMMIT_EVERY == 0 {
      SaveCommitConnection(s, a, r.db);
    }
  }

  /** The commit branch of `SaveConnection`, on the connection `Save` leaves. */
  lemma SaveCommitConnection(s: State, a: Article, db: Db)
    requires a.id == s.articleId && a.source == SOURCE
    requires forall id :: id in s.db.pendingArticles ==> s.db.pendingArticles[id].source == SOURCE
    requires db == Commit(UpdateProgress(InsertOrReplace(s.db, a), s.articleId, a.date, s.total + 1))
    ensures db.pendingArticles == map[] && db.pendingProgress == map[]
    ensures StoredLastId(db.committed) == Some(s.articleId)
    ensures StoredTotal(db.committed) == Some(s.total + 1)
    ensures ProgressReadable(db.committed)
    ensures DawnIds(db.committed) == DawnIds(s.db.committed) + s.db.pendingArticles.Keys + {s.articleId}
  {
    CommitWithProgress(s.db, a, s.total + 1);
  }

  lemma RowsAfterInsert(s0: State, s: State, r: State, a: Article)
    requires Rows(s0, s) && s0.existing <= s.existing
    requires a.id == s.articleId && a.source == SOURCE && s.articleId !in s.existing
    requires r.existing == s.existing + {s.articleId}
    requires r.db == InsertOrReplace(s.db, a)
    ensures Rows(s0, r)
  {
  }

  lemma RowsAfterCommit(s0: State, s: State, r: State, a: Article)
    requires Rows(s0, s) && s0.existing <= s.existing
    requires a.id == s.articleId && a.source == SOURCE && s.articleId !in s.existing
    requires r.existing == s.existing + {s.articleId}
    requires r.db.pendingArticles == map[] && r.db.pendingProgress == map[]
    requires DawnIds(r.db.committed) == DawnIds(s.db.committed) + s.db.pendingArticles.Keys + {s.articleId}
    ensures Rows(s0, r)
  {
  }

  lemma MarksAfterInsert(s0: State, s: State, r: State, a: Article, last: Option<int>, stored: int)
    requires Marks(s0, s, last, stored)
    requires s.articleId !in s.db.pendingArticles
    requires r.db.pendingArticles == s.db.pendingArticles[s.articleId := a]
    requires r.articleId == s.articleId + 1 && r.total == s.total + 1
    requires SavedThisRun(s0, r) == SavedThisRun(s0, s) + {s.articleId}
    ensures Marks(s0, r, last, stored)
  {
    assert r.db.pendingArticles.Keys == s.db.pendingArticles.Keys + {s.articleId};
    assert |r.db.pendingArticles| == |s.db.pendingArticles| + 1;
  }

  lemma CheckpointAfterInsert(s0: State, s: State, r: State, a: Article)
    requires Checkpoint(s0, s)
    requires s.articleId !in s.db.pendingArticles
    requires r.db.committed == s.db.committed
    requires r.db.pendingArticles == s.db.pendingArticles[s.articleId := a]
    requires r.articleId == s.articleId + 1 && r.total == s.total + 1
    requires SavedThisRun(s0, r) == SavedThisRun(s0, s) + {s.articleId}
    ensures Checkpoint(s0, r)
  {
    MarksAfterInsert(s0, s, r, a, StoredLastId(s.db.committed), StoredTotal(s.db.committed).GetOr(0));
  }

  lemma CheckpointAfterCommit(s0: State, s: State, r: State)
    requires AtMost(StoredLastId(s0.db.committed), Some(s.articleId - 1))
    requires forall id :: id in SavedThisRun(s0, r) ==> id <= s.articleId
    requires r.articleId == s.articleId + 1
    requires r.db.pendingArticles == map[]
    requires StoredLastId(r.db.committed) == Some(s.articleId)
    requires StoredTotal(r.db.committed) == Some(r.total)
    requires ProgressReadable(r.db.committed)
    ensures Checkpoint(s0, r)
  {
    assert |r.db.pendingArticles| == 0;
  }

  lemma SaveKeepsRows(s0: State, s: State, a: Article)
    requires RunInv(s0, s) && s.articleId !in s.existing
    requires a.id == s.articleId && a.source == SOURCE
    ensures Rows(s0, Save(s.(misses := 0), a))
  {
    var r := Save(s.(misses := 0), a);
    SaveConnection(s, a);
    if r.counter % COMMIT_EVERY == 0 {
      RowsAfterCommit(s0, s, r, a);
    } else {
      RowsAfterInsert(s0, s, r, a);
    }
  }

  lemma SaveInsertKeepsCheckpoint(s0: State, s: State, a: Article)
    requires Checkpoint(s0, s) && s0.existing <= s.existing
    requires s.articleId !in s.existing && s.db.pendingArticles.Keys <= s.existing
    requires a.id == s.articleId && a.source == SOURCE
    requires Save(s.(misses := 0), a).counter % COMMIT_EVERY != 0
    ensures Checkpoint(s0, Save(s.(misses := 0), a))
  {
    var r := Save(s.(misses := 0), a);
    SavedGrows(s0, s, r);
    CheckpointAfterInsert(s0, s, r, a);
  }

  lemma SaveCommitKeepsCheckpoint(s0: State, s: State, a: Article)
    requires AtMost(StoredLastId(s0.db.committed), Some(s.articleId - 1))
    requires ProgressReadable(s.db.committed) && s0.existing <= s.existing
    requires forall id :: id in SavedThisRun(s0, s) ==> id < s.articleId
    requires s.articleId !in s.existing && s.articleId !in s.db.pendingArticles && s.db.pendingProgress == map[]
    requires forall id :: id in s.db.pendingArticles ==> s.db.pendingArticles[id].source == SOURCE
    requires a.id == s.articleId && a.source == SOURCE
    requires Save(s.(misses := 0), a).counter % COMMIT_EVERY == 0
    ensures Checkpoint(s0, Save(s.(misses := 0), a))
  {
    var r := Save(s.(misses := 0), a);
    assert r.articleId == s.articleId + 1 && r.existing == s.existing + {s.articleId};
    assert && r.db.pendingArticles == map[]
           && StoredLastId(r.db.committed) == Some(s.articleId)
           && StoredTotal(r.db.committed) == Some(r.total)
           && ProgressReadable(r.db.committed)
    by {
      SaveConnection(s, a);
    }
    assert forall id :: id in SavedThisRun(s0, r) ==> id <= s.articleId by {
      SavedGrows(s0, s, r);
    }
    CheckpointAfterCommit(s0, s, r);
  }

  lemma SaveKeepsCheckpoint(s0: State, s: State, a: Article)
    requires RunInv(s0, s) && s.articleId !in s.existing
    requires a.id == s.articleId && a.source == SOURCE
    ensures Checkpoint(s0, Save(s.(misses := 0), a))
  {
    if Save(s.(misses := 0), a).counter % COMMIT_EVERY == 0 {
      SaveCommitKeepsCheckpoint(s0, s, a);
    } else {
      SaveInsertKeepsCheckpoint(s0, s, a);
    }
  }

  lemma SaveKeepsRunInv(s0: State, s: State, a: Article)
    requires RunInv(s0, s) && s.articleId !in s.existing
    requires a.id == s.articleId && a.source == SOURCE
    ensures RunInv(s0, Save(s.(misses := 0), a))
  {
    SaveKeepsCounting(s0, s, a);
    SaveKeepsRows(s0, s, a);
    SaveKeepsCheckpoint(s0, s, a);
  }

  lemma VisitKeepsRunInv(s0: State, s: State, o: Outcome)
    requires RunInv(s0, s) && s.articleId !in s.existing
    ensures RunInv(s0, Visit(s, o).state)
  {
    if o.Fetched? && Extract(s.articleId, o.page).Some? {
      SaveKeepsRunInv(s0, s, Extract(s.articleId, o.page).value);
    }
  }

  /** The invariant holds wherever the loop ends. */
  lemma {:induction false} LoopKeepsRunInv(s0: State, s: State, os: seq<Outcome>)
    requires RunInv(s0, s)
    ensures RunInv(s0, Loop(s, os).state)
    decreases |os|, Ahead(s)
  {
    if s.articleId in s.existing {
      SkipShrinksAhead(s);
      SkipKeepsRunInv(s0, s);
      LoopKeepsRunInv(s0, Skip(s), os);
    } else if os != [] {
      LoopVisits(s, os);
      VisitKeepsRunInv(s0, s, os[0]);
      if Visit(s, os[0]).Next? {
        LoopKeepsRunInv(s0, Visit(s, os[0]).state, os[1..]);
      }
    }
  }

  /** One request never lowers the durable `dawn_last_id`. */
  lemma VisitKeepsLastId(s0: State, s: State, o: Outcome)
    requires RunInv(s0, s) && s.articleId !in s.existing
    ensures AtMost(StoredLastId(s.db.committed), StoredLastId(Visit(s, o).state.db.committed))
  {
    if o.Fetched? && Extract(s.articleId, o.page).Some? {
      SaveConnection(s, Extract(s.articleId, o.page).value);
    }
  }

  /** Within a run the durable `dawn_last_id` never decreases, from any loop head to wherever the loop ends. */
  lemma {:induction false} LoopKeepsLastId(s0: State, s: State, os: seq<Outcome>)
    requires RunInv(s0, s)
    ensures AtMost(StoredLastId(s.db.committed), StoredLastId(Loop(s, os).state.db.committed))
    decreases |os|, Ahead(s)
  {
    if s.articleId in s.existing {
      SkipShrinksAhead(s);
      SkipKeepsRunInv(s0, s);
      LoopKeepsLastId(s0, Skip(s), os);
    } else if os != [] {
      LoopVisits(s, os);
      VisitKeepsLastId(s0, s, os[0]);
      if Visit(s, os[0]).Next? {
        VisitKeepsRunInv(s0, s, os[0]);
        LoopKeepsLastId(s0, Visit(s, os[0]).state, os[1..]);
      }
    }
  }

  /** The final flush keeps what the invariant promises, with nothing left pending. */
  lemma {:induction false} FinalFlushDurable(s0: State, s: State)
    requires RunInv(s0, s) && FinalFlush(s).Ok?
    ensures s.total == s0.total + |SavedThisRun(s0, s)| && s0.existing <= s.existing
    ensures var t := FinalFlush(s).value.committed;
      && StoredLastId(t) == Some(s.articleId - 1)
      && StoredTotal(t) == Some(s.total)
      && DawnIds(t) == s.existing
      && ProgressReadable(t)
      && AtMost(StoredLastId(s0.db.committed), StoredLastId(t))
      && (forall id :: id in SavedThisRun(s0, s) ==> id <= s.articleId - 1)
  {
    var written := UpdateProgress(s.db, s.articleId - 1, s.date.value, s.total);
    var t := Commit(written).committed;
    assert FinalFlush(s).value.committed == t;
    assert StoredLastId(t) == Some(s.articleId - 1) && StoredTotal(t) == Some(s.total) && ProgressReadable(t) by {
      ProgressRoundTrip(s.db, s.articleId - 1, s.date.value, s.total);
    }
    assert DawnIds(t) == DawnIds(s.db.committed) + s.db.pendingArticles.Keys by {
      CommitDawnIds(written);
    }
    assert AtMost(StoredLastId(s0.db.committed), Some(s.articleId - 1));
  }

  /** The loop state a successful run reached, with the state it started from. */
  lemma {:induction false} RunReaches(t: Tables, os: seq<Outcome>) returns (s0: State, s: State)
    requires Resume(t).Ok?
    ensures s0 == Resume(t).value && s == Loop(s0, os).state && RunInv(s0, s)
  {
    s0 := Resume(t).value;
    ResumeStartsRun(t);
    s := Loop(s0, os).state;
    LoopKeepsRunInv(s0, s0, os);
  }

  /**
   * The durable tables `t'` that a run leaves, against the tables `t` it
   * started from: the stored last ID did not go back, no dawn row was lost,
   * every new row lies at or below the stored last ID, and the stored total
   * grew by exactly the number of new rows.
   */
  ghost predicate Advanced(t: Tables, t': Tables) {
    && AtMost(StoredLastId(t), StoredLastId(t'))
    && DawnIds(t) <= DawnIds(t')
    && (forall id :: id in DawnIds(t') - DawnIds(t) ==> AtMost(Some(id), StoredLastId(t')))
    && StoredTotal(t') == Some(StoredTotal(t).GetOr(0) + |DawnIds(t') - DawnIds(t)|)
  }

  /** The durable tables after the final flush, against those the run resumed from. */
  lemma FlushedAgainstResumed(t: Tables, s0: State, s: State, t': Tables)
    requires s0.existing == DawnIds(t) && s0.total == StoredTotal(t).GetOr(0)
    requires StoredTotal(t') == Some(s.total) && s.total == s0.total + |SavedThisRun(s0, s)|
    requires DawnIds(t') == s.existing && s0.existing <= s.existing
    requires forall id :: id in SavedThisRun(s0, s) ==> id <= s.articleId - 1
    requires StoredLastId(t') == Some(s.articleId - 1)
    requires AtMost(StoredLastId(t), StoredLastId(t'))
    ensures Advanced(t, t')
  {
    assert DawnIds(t') - DawnIds(t) == SavedThisRun(s0, s);
  }

  /** What `Run` does on the way to `Finished`. */
  lemma FinishedShape(t: Tables, os: seq<Outcome>)
    requires Run(t, os).Finished?
    ensures Resume(t).Ok? && Loop(Resume(t).value, os).Stopped?
    ensures FinalFlush(Loop(Resume(t).value, os).state).Ok?
    ensures Run(t, os).durable == FinalFlush(Loop(Resume(t).value, os).state).value.committed
  {
  }

  /** The loop states behind a run that reached the final flush, and what the flush made durable. */
  lemma FinishedRun(t: Tables, os: seq<Outcome>) returns (s0: State, s: State)
    requires Run(t, os).Finished?
    ensures s0 == Resume(t).value && s == Loop(s0, os).state
    ensures var t' := Run(t, os).durable;
      && s0.existing == DawnIds(t) && s0.total == StoredTotal(t).GetOr(0)
      && ProgressReadable(t')
      && StoredTotal(t') == Some(s.total)
      && s.total == s0.total + |SavedThisRun(s0, s)|
      && s0.existing <= s.existing
      && DawnIds(t') == s.existing
      && AtMost(StoredLastId(t), StoredLastId(t'))
      && StoredLastId(t') == Some(s.articleId - 1)
      && (forall id :: id in SavedThisRun(s0, s) ==> id <= s.articleId - 1)
  {
    FinishedShape(t, os);
    s0, s := RunReaches(t, os);
    FinalFlushDurable(s0, s);
  }

  /**
   * A run that stops after 50 misses leaves a checkpoint that never went back,
   * that covers every row the run stored, and that counts each of them once.
   */
  lemma CheckpointAfterRun(t: Tables, os: seq<Outcome>)
    requires Run(t, os).Finished?
    ensures Advanced(t, Run(t, os).durable)
  {
    var s0, s := FinishedRun(t, os);
    FlushedAgainstResumed(t, s0, s, Run(t, os).durable);
  }

  /** Between commits: every durable row of the run lies at or below the durable checkpoint. */
  lemma CheckpointWhileRunning(t: Tables, os: seq<Outcome>)
    requires Run(t, os).Unfinished?
    ensures var s := Run(t, os).state;
      && AtMost(StoredLastId(t), StoredLastId(s.db.committed))
      && (forall id :: id in DawnIds(s.db.committed) - DawnIds(t) ==> AtMost(Some(id), StoredLastId(s.db.committed)))
      && StoredTotal(s.db.committed).GetOr(0) + |s.db.pendingArticles| == s.total
  {
    var s0, s := RunReaches(t, os);
    assert Run(t, os).state == s;
    forall id | id in DawnIds(s.db.committed) - DawnIds(t)
      ensures AtMost(Some(id), StoredLastId(s.db.committed))
    {
      assert id in SavedThisRun(s0, s) && id !in s.db.pendingArticles;
    }
  }

  /** A restart after a run that stopped resumes at the ID that stopped it, with the same total and stored IDs. */
  lemma ResumeAfterStop(t: Tables, os: seq<Outcome>)
    requires Run(t, os).Finished?
    ensures var s := Loop(Resume(t).value, os).state;
      var r := Resume(Run(t, os).durable);
      && r.Ok?
      && r.value.articleId == s.articleId
      && r.value.total == s.total
      && r.value.existing == s.existing
  {
    var s0, s := FinishedRun(t, os);
  }

  /**
   * Killing the process in state `s` loses only its pending rows: a restart
   * on the durable tables resumes at or before the current ID and at or
   * before every lost row, so it probes them again, with the current total
   * less the lost rows and the stored IDs less the lost ones.
   */
  ghost predicate LosesOnlyPending(s: State) {
    var r := Resume(s.db.committed);
    && r.Ok?
    && r.value.articleId <= s.articleId
    && (forall id :: id in s.db.pendingArticles ==> r.value.articleId <= id)
    && r.value.total + |s.db.pendingArticles| == s.total
    && r.value.existing == s.existing - s.db.pendingArticles.Keys
  }

  /** Any loop head of a run resumed from `t` can be interrupted with the loss of its pending rows only. */
  lemma InterruptAnywhere(t: Tables, s0: State, s: State)
    requires Resume(t).Ok? && s0 == Resume(t).value && RunInv(s0, s)
    ensures LosesOnlyPending(s)
  {
    var c := s.db.committed;
    assert Resume(c).Ok?;
    if StoredLastId(c).None? {
      assert StoredLastId(t).None?;
      assert s0.articleId == 1;
    }
  }

  /** A run cut short, after any number of requests, loses only its pending rows. */
  lemma ResumeAfterInterruption(t: Tables, os: seq<Outcome>)
    requires Run(t, os).Unfinished?
    ensures LosesOnlyPending(Run(t, os).state)
  {
    var s0, s := RunReaches(t, os);
    assert Run(t, os).state == s;
    InterruptAnywhere(t, s0, s);
  }

  /** A run that crashes leaves the durable tables exactly as it found them. */
  lemma CrashKeepsTables(t: Tables, os: seq<Outcome>)
    requires Run(t, os).Crashed?
    ensures Run(t, os).durable == t
    ensures Run(t, os).reason.UnboundDate? ==> Resume(t).Ok? && Loop(Resume(t).value, os).state.counter == 0
  {
    if Resume(t).Ok? {
      var s0, s := RunReaches(t, os);
      assert Loop(s0, os).Stopped? && FinalFlush(s).Err?;
    }
  }
}
