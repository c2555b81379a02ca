/**
 * A whole run on an empty database: three stories, in the categories
 * "pakistan", "world" and "sport", at IDs 1-3, then 404s from ID 4 on.
 */
module CrawlScenario {
  import opened Wrappers
  import opened Extraction
  import opened Store
  import opened Crawl
  import opened CrawlStopping

  const EMPTY: Tables := Tables(map[], map[])

  /** An empty database resumes at ID 1 with a total of 0. */
  lemma ResumeEmpty()
    ensures Resume(EMPTY) == Ok(State(1, 0, 0, 0, {}, None, Open(EMPTY)))
  {
    assert DawnIds(EMPTY) == {};
  }

  /** A page that yields a row, short of a commit: the loop carries on from the state `Save` gives. */
  lemma SaveStep(s: State, p: Page, a: Article, rest: seq<Outcome>)
    requires s.articleId !in s.existing && Extract(s.articleId, p) == Some(a)
    requires (s.counter + 1) % COMMIT_EVERY != 0
    ensures Loop(s, [Fetched(p)] + rest) == Loop(
      State(s.articleId + 1, 0, s.counter + 1, s.total + 1, s.existing + {s.articleId}, Some(a.date),
            s.db.(pendingArticles := s.db.pendingArticles[s.articleId := a])),
      rest)
  {
    var os := [Fetched(p)] + rest;
    var s' := State(s.articleId + 1, 0, s.counter + 1, s.total + 1, s.existing + {s.articleId}, Some(a.date),
                    s.db.(pendingArticles := s.db.pendingArticles[s.articleId := a]));
    assert Save(s.(misses := 0), a) == s';
    assert Visit(s, Fetched(p)) == Next(s');
    assert Loop(s, os) == Loop(s', os[1..]) by {
      LoopVisits(s, os);
    }
    assert os[1..] == rest;
  }

  /** The first two requests save one row each. */
  lemma TwoStories(p1: Page, p2: Page, rest: seq<Outcome>)
    requires Extract(1, p1).Some? && Extract(2, p2).Some?
    ensures Loop(State(1, 0, 0, 0, {}, None, Open(EMPTY)), [Fetched(p1), Fetched(p2)] + rest)
      == Loop(State(3, 0, 2, 2, {1, 2}, Some(Extract(2, p2).value.date),
                    Db(EMPTY, map[1 := Extract(1, p1).value, 2 := Extract(2, p2).value], map[])), rest)
  {
    var a1, a2 := Extract(1, p1).value, Extract(2, p2).value;
    var tail := [Fetched(p2)] + rest;
    assert [Fetched(p1), Fetched(p2)] + rest == [Fetched(p1)] + tail;
    SaveStep(State(1, 0, 0, 0, {}, None, Open(EMPTY)), p1, a1, tail);
    assert {} + {1} == {1};
    SaveStep(State(2, 0, 1, 1, {1}, Some(a1.date), Db(EMPTY, map[1 := a1], map[])), p2, a2, rest);
    assert {1} + {2} == {1, 2};
  }

  /** The rows of three pages that each yield one, saved under IDs 1-3. */
  function ThreeRows(p1: Page, p2: Page, p3: Page): map<int, Article>
    requires Extract(1, p1).Some? && Extract(2, p2).Some? && Extract(3, p3).Some?
  {
    map[1 := Extract(1, p1).value, 2 := Extract(2, p2).value, 3 := Extract(3, p3).value]
  }

  /** The loop state after the three stories, with nothing committed yet. */
  function AfterThree(p1: Page, p2: Page, p3: Page): State
    requires Extract(1, p1).Some? && Extract(2, p2).Some? && Extract(3, p3).Some?
  {
    State(4, 0, 3, 3, {1, 2, 3}, Some(Extract(3, p3).value.date), Db(EMPTY, ThreeRows(p1, p2, p3), map[]))
  }

  /** The first three requests save one row each. */
  lemma ThreeStories(p1: Page, p2: Page, p3: Page, rest: seq<Outcome>)
    requires Extract(1, p1).Some? && Extract(2, p2).Some? && Extract(3, p3).Some?
    ensures Loop(State(1, 0, 0, 0, {}, None, Open(EMPTY)), [Fetched(p1), Fetched(p2), Fetched(p3)] + rest)
      == Loop(AfterThree(p1, p2, p3), rest)
  {
    var a1, a2, a3 := Extract(1, p1).value, Extract(2, p2).value, Extract(3, p3).value;
    var tail := [Fetched(p3)] + rest;
    assert [Fetched(p1), Fetched(p2), Fetched(p3)] + rest == [Fetched(p1), Fetched(p2)] + tail;
    TwoStories(p1, p2, tail);
    SaveStep(State(3, 0, 2, 2, {1, 2}, Some(a2.date), Db(EMPTY, map[1 := a1, 2 := a2], map[])), p3, a3, rest);
    assert {1, 2} + {3} == {1, 2, 3};
  }

  /** Three stories and then 50 404s: the loop breaks on ID 53 with all three rows pending. */
  lemma ThreeStoriesThenStop(p1: Page, p2: Page, p3: Page)
    requires Extract(1, p1).Some? && Extract(2, p2).Some? && Extract(3, p3).Some?
    ensures Loop(State(1, 0, 0, 0, {}, None, Open(EMPTY)), [Fetched(p1), Fetched(p2), Fetched(p3)] + Misses(50))
      == Stopped(AfterThree(p1, p2, p3).(misses := MAX_NOT_FOUND, articleId := 53), [])
  {
    var s3 := AfterThree(p1, p2, p3);
    ThreeStories(p1, p2, p3, Misses(50));
    assert Misses(50) + [] == Misses(50);
    assert NoneAhead(s3);
    StopOnFiftiethMiss(s3, []);
  }

  /** The final flush on an empty database with `rows` pending makes them durable with a last ID of 52 and a total of 3. */
  lemma FlushRows(rows: map<int, Article>, date: Option<string>)
    ensures var t := Commit(UpdateProgress(Db(EMPTY, rows, map[]), 52, date, 3)).committed;
      t.articles == rows && StoredTotal(t) == Some(3) && StoredLastId(t) == Some(52)
  {
    var db := Db(EMPTY, rows, map[]);
    var t := Commit(UpdateProgress(db, 52, date, 3)).committed;
    assert StoredTotal(t) == Some(3) && StoredLastId(t) == Some(52) by {
      ProgressRoundTrip(db, 52, date, 3);
    }
    assert t.articles == map[] + rows;
  }

  /** The whole run: resume on the empty database, three stories, 50 404s, and the final flush. */
  lemma RunThree(p1: Page, p2: Page, p3: Page)
    requires Extract(1, p1).Some? && Extract(2, p2).Some? && Extract(3, p3).Some?
    ensures Run(EMPTY, [Fetched(p1), Fetched(p2), Fetched(p3)] + Misses(50))
      == Finished(Commit(UpdateProgress(Db(EMPTY, ThreeRows(p1, p2, p3), map[]), 52, Extract(3, p3).value.date, 3)).committed)
  {
    ResumeEmpty();
    ThreeStoriesThenStop(p1, p2, p3);
  }

  /** The rows of the three stories carry their categories. */
  lemma RowCategories(p1: Page, p2: Page, p3: Page)
    requires p1.hasBody && p1.hasArticle && FirstKeyword(p1.bodyClasses) == Some("pakistan")
    requires p2.hasBody && p2.hasArticle && FirstKeyword(p2.bodyClasses) == Some("world")
    requires p3.hasBody && p3.hasArticle && FirstKeyword(p3.bodyClasses) == Some("sport")
    ensures ThreeRows(p1, p2, p3).Keys == {1, 2, 3}
    ensures ThreeRows(p1, p2, p3)[1].category == Some("pakistan")
    ensures ThreeRows(p1, p2, p3)[2].category == Some("world")
    ensures ThreeRows(p1, p2, p3)[3].category == Some("sport")
  {
  }

  /**
   * The run ends with three rows in their categories, a total of 3, and a
   * last ID of 52: the 50th 404 is ID 53 and the final flush writes 53 - 1.
   */
  lemma ThreeStoriesThenFiftyMisses(p1: Page, p2: Page, p3: Page)
    requires p1.hasBody && p1.hasArticle && FirstKeyword(p1.bodyClasses) == Some("pakistan")
    requires p2.hasBody && p2.hasArticle && FirstKeyword(p2.bodyClasses) == Some("world")
    requires p3.hasBody && p3.hasArticle && FirstKeyword(p3.bodyClasses) == Some("sport")
    ensures var r := Run(EMPTY, [Fetched(p1), Fetched(p2), Fetched(p3)] + Misses(50));
      && r.Finished?
      && r.durable.articles.Keys == {1, 2, 3}
      && r.durable.articles[1].category == Some("pakistan")
      && r.durable.articles[2].category == Some("world")
      && r.durable.articles[3].category == Some("sport")
      && StoredTotal(r.durable) == Some(3)
      && StoredLastId(r.durable) == Some(52)
  {
    var rows := ThreeRows(p1, p2, p3);
    var t := Commit(UpdateProgress(Db(EMPTY, rows, map[]), 52, Extract(3, p3).value.date, 3)).committed;
    assert Run(EMPTY, [Fetched(p1), Fetched(p2), Fetched(p3)] + Misses(50)) == Finished(t) by {
      RunThree(p1, p2, p3);
    }
    assert t.articles == rows && StoredTotal(t) == Some(3) && StoredLastId(t) == Some(52) by {
      FlushRows(rows, Extract(3, p3).value.date);
    }
    RowCategories(p1, p2, p3);
  }
}
