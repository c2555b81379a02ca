/**
 * The stop rule of the crawl loop (scripts/scrape_dawn.py lines 83-92): the
 * loop breaks on the 50th 404 in a row, on the ID of that 404, and any other
 * response starts the count again.
 */
module CrawlStopping {
  import opened Wrappers
  import opened Extraction
  import opened Store
  import opened Crawl

  /** `k` responses with status 404 in a row. */
  function Misses(k: nat): (os: seq<Outcome>)
    ensures |os| == k && forall i :: 0 <= i < k ==> os[i] == NotFound
  {
    seq(k, _ => NotFound)
  }

  /** No stored ID lies at or beyond the current one, so the loop skips nothing from here on. */
  predicate NoneAhead(s: State) {
    forall id :: id in s.existing ==> id < s.articleId
  }

  /** Fewer than the remaining allowance of 404s each move one ID on and add one to the count. */
  lemma {:induction false} MissesAdvance(s: State, k: nat, rest: seq<Outcome>)
    requires s.misses + k < MAX_NOT_FOUND && NoneAhead(s)
    ensures Loop(s, Misses(k) + rest) == Loop(s.(misses := s.misses + k, articleId := s.articleId + k), rest)
    decreases k
  {
    if k == 0 {
      assert Misses(k) + rest == rest;
      assert s.(misses := s.misses + k, articleId := s.articleId + k) == s;
    } else {
      var os := Misses(k) + rest;
      LoopVisits(s, os);
      var s1 := s.(misses := s.misses + 1, articleId := s.articleId + 1);
      assert Visit(s, NotFound) == Next(s1);
      assert os[1..] == Misses(k - 1) + rest;
      MissesAdvance(s1, k - 1, rest);
      assert s1.(misses := s1.misses + (k - 1), articleId := s1.articleId + (k - 1))
          == s.(misses := s.misses + k, articleId := s.articleId + k);
    }
  }

  /**
   * From a count of `m` misses, `50 - m` more stop the loop on the last of
   * them, with `article_id` left on that ID, and consume nothing after it.
   */
  lemma StopOnFiftiethMiss(s: State, rest: seq<Outcome>)
    requires s.misses < MAX_NOT_FOUND && NoneAhead(s)
    ensures var last := s.articleId + (MAX_NOT_FOUND - 1 - s.misses);
      Loop(s, Misses(MAX_NOT_FOUND - s.misses) + rest)
        == Stopped(s.(misses := MAX_NOT_FOUND, articleId := last), rest)
  {
    var k: nat := MAX_NOT_FOUND - 1 - s.misses;
    assert Misses(k + 1) + rest == Misses(k) + ([NotFound] + rest);
    MissesAdvance(s, k, [NotFound] + rest);
    var s1 := s.(misses := s.misses + k, articleId := s.articleId + k);
    LoopVisits(s1, [NotFound] + rest);
    assert ([NotFound] + rest)[1..] == rest;
  }

  /** The final flush records `article_id - 1`, and the next run resumes on `article_id`. */
  lemma FlushResumes(s: State)
    requires s.date.Some? && ProgressReadable(s.db.committed) && s.db.pendingProgress == map[]
    ensures FinalFlush(s).Ok?
    ensures StoredLastId(FinalFlush(s).value.committed) == Some(s.articleId - 1)
    ensures Resume(FinalFlush(s).value.committed).Ok?
    ensures Resume(FinalFlush(s).value.committed).value.articleId == s.articleId
  {
    var t := Commit(UpdateProgress(s.db, s.articleId - 1, s.date.value, s.total)).committed;
    assert StoredLastId(t) == Some(s.articleId - 1) && ProgressReadable(t) by {
      ProgressRoundTrip(s.db, s.articleId - 1, s.date.value, s.total);
    }
  }

  /**
   * The final flush after such a stop records the ID before the one that
   * stopped the loop: `article_id - 1`, and the next run starts on the last
   * missed ID again.
   */
  lemma FlushAfterStop(s: State, rest: seq<Outcome>)
    requires s.misses < MAX_NOT_FOUND && NoneAhead(s)
    requires s.date.Some? && ProgressReadable(s.db.committed) && s.db.pendingProgress == map[]
    ensures var stop := Loop(s, Misses(MAX_NOT_FOUND - s.misses) + rest).state;
      var last := s.articleId + (MAX_NOT_FOUND - 1 - s.misses);
      && FinalFlush(stop).Ok?
      && StoredLastId(FinalFlush(stop).value.committed) == Some(last - 1)
      && Resume(FinalFlush(stop).value.committed).Ok?
      && Resume(FinalFlush(stop).value.committed).value.articleId == last
  {
    var last := s.articleId + (MAX_NOT_FOUND - 1 - s.misses);
    var stop := s.(misses := MAX_NOT_FOUND, articleId := last);
    assert Loop(s, Misses(MAX_NOT_FOUND - s.misses) + rest).state == stop by {
      StopOnFiftiethMiss(s, rest);
    }
    FlushResumes(stop);
  }

  /**
   * Any response other than a 404 sets the count back to 0, even for a page
   * that is then passed over, so 49 further 404s do not stop the loop.
   */
  lemma FetchRestartsCount(s: State, p: Page, rest: seq<Outcome>)
    requires NoneAhead(s)
    ensures var s1 := Visit(s, Fetched(p)).state;
      && s1.misses == 0
      && Loop(s, [Fetched(p)] + Misses(MAX_NOT_FOUND - 1) + rest)
        == Loop(s1.(misses := MAX_NOT_FOUND - 1, articleId := s1.articleId + (MAX_NOT_FOUND - 1)), rest)
  {
    var os := [Fetched(p)] + Misses(MAX_NOT_FOUND - 1) + rest;
    LoopVisits(s, os);
    var s1 := Visit(s, Fetched(p)).state;
    assert s1.existing <= s.existing + {s.articleId};
    assert NoneAhead(s1);
    assert os[1..] == Misses(MAX_NOT_FOUND - 1) + rest;
    MissesAdvance(s1, MAX_NOT_FOUND - 1, rest);
  }

  /** A request that raises is retried on the same ID: the loop goes on as if it never happened. */
  lemma RetryOnFailure(s: State, rest: seq<Outcome>)
    requires s.articleId !in s.existing
    ensures Loop(s, [RequestFailed] + rest) == Loop(s, rest)
  {
    LoopVisits(s, [RequestFailed] + rest);
    assert ([RequestFailed] + rest)[1..] == rest;
  }
}
