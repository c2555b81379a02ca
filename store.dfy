/**
 * The SQLite database of scripts/scrape_dawn.py (lines 20-40, 55-59, 139-150,
 * 156-157): the `articles` table keyed by `id` alone and the `progress`
 * key/value table, behind one connection whose writes stay pending until
 * `commit()`. SQL text and the file itself are not modelled.
 */
module Store {
  import opened Wrappers
  import opened Text
  import opened Extraction

  const LAST_ID_KEY: string := "dawn_last_id"
  const LAST_DATE_KEY: string := "dawn_last_date"
  const TOTAL_KEY: string := "dawn_total_articles"

  /** What is durable in the database file. Values of `progress` are TEXT. */
  datatype Tables = Tables(articles: map<int, Article>, progress: map<string, string>)

  /** The connection: the durable tables and the writes of the open transaction. */
  datatype Db = Db(committed: Tables, pendingArticles: map<int, Article>, pendingProgress: map<string, string>)

  /** A connection freshly opened on `t`, with no open transaction. */
  function Open(t: Tables): Db {
    Db(t, map[], map[])
  }

  /** What a query on the connection sees: its own uncommitted writes over the durable rows. */
  function Visible(db: Db): Tables {
    Tables(db.committed.articles + db.pendingArticles, db.committed.progress + db.pendingProgress)
  }

  /** `INSERT OR REPLACE INTO articles`: the primary key is `id` alone. */
  function InsertOrReplace(db: Db, a: Article): Db {
    db.(pendingArticles := db.pendingArticles[a.id := a])
  }

  /** The three rows `update_progress` writes. */
  function ProgressRows(lastId: int, lastDate: Option<string>, total: int): map<string, string> {
    map[LAST_ID_KEY := IntToString(lastId), LAST_DATE_KEY := lastDate.GetOr(""), TOTAL_KEY := IntToString(total)]
  }

  /** `update_progress(last_id, last_date, total)`: `INSERT OR REPLACE INTO progress`. */
  function UpdateProgress(db: Db, lastId: int, lastDate: Option<string>, total: int): Db {
    db.(pendingProgress := db.pendingProgress + ProgressRows(lastId, lastDate, total))
  }

  /** `conn.commit()`: every pending write becomes durable at once, and none stays pending. */
  function Commit(db: Db): (r: Db)
    ensures r.pendingArticles == map[] && r.pendingProgress == map[]
    ensures r.committed.articles.Keys == db.committed.articles.Keys + db.pendingArticles.Keys
    ensures forall id :: id in db.pendingArticles ==> r.committed.articles[id] == db.pendingArticles[id]
    ensures forall id :: id in db.committed.articles && id !in db.pendingArticles ==>
      r.committed.articles[id] == db.committed.articles[id]
    ensures r.committed == Visible(db)
  {
    Open(Visible(db))
  }

  /** The stored `dawn_last_id`, read with `int()`; `None` when absent or unreadable. */
  function StoredLastId(t: Tables): Option<int> {
    if LAST_ID_KEY in t.progress then ParseInt(t.progress[LAST_ID_KEY]) else None
  }

  /** The stored `dawn_total_articles`, read with `int()`; `None` when absent or unreadable. */
  function StoredTotal(t: Tables): Option<int> {
    if TOTAL_KEY in t.progress then ParseInt(t.progress[TOTAL_KEY]) else None
  }

  /** `int()` does not raise on whichever of the two numeric progress rows is present. */
  predicate ProgressReadable(t: Tables) {
    (LAST_ID_KEY in t.progress ==> ParseInt(t.progress[LAST_ID_KEY]).Some?) &&
    (TOTAL_KEY in t.progress ==> ParseInt(t.progress[TOTAL_KEY]).Some?)
  }

  /** `SELECT id FROM articles WHERE source = 'dawn'`. */
  function DawnIds(t: Tables): set<int> {
    set id | id in t.articles && t.articles[id].source == SOURCE
  }

  /** Writing the same row twice leaves the store as writing it once. */
  lemma UpsertIdempotent(db: Db, a: Article)
    ensures InsertOrReplace(InsertOrReplace(db, a), a) == InsertOrReplace(db, a)
  {
    assert InsertOrReplace(InsertOrReplace(db, a), a).pendingArticles == InsertOrReplace(db, a).pendingArticles;
  }

  /** Inserting a row under a new ID adds exactly one pending row. */
  lemma InsertNewRow(db: Db, a: Article)
    requires a.id !in db.pendingArticles
    ensures InsertOrReplace(db, a).pendingArticles.Keys == db.pendingArticles.Keys + {a.id}
    ensures |InsertOrReplace(db, a).pendingArticles| == |db.pendingArticles| + 1
  {
    assert InsertOrReplace(db, a).pendingArticles.Keys == db.pendingArticles.Keys + {a.id};
  }

  /** What `update_progress` writes and `commit` makes durable reads back unchanged. */
  lemma ProgressRoundTrip(db: Db, lastId: int, lastDate: Option<string>, total: int)
    ensures var t := Commit(UpdateProgress(db, lastId, lastDate, total)).committed;
      StoredLastId(t) == Some(lastId) && StoredTotal(t) == Some(total) && ProgressReadable(t)
  {
    ParseIntRoundTrip(lastId);
    ParseIntRoundTrip(total);
  }

  /** The dawn rows after a commit: those durable before and every pending row of source dawn. */
  lemma CommitDawnIds(db: Db)
    requires forall id :: id in db.pendingArticles ==> db.pendingArticles[id].source == SOURCE
    ensures DawnIds(Commit(db).committed) == DawnIds(db.committed) + db.pendingArticles.Keys
  {
    var after := Commit(db).committed.articles;
    forall id | id in after && after[id].source == SOURCE
      ensures id in DawnIds(db.committed) + db.pendingArticles.Keys
    {
    }
    forall id | id in DawnIds(db.committed) + db.pendingArticles.Keys
      ensures id in after && after[id].source == SOURCE
    {
    }
  }

  /**
   * Lines 139-150 on a tenth save: the new row and the progress rows become
   * durable together, and the progress rows read back as the row's ID and the total.
   */
  lemma CommitWithProgress(db: Db, a: Article, total: int)
    requires a.source == SOURCE
    requires forall id :: id in db.pendingArticles ==> db.pendingArticles[id].source == SOURCE
    ensures var c := Commit(UpdateProgress(InsertOrReplace(db, a), a.id, a.date, total));
      && StoredLastId(c.committed) == Some(a.id)
      && StoredTotal(c.committed) == Some(total)
      && ProgressReadable(c.committed)
      && DawnIds(c.committed) == DawnIds(db.committed) + db.pendingArticles.Keys + {a.id}
  {
    var inserted := InsertOrReplace(db, a);
    ProgressRoundTrip(inserted, a.id, a.date, total);
    CommitDawnIds(UpdateProgress(inserted, a.id, a.date, total));
  }

  /** The connection object (`conn` and its `cursor`). */
  class Connection {
    var committed: Tables
    var pendingArticles: map<int, Article>
    var pendingProgress: map<string, string>

    function View(): Db
      reads this
    {
      Db(committed, pendingArticles, pendingProgress)
    }

    /** `sqlite3.connect` on a file holding `t` (the CREATE TABLE IF NOT EXISTS statements change nothing). */
    constructor (t: Tables)
      ensures View() == Open(t)
    {
      committed := t;
      pendingArticles := map[];
      pendingProgress := map[];
    }

    /** `SELECT value FROM progress WHERE key = ?` followed by `fetchone()`. */
    method ProgressValue(key: string) returns (row: Option<string>)
      ensures var visible := Visible(View()).progress;
        row == if key in visible then Some(visible[key]) else None
    {
      var visible := committed.progress + pendingProgress;
      row := if key in visible then Some(visible[key]) else None;
    }

    /** `SELECT id FROM articles WHERE source = 'dawn'`, gathered into a set. */
    method DawnIdSet() returns (ids: set<int>)
      ensures ids == DawnIds(Visible(View()))
    {
      var visible := committed.articles + pendingArticles;
      ids := set id | id in visible && visible[id].source == SOURCE;
    }

    method Insert(a: Article)
      modifies this
      ensures View() == InsertOrReplace(old(View()), a)
    {
      pendingArticles := pendingArticles[a.id := a];
    }

    method WriteProgress(lastId: int, lastDate: Option<string>, total: int)
      modifies this
      ensures View() == UpdateProgress(old(View()), lastId, lastDate, total)
    {
      pendingProgress := pendingProgress + ProgressRows(lastId, lastDate, total);
    }

    method CommitAll()
      modifies this
      ensures View() == Commit(old(View()))
    {
      committed := Tables(committed.articles + pendingArticles, committed.progress + pendingProgress);
      pendingArticles := map[];
      pendingProgress := map[];
    }
  }
}
