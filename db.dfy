/**
 * The URL store (`urls(id, url, timestamp)`) and the actor that owns it.
 *
 * `DatabaseBackend` is the single writer: it drains a FIFO of `Query` jobs and
 * answers each with one `Out`. `Database` is the handle the modules hold; each
 * of its calls sends one job and waits for the answer, which sequentially
 * means the backend handles that job at once.
 */
module Db {

  /** One row of the `urls` table; the timestamp is an opaque clock reading. */
  datatype Row = Row(url: string, timestamp: string)

  /** The jobs the actor accepts. */
  datatype Query = InsertUrl(url: string) | CheckForUrl(url: string)

  /** The actor's answers. */
  datatype Out = Ok | Bool(b: bool)

  /** `SELECT COUNT(*) FROM urls WHERE url = ?`: rows whose URL is exactly `url`. */
  function Count(rows: seq<Row>, url: string): (c: nat)
    ensures c <= |rows|
    ensures c == |RowsFor(rows, url)|
    decreases |rows|
  {
    if rows == [] then 0
    else Count(rows[..|rows| - 1], url) + (if rows[|rows| - 1].url == url then 1 else 0)
  }

  /** Some row records exactly this URL (no normalisation). */
  ghost predicate Stored(rows: seq<Row>, url: string) {
    exists k :: 0 <= k < |rows| && rows[k].url == url
  }

  /** The URL column, in row order. */
  function Urls(rows: seq<Row>): seq<string>
    decreases |rows|
  {
    if rows == [] then [] else Urls(rows[..|rows| - 1]) + [rows[|rows| - 1].url]
  }

  /** The rows for one URL, in row order. */
  function RowsFor(rows: seq<Row>, url: string): seq<Row>
    decreases |rows|
  {
    if rows == [] then []
    else RowsFor(rows[..|rows| - 1], url) + (if rows[|rows| - 1].url == url then [rows[|rows| - 1]] else [])
  }

  /**
   * The effect of one job on the table. An insert appends a row stamped with
   * the clock reading taken when the table holds `|rows|` rows; a check
   * changes nothing.
   */
  function Apply(rows: seq<Row>, q: Query, clock: nat -> string): (r: seq<Row>)
    ensures rows <= r
    ensures |r| == |rows| + (if q.InsertUrl? then 1 else 0)
    ensures q.InsertUrl? ==> r[|rows|].url == q.url
  {
    match q
    case InsertUrl(url) => rows + [Row(url, clock(|rows|))]
    case CheckForUrl(_) => rows
  }

  /** The answer to one job, given the table when the actor receives it. */
  function Answer(rows: seq<Row>, q: Query): (o: Out)
    ensures o.Bool? <==> q.CheckForUrl?
    ensures q.CheckForUrl? ==> (o == Bool(true) <==> Stored(rows, q.url))
  {
    match q
    case InsertUrl(_) => Ok
    case CheckForUrl(url) => CountPositiveIffStored(rows, url); Bool(Count(rows, url) > 0)
  }

  /** The table after the actor has handled `jobs`, in receive order. */
  function After(rows: seq<Row>, jobs: seq<Query>, clock: nat -> string): (r: seq<Row>)
    ensures rows <= r && |r| <= |rows| + |jobs|
    decreases |jobs|
  {
    if jobs == [] then rows
    else Apply(After(rows, jobs[..|jobs| - 1], clock), jobs[|jobs| - 1], clock)
  }

  /** The answers the actor sends for `jobs`, in receive order. */
  function Replies(rows: seq<Row>, jobs: seq<Query>, clock: nat -> string): (replies: seq<Out>)
    ensures |replies| == |jobs|
    decreases |jobs|
  {
    if jobs == [] then []
    else
      var earlier := jobs[..|jobs| - 1];
      Replies(rows, earlier, clock) + [Answer(After(rows, earlier, clock), jobs[|jobs| - 1])]
  }

  /** The client's reading of an answer to a check: `Bool(b)` is `b`, `Ok` is `false`. */
  function AsBool(o: Out): (b: bool)
    ensures b <==> o == Bool(true)
  {
    match o
    case Ok => false
    case Bool(b) => b
  }

  /** A positive count means some row holds exactly that URL, and back. */
  lemma {:induction false} CountPositiveIffStored(rows: seq<Row>, url: string)
    ensures Count(rows, url) > 0 <==> Stored(rows, url)
    decreases |rows|
  {
    if rows != [] {
      var front := rows[..|rows| - 1];
      CountPositiveIffStored(front, url);
      if Stored(front, url) {
        var k :| 0 <= k < |front| && front[k].url == url;
        assert rows[k] == front[k];
      }
      if Stored(rows, url) {
        var k :| 0 <= k < |rows| && rows[k].url == url;
        if k < |front| {
          assert front[k] == rows[k];
        }
      }
    }
  }

  /** The URL column has one entry per row, in row order. */
  lemma {:induction false} UrlsOfRows(rows: seq<Row>)
    ensures |Urls(rows)| == |rows|
    ensures forall k :: 0 <= k < |rows| ==> Urls(rows)[k] == rows[k].url
    decreases |rows|
  {
    if rows != [] {
      UrlsOfRows(rows[..|rows| - 1]);
    }
  }

  /** A URL is stored exactly when it appears in the URL column. */
  lemma StoredIffListed(rows: seq<Row>, url: string)
    ensures Stored(rows, url) <==> url in Urls(rows)
  {
    UrlsOfRows(rows);
    if url in Urls(rows) {
      var k :| 0 <= k < |Urls(rows)| && Urls(rows)[k] == url;
      assert rows[k].url == url;
    }
  }

  /** A check answers whether a row holds exactly that URL, and leaves the table as it was. */
  lemma CheckAnswersStored(rows: seq<Row>, url: string, clock: nat -> string)
    ensures Answer(rows, CheckForUrl(url)) == Bool(Stored(rows, url))
    ensures Apply(rows, CheckForUrl(url), clock) == rows
  {
    CountPositiveIffStored(rows, url);
  }

  /** Handling jobs never removes or rewrites a row: the old table is a prefix of the new one. */
  lemma {:induction false} StoreOnlyGrows(rows: seq<Row>, jobs: seq<Query>, clock: nat -> string)
    ensures rows <= After(rows, jobs, clock)
    decreases |jobs|
  {
    if jobs != [] {
      StoreOnlyGrows(rows, jobs[..|jobs| - 1], clock);
    }
  }

  /** After a batch of jobs, a URL is stored exactly when it was stored before or some job inserted it. */
  lemma {:induction false} StoredAfterIff(rows: seq<Row>, jobs: seq<Query>, clock: nat -> string, url: string)
    ensures Stored(After(rows, jobs, clock), url) <==>
            Stored(rows, url) || exists i :: 0 <= i < |jobs| && jobs[i] == InsertUrl(url)
    decreases |jobs|
  {
    if jobs != [] {
      var earlier := jobs[..|jobs| - 1];
      var before := After(rows, earlier, clock);
      var last := jobs[|jobs| - 1];
      StoredAfterIff(rows, earlier, clock, url);
      var after := After(rows, jobs, clock);
      assert after == Apply(before, last, clock);
      if Stored(before, url) {
        var k :| 0 <= k < |before| && before[k].url == url;
        assert after[k] == before[k];
      }
      if Stored(after, url) {
        var k :| 0 <= k < |after| && after[k].url == url;
        if k >= |before| {
          assert last == InsertUrl(url);
        } else {
          assert before[k] == after[k];
        }
      }
      if exists i :: 0 <= i < |earlier| && earlier[i] == InsertUrl(url) {
        var i :| 0 <= i < |earlier| && earlier[i] == InsertUrl(url);
        assert jobs[i] == earlier[i];
      }
      if exists i :: 0 <= i < |jobs| && jobs[i] == InsertUrl(url) {
        var i :| 0 <= i < |jobs| && jobs[i] == InsertUrl(url);
        if i < |earlier| {
          assert earlier[i] == jobs[i];
        } else {
          assert after[|before|].url == url;
        }
      }
    }
  }

  /**
   * Every job gets exactly one answer, in receive order, and the i-th answer
   * is computed on the table left by the jobs before it.
   */
  lemma {:induction false} RepliesInOrder(rows: seq<Row>, jobs: seq<Query>, clock: nat -> string)
    ensures forall i :: 0 <= i < |jobs| ==>
              Replies(rows, jobs, clock)[i] == Answer(After(rows, jobs[..i], clock), jobs[i])
    decreases |jobs|
  {
    if jobs != [] {
      var earlier := jobs[..|jobs| - 1];
      RepliesInOrder(rows, earlier, clock);
      var replies := Replies(rows, jobs, clock);
      assert replies == Replies(rows, earlier, clock) + [Answer(After(rows, earlier, clock), jobs[|jobs| - 1])];
      forall i | 0 <= i < |jobs|
        ensures replies[i] == Answer(After(rows, jobs[..i], clock), jobs[i])
      {
        if i < |earlier| {
          assert earlier[..i] == jobs[..i] && earlier[i] == jobs[i];
          assert replies[i] == Replies(rows, earlier, clock)[i];
        } else {
          assert jobs[..i] == earlier;
        }
      }
    }
  }

  /** An insert is answered `Ok` and a check is answered with a `Bool`. */
  lemma ReplyKinds(rows: seq<Row>, jobs: seq<Query>, clock: nat -> string)
    ensures forall i :: 0 <= i < |jobs| && jobs[i].InsertUrl? ==> Replies(rows, jobs, clock)[i] == Ok
    ensures forall i :: 0 <= i < |jobs| && jobs[i].CheckForUrl? ==> Replies(rows, jobs, clock)[i].Bool?
  {
    RepliesInOrder(rows, jobs, clock);
  }

  /**
   * A check answers `true` exactly when the URL was stored before the batch or
   * an insert of it was received earlier: the table is linearised by receive order.
   */
  lemma CheckSeesEarlierInserts(rows: seq<Row>, jobs: seq<Query>, clock: nat -> string, j: nat)
    requires j < |jobs| && jobs[j].CheckForUrl?
    ensures Replies(rows, jobs, clock)[j] ==
            Bool(Stored(rows, jobs[j].url) || exists i :: 0 <= i < j && jobs[i] == InsertUrl(jobs[j].url))
  {
    var url := jobs[j].url;
    var earlier := jobs[..j];
    RepliesInOrder(rows, jobs, clock);
    CheckAnswersStored(After(rows, earlier, clock), url, clock);
    StoredAfterIff(rows, earlier, clock, url);
    if exists i :: 0 <= i < j && jobs[i] == InsertUrl(url) {
      var i :| 0 <= i < j && jobs[i] == InsertUrl(url);
      assert earlier[i] == jobs[i];
    }
  }

  /** Once an insert of a URL has been handled, every later check of it answers `true`. */
  lemma InsertThenCheck(rows: seq<Row>, jobs: seq<Query>, clock: nat -> string, i: nat, j: nat)
    requires i < j < |jobs|
    requires jobs[i].InsertUrl? && jobs[j] == CheckForUrl(jobs[i].url)
    ensures Replies(rows, jobs, clock)[j] == Bool(true)
  {
    CheckSeesEarlierInserts(rows, jobs, clock, j);
  }

  /**
   * Inserting the same URL twice writes two rows, yet a check answers as it
   * would after one insert.
   */
  lemma DuplicateInsert(rows: seq<Row>, url: string, clock: nat -> string)
    ensures |After(rows, [InsertUrl(url), InsertUrl(url)], clock)| == |rows| + 2
    ensures Count(After(rows, [InsertUrl(url), InsertUrl(url)], clock), url) == Count(rows, url) + 2
    ensures Answer(After(rows, [InsertUrl(url), InsertUrl(url)], clock), CheckForUrl(url))
         == Answer(After(rows, [InsertUrl(url)], clock), CheckForUrl(url))
         == Bool(true)
  {
    var once := After(rows, [InsertUrl(url)], clock);
    assert [InsertUrl(url)][..0] == [];
    assert After(rows, [], clock) == rows;
    assert [InsertUrl(url), InsertUrl(url)][..1] == [InsertUrl(url)];
    assert once == rows + [Row(url, clock(|rows|))];
    var twice := After(rows, [InsertUrl(url), InsertUrl(url)], clock);
    assert twice == once + [Row(url, clock(|once|))];
    assert twice[..|twice| - 1] == once;
    assert once[..|once| - 1] == rows;
  }

  /** Jobs that never insert a URL leave that URL's rows exactly as they were. */
  lemma {:induction false} OtherRowsUntouched(rows: seq<Row>, jobs: seq<Query>, clock: nat -> string, url: string)
    requires forall i :: 0 <= i < |jobs| ==> jobs[i] != InsertUrl(url)
    ensures RowsFor(After(rows, jobs, clock), url) == RowsFor(rows, url)
    decreases |jobs|
  {
    if jobs != [] {
      var earlier := jobs[..|jobs| - 1];
      OtherRowsUntouched(rows, earlier, clock, url);
      var before := After(rows, earlier, clock);
      if jobs[|jobs| - 1].InsertUrl? {
        var after := After(rows, jobs, clock);
        assert after[..|after| - 1] == before;
      }
    }
  }

  /** The actor: the only owner of the table. */
  class DatabaseBackend {
    /** The wall clock, read as a function of how many rows the table holds when a row is written. */
    const clock: nat -> string
    /** The `urls` table, in insertion order. */
    var rows: seq<Row>

    /**
     * Opens the store. The table is created only if absent, so the rows
     * already in the file are kept.
     */
    constructor (existing: seq<Row>, clock: nat -> string)
      ensures rows == existing && this.clock == clock
    {
      this.rows := existing;
      this.clock := clock;
    }

    /** A fresh handle onto this actor. */
    method TakeDb() returns (db: Database)
      ensures fresh(db) && db.backend == this
    {
      db := new Database(this);
    }

    /** One round of the receive loop: execute the job against the table and answer it. */
    method Handle(q: Query) returns (o: Out)
      modifies this
      ensures rows == Apply(old(rows), q, clock)
      ensures o == Answer(old(rows), q)
    {
      match q
      case InsertUrl(url) =>
        var timestamp := clock(|rows|);
        rows := rows + [Row(url, timestamp)];
        o := Ok;
      case CheckForUrl(url) =>
        var count := Count(rows, url);
        o := Bool(count > 0);
    }

    /**
     * The receive loop over the jobs that arrive before the queue closes:
     * each is handled in turn and answered once.
     */
    method Run(jobs: seq<Query>) returns (replies: seq<Out>)
      modifies this
      ensures rows == After(old(rows), jobs, clock)
      ensures replies == Replies(old(rows), jobs, clock)
    {
      replies := [];
      var i := 0;
      while i < |jobs|
        invariant 0 <= i <= |jobs|
        invariant rows == After(old(rows), jobs[..i], clock)
        invariant replies == Replies(old(rows), jobs[..i], clock)
      {
        assert jobs[..i + 1][..i] == jobs[..i];
        var o := Handle(jobs[i]);
        replies := replies + [o];
        i := i + 1;
      }
      assert jobs[..i] == jobs;
    }
  }

  /** The handle a module holds: every call is one job sent to the actor and its awaited answer. */
  class Database {
    const backend: DatabaseBackend

    constructor (backend: DatabaseBackend)
      ensures this.backend == backend
    {
      this.backend := backend;
    }

    /** Records a URL; the answer is awaited and discarded. */
    method InsertUrl(url: string)
      modifies backend
      ensures backend.rows == Apply(old(backend.rows), Query.InsertUrl(url), backend.clock)
    {
      var _ := backend.Handle(Query.InsertUrl(url));
    }

    /** Asks whether a URL is recorded. */
    method CheckForUrl(url: string) returns (b: bool)
      modifies backend
      ensures backend.rows == old(backend.rows)
      ensures b <==> Stored(backend.rows, url)
    {
      var o := backend.Handle(Query.CheckForUrl(url));
      b := AsBool(o);
      CountPositiveIffStored(backend.rows, url);
    }
  }
}
