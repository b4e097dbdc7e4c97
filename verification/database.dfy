/**
 * The `history` table: rows `(id, file, url, ts)` with an AUTOINCREMENT id.
 * SQLite is not modelled; its documented behaviour for this schema is.
 */
module Database {
  import opened Common
  import Sorting

  datatype Record = Record(id: int, file: string, url: string, ts: int)

  /**
   * What the database file holds: the rows in insertion order and the largest id
   * AUTOINCREMENT has handed out so far (its `sqlite_sequence` entry).
   */
  datatype Table = Table(rows: seq<Record>, lastId: nat)

  /** A database file that does not exist yet. */
  const EmptyTable := Table([], 0)

  /** Python's message when a method runs after `close()` has set `conn` to None. */
  const ClosedError := "'NoneType' object has no attribute 'execute'"

  function Ts(r: Record): int {
    r.ts
  }

  /** Largest id among `rows`, 0 for none. */
  function MaxId(rows: seq<Record>): (m: int)
    ensures m >= 0
    ensures forall k :: 0 <= k < |rows| ==> rows[k].id <= m
  {
    if rows == [] then 0
    else
      var m := MaxId(rows[..|rows| - 1]);
      var last := rows[|rows| - 1].id;
      if last > m then last else m
  }

  /** AUTOINCREMENT: one more than the largest id ever used, whether or not its row is still there. */
  function NextId(rows: seq<Record>, lastId: nat): (id: nat)
    ensures id > lastId
    ensures forall k :: 0 <= k < |rows| ==> rows[k].id < id
  {
    if lastId > MaxId(rows) then lastId + 1 else MaxId(rows) + 1
  }

  /** `int(ts)` when the caller gives one, otherwise the clock reading `now`. */
  function StampOrNow(ts: Option<int>, now: int): int {
    if ts.Some? then ts.value else now
  }

  /** Ids strictly increase in insertion order and none exceeds the counter. */
  ghost predicate IdsIncreasing(rows: seq<Record>, lastId: nat) {
    && (forall i, j :: 0 <= i < j < |rows| ==> rows[i].id < rows[j].id)
    && (forall k :: 0 <= k < |rows| ==> rows[k].id <= lastId)
  }

  /** `MediaDB`: a connection to the history table. */
  class MediaDB {
    var rows: seq<Record>
    var lastId: nat
    /** `self.conn is not None`. */
    var isOpen: bool

    /** The table as it is on disk. */
    function Disk(): Table
      reads this
    {
      Table(rows, lastId)
    }

    /**
     * Opens `disk`. `CREATE TABLE/INDEX IF NOT EXISTS` leave an existing table
     * alone, so opening keeps every row and the id counter.
     */
    constructor (disk: Table)
      ensures isOpen && Disk() == disk
    {
      rows := disk.rows;
      lastId := disk.lastId;
      isOpen := true;
    }

    /** `close()`: drops the connection the first time; later calls do nothing. */
    method Close()
      modifies this
      ensures !isOpen && Disk() == old(Disk())
    {
      if isOpen {
        isOpen := false;
      }
    }

    /**
     * `insert_history(file, url, ts)`: appends exactly one row, stamped `ts` or
     * the clock reading `now`, and returns its id, larger than every earlier id.
     */
    method InsertHistory(file: string, url: string, ts: Option<int>, now: int) returns (r: Result<int>)
      modifies this
      ensures isOpen == old(isOpen)
      ensures !old(isOpen) ==> r == Err(ClosedError) && Disk() == old(Disk())
      ensures old(isOpen) ==> r.Ok? && r.value == NextId(old(rows), old(lastId))
      ensures old(isOpen) ==> rows == old(rows) + [Record(r.value, file, url, StampOrNow(ts, now))]
      ensures old(isOpen) ==> lastId == r.value
      ensures old(isOpen) ==> forall k :: 0 <= k < |old(rows)| ==> old(rows)[k].id < r.value
      ensures old(IdsIncreasing(rows, lastId)) ==> IdsIncreasing(rows, lastId)
    {
      if !isOpen {
        return Err(ClosedError);
      }
      var id := NextId(rows, lastId);
      rows := rows + [Record(id, file, url, StampOrNow(ts, now))];
      lastId := id;
      r := Ok(id);
    }

    /**
     * `select_history(newest_first)`: every stored row, ordered by `ts`
     * (non-increasing when `newestFirst`). SQLite leaves the order of equal
     * stamps open, and so does this contract.
     */
    method SelectHistory(newestFirst: bool) returns (r: Result<seq<Record>>)
      ensures !isOpen ==> r == Err(ClosedError)
      ensures isOpen ==> r.Ok? && multiset(r.value) == multiset(rows)
      ensures isOpen ==> Sorting.SortedBy(r.value, Ts, newestFirst)
    {
      if !isOpen {
        return Err(ClosedError);
      }
      r := Ok(Sorting.Sort(rows, Ts, newestFirst));
    }
  }

  /** Two inserts in a row hand out strictly increasing ids. */
  method InsertTwice(db: MediaDB, file: string, url: string, now: int) returns (first: int, second: int)
    requires db.isOpen
    modifies db
    ensures first < second
    ensures db.rows == old(db.rows) + [Record(first, file, url, now), Record(second, file, url, now)]
  {
    var a := db.InsertHistory(file, url, None, now);
    var b := db.InsertHistory(file, url, None, now);
    first, second := a.value, b.value;
  }

  /** Closing twice is closing once, and reopening the file finds every row again. */
  method CloseTwiceThenReopen(db: MediaDB) returns (again: MediaDB)
    modifies db
    ensures !db.isOpen && db.Disk() == old(db.Disk())
    ensures again.isOpen && again.rows == old(db.rows)
  {
    db.Close();
    db.Close();
    again := new MediaDB(db.Disk());
  }
}
