/**
 * The sidebar's view model: `MediaItem` rows and `HistoryFormatter.format`,
 * which groups history records into five fixed age windows.
 */
module Models {
  import opened Common
  import Database

  /** A sidebar row: a group header or an item. */
  datatype MediaItem = MediaItem(title: string, timestamp: string, isGroup: bool)

  /** `MediaItem.group(title)`. */
  function Group(groupTitle: string): MediaItem
  {
    MediaItem(groupTitle, "", true)
  }

  /** `MediaItem.item(title, timestamp)`. */
  function Item(title: string, timestamp: string): MediaItem
  {
    MediaItem(title, timestamp, false)
  }

  const Day: int := 24 * 60 * 60
  const Week: int := 7 * Day
  const Month: int := 30 * Day
  const Year: int := 365 * Day
  /** Upper end of the last window; older rows are dropped. */
  const Horizon: int := 1_000_000_000_000

  /** Number of entries in `_GROUPS`. */
  const GroupCount: nat := 5

  /** An age window `[lo, hi)` in seconds. */
  datatype Window = Window(lo: int, hi: int)

  /** The window of the `k`-th entry of `_GROUPS`, in display order. */
  function Bounds(k: nat): (w: Window)
    requires k < GroupCount
    ensures 0 <= w.lo < w.hi <= Horizon
    ensures k == 0 ==> w.lo == 0
  {
    if k == 0 then Window(0, Day)
    else if k == 1 then Window(Day, Week)
    else if k == 2 then Window(Week, Month)
    else if k == 3 then Window(Month, Year)
    else Window(Year, Horizon)
  }

  /** The label of the `k`-th entry of `_GROUPS`. */
  function Title(k: nat): string
    requires k < GroupCount
  {
    if k == 0 then "Last 24 hours"
    else if k == 1 then "Last 7 days"
    else if k == 2 then "Last 30 days"
    else if k == 3 then "Last 365 days"
    else "Long time ago"
  }

  /** A header row has no timestamp; an item row is never a header. */
  lemma RowShapes(groupTitle: string, title: string, timestamp: string)
    ensures Group(groupTitle).isGroup && Group(groupTitle).title == groupTitle && Group(groupTitle).timestamp == ""
    ensures !Item(title, timestamp).isGroup && Item(title, timestamp).title == title
    ensures Item(title, timestamp).timestamp == timestamp
  {
  }

  /** Age of a record stamped `ts` when the clock reads `now`, clamped at zero against clock skew. */
  function Age(now: int, ts: int): (a: int)
    ensures a >= 0 && a >= now - ts
    ensures a == now - ts || a == 0
  {
    if now - ts > 0 then now - ts else 0
  }

  predicate InWindow(age: int, k: nat)
    requires k < GroupCount
  {
    Bounds(k).lo <= age < Bounds(k).hi
  }

  /** The first window from `k` on that holds `age` (the inner loop with its `break`). */
  function FirstWindow(age: int, k: nat): (w: Option<nat>)
    ensures w.Some? ==> k <= w.value < GroupCount && InWindow(age, w.value)
    ensures w.Some? ==> forall j :: k <= j < w.value ==> !InWindow(age, j)
    ensures w.None? ==> forall j :: k <= j < GroupCount ==> !InWindow(age, j)
    decreases GroupCount - k
  {
    if k >= GroupCount then None
    else if InWindow(age, k) then Some(k)
    else FirstWindow(age, k + 1)
  }

  /** The window an age is filed under, if any. */
  function WindowOf(age: int): Option<nat> {
    FirstWindow(age, 0)
  }

  /**
   * The windows tile `[0, Horizon)`: an age in that range is placed in exactly
   * the window that contains it, and any other age is placed nowhere.
   */
  lemma WindowOfUnique(age: int)
    ensures 0 <= age < Horizon ==> WindowOf(age).Some?
    ensures forall k :: 0 <= k < GroupCount ==> (WindowOf(age) == Some(k) <==> InWindow(age, k))
    ensures !(0 <= age < Horizon) ==> WindowOf(age) == None
  {
    if 0 <= age < Horizon {
      assert InWindow(age, 0) || InWindow(age, 1) || InWindow(age, 2) || InWindow(age, 3) || InWindow(age, 4);
    }
  }

  /** A record stamped in the future counts as age 0 and lands in "Last 24 hours". */
  lemma FutureIsRecent(now: int, ts: int)
    requires ts >= now
    ensures WindowOf(Age(now, ts)) == Some(0)
    ensures Title(0) == "Last 24 hours"
  {
  }

  /** The item row for a record; `stamp` stands for `strftime` of its time. */
  function ItemFor(r: Database.Record, stamp: int -> string): MediaItem {
    Item(r.file, stamp(r.ts))
  }

  /** Reference meaning of window `k`'s list: the items of the records it holds, in input order. */
  function BucketItems(rows: seq<Database.Record>, now: int, stamp: int -> string, k: nat): seq<MediaItem> {
    if rows == [] then []
    else
      var last := rows[|rows| - 1];
      BucketItems(rows[..|rows| - 1], now, stamp, k)
        + (if WindowOf(Age(now, last.ts)) == Some(k) then [ItemFor(last, stamp)] else [])
  }

  /** The `buckets` dict, one list per window (labels are distinct, so a window index is its key). */
  const NoBuckets: seq<seq<MediaItem>> := [[], [], [], [], []]

  /** Appending `item` to the list of the first window holding `age`; nothing when none does. */
  function Place(buckets: seq<seq<MediaItem>>, age: int, item: MediaItem): (r: seq<seq<MediaItem>>)
    requires |buckets| == GroupCount
    ensures |r| == GroupCount
  {
    match WindowOf(age)
    case None => buckets
    case Some(k) => buckets[k := buckets[k] + [item]]
  }

  /** The `buckets` dict once every record of `rows` has been filed. */
  function Bucketed(rows: seq<Database.Record>, now: int, stamp: int -> string): (b: seq<seq<MediaItem>>)
    ensures |b| == GroupCount
  {
    if rows == [] then NoBuckets
    else
      var last := rows[|rows| - 1];
      Place(Bucketed(rows[..|rows| - 1], now, stamp), Age(now, last.ts), ItemFor(last, stamp))
  }

  /** Window `k`'s header and items, or nothing when its list is empty. */
  function Section(buckets: seq<seq<MediaItem>>, k: nat): seq<MediaItem>
    requires k < GroupCount && k < |buckets|
  {
    if buckets[k] == [] then [] else [Group(Title(k))] + buckets[k]
  }

  /** The sections of windows `lo` to `hi - 1`, in window order. */
  function Emits(buckets: seq<seq<MediaItem>>, lo: nat, hi: nat): seq<MediaItem>
    requires lo <= hi <= GroupCount && hi <= |buckets|
    decreases hi
  {
    if hi == lo then [] else Emits(buckets, lo, hi - 1) + Section(buckets, hi - 1)
  }

  /** What `format` returns. */
  function Formatted(rows: seq<Database.Record>, now: int, stamp: int -> string): seq<MediaItem> {
    Emits(Bucketed(rows, now, stamp), 0, GroupCount)
  }

  /**
   * `HistoryFormatter.format(rows)`: first files each row into its window's
   * list, then emits each non-empty list behind its header. `now` is the
   * formatter's `_now`, read once when the class is defined, not per call.
   */
  method Format(rows: seq<Database.Record>, now: int, stamp: int -> string) returns (out: seq<MediaItem>)
    ensures out == Formatted(rows, now, stamp)
  {
    var buckets := NoBuckets;
    var i := 0;
    while i < |rows|
      invariant 0 <= i <= |rows|
      invariant buckets == Bucketed(rows[..i], now, stamp)
    {
      var r := rows[i];
      var age := Age(now, r.ts);
      ghost var before := buckets;
      var k := 0;
      while k < GroupCount
        invariant 0 <= k <= GroupCount
        invariant buckets == before
        invariant WindowOf(age) == FirstWindow(age, k)
      {
        if Bounds(k).lo <= age < Bounds(k).hi {
          buckets := buckets[k := buckets[k] + [ItemFor(r, stamp)]];
          break;
        }
        k := k + 1;
      }
      assert buckets == Place(before, age, ItemFor(r, stamp));
      assert rows[..i + 1][..i] == rows[..i];
      i := i + 1;
    }
    assert rows[..i] == rows;
    out := [];
    var n := 0;
    while n < GroupCount
      invariant 0 <= n <= GroupCount
      invariant out == Emits(buckets, 0, n)
    {
      if buckets[n] != [] {
        out := out + [Group(Title(n))];
        out := out + buckets[n];
      }
      n := n + 1;
    }
  }

  /**
   * Window `k`'s list is exactly the items of the records the window holds, in
   * input order: filing keeps the input order and sorts nothing.
   */
  lemma {:induction false} BucketedItems(rows: seq<Database.Record>, now: int, stamp: int -> string, k: nat)
    requires k < GroupCount
    ensures Bucketed(rows, now, stamp)[k] == BucketItems(rows, now, stamp, k)
    decreases |rows|
  {
    if rows != [] {
      BucketedItems(rows[..|rows| - 1], now, stamp, k);
    }
  }

  /** Filing is compositional: the items of `a + b` are those of `a` followed by those of `b`. */
  lemma {:induction false} BucketItemsAppend(a: seq<Database.Record>, b: seq<Database.Record>, now: int, stamp: int -> string, k: nat)
    ensures BucketItems(a + b, now, stamp, k) == BucketItems(a, now, stamp, k) + BucketItems(b, now, stamp, k)
    decreases |b|
  {
    if b == [] {
      assert a + b == a;
    } else {
      var front := b[..|b| - 1];
      assert (a + b)[..|a + b| - 1] == a + front;
      BucketItemsAppend(a, front, now, stamp, k);
    }
  }

  /** A single record yields its item, titled with its file, in its own window only. */
  lemma BucketItemsSingle(r: Database.Record, now: int, stamp: int -> string, k: nat)
    ensures BucketItems([r], now, stamp, k)
      == if WindowOf(Age(now, r.ts)) == Some(k) then [Item(r.file, stamp(r.ts))] else []
  {
    assert [r][..0] == [];
  }

  lemma {:induction false} EmitsAllEmpty(buckets: seq<seq<MediaItem>>, hi: nat)
    requires hi <= GroupCount && hi <= |buckets|
    requires forall k :: 0 <= k < hi ==> buckets[k] == []
    ensures Emits(buckets, 0, hi) == []
  {
    if hi > 0 {
      EmitsAllEmpty(buckets, hi - 1);
    }
  }

  /** `format([])` is empty. */
  lemma FormatEmpty(now: int, stamp: int -> string)
    ensures Formatted([], now, stamp) == []
  {
    EmitsAllEmpty(NoBuckets, GroupCount);
  }

  /** Number of records some window takes. */
  function Placed(rows: seq<Database.Record>, now: int): nat {
    if rows == [] then 0
    else Placed(rows[..|rows| - 1], now) + (if WindowOf(Age(now, rows[|rows| - 1].ts)).Some? then 1 else 0)
  }

  /** Total number of items over the first `n` lists. */
  function Total(buckets: seq<seq<MediaItem>>, n: nat): nat
    requires n <= |buckets|
  {
    if n == 0 then 0 else Total(buckets, n - 1) + |buckets[n - 1]|
  }

  /** Number of non-empty lists among the first `n`. */
  function NonEmpty(buckets: seq<seq<MediaItem>>, n: nat): nat
    requires n <= |buckets|
  {
    if n == 0 then 0 else NonEmpty(buckets, n - 1) + (if buckets[n - 1] == [] then 0 else 1)
  }

  lemma {:induction false} TotalPlace(buckets: seq<seq<MediaItem>>, age: int, item: MediaItem, n: nat)
    requires |buckets| == GroupCount && n <= GroupCount
    ensures Total(Place(buckets, age, item), n) == Total(buckets, n)
      + (if WindowOf(age).Some? && WindowOf(age).value < n then 1 else 0)
  {
    if n > 0 {
      TotalPlace(buckets, age, item, n - 1);
    }
  }

  lemma {:induction false} TotalNone(n: nat)
    requires n <= GroupCount
    ensures Total(NoBuckets, n) == 0
  {
    if n > 0 {
      TotalNone(n - 1);
    }
  }

  /** Every record younger than the horizon is filed exactly once: the lists hold `Placed` items in all. */
  lemma {:induction false} TotalPlaced(rows: seq<Database.Record>, now: int, stamp: int -> string)
    ensures Total(Bucketed(rows, now, stamp), GroupCount) == Placed(rows, now)
    decreases |rows|
  {
    if rows == [] {
      TotalNone(GroupCount);
    } else {
      var last := rows[|rows| - 1];
      TotalPlaced(rows[..|rows| - 1], now, stamp);
      TotalPlace(Bucketed(rows[..|rows| - 1], now, stamp), Age(now, last.ts), ItemFor(last, stamp), GroupCount);
    }
  }

  lemma {:induction false} EmitsLength(buckets: seq<seq<MediaItem>>, hi: nat)
    requires hi <= GroupCount && hi <= |buckets|
    ensures |Emits(buckets, 0, hi)| == Total(buckets, hi) + NonEmpty(buckets, hi)
  {
    if hi > 0 {
      EmitsLength(buckets, hi - 1);
      var sec := Section(buckets, hi - 1);
      assert |sec| == |buckets[hi - 1]| + (if buckets[hi - 1] == [] then 0 else 1);
      assert |Emits(buckets, 0, hi)| == |Emits(buckets, 0, hi - 1)| + |sec|;
    }
  }

  /** The output has one row per placed record plus one header per non-empty window. */
  lemma FormattedLength(rows: seq<Database.Record>, now: int, stamp: int -> string)
    ensures |Formatted(rows, now, stamp)| == Placed(rows, now) + NonEmpty(Bucketed(rows, now, stamp), GroupCount)
  {
    EmitsLength(Bucketed(rows, now, stamp), GroupCount);
    TotalPlaced(rows, now, stamp);
  }

  /** Titles of the header rows, in order. */
  function Headers(out: seq<MediaItem>): seq<string> {
    if out == [] then []
    else Headers(out[..|out| - 1]) + (if out[|out| - 1].isGroup then [out[|out| - 1].title] else [])
  }

  /** Labels of the non-empty lists among the first `n`, in window order. */
  function NonEmptyLabels(buckets: seq<seq<MediaItem>>, n: nat): seq<string>
    requires n <= GroupCount && n <= |buckets|
  {
    if n == 0 then []
    else
      var tail := if buckets[n - 1] == [] then [] else [Title(n - 1)];
      NonEmptyLabels(buckets, n - 1) + tail
  }

  lemma {:induction false} HeadersAppend(a: seq<MediaItem>, b: seq<MediaItem>)
    ensures Headers(a + b) == Headers(a) + Headers(b)
    decreases |b|
  {
    if b == [] {
      assert a + b == a;
    } else {
      assert (a + b)[..|a + b| - 1] == a + b[..|b| - 1];
      HeadersAppend(a, b[..|b| - 1]);
    }
  }

  /** No list of filed items holds a header row. */
  lemma {:induction false} BucketedHasNoHeaders(rows: seq<Database.Record>, now: int, stamp: int -> string, k: nat)
    requires k < GroupCount
    ensures Headers(Bucketed(rows, now, stamp)[k]) == []
    decreases |rows|
  {
    if rows != [] {
      var last := rows[|rows| - 1];
      var b := Bucketed(rows[..|rows| - 1], now, stamp);
      BucketedHasNoHeaders(rows[..|rows| - 1], now, stamp, k);
      if WindowOf(Age(now, last.ts)) == Some(k) {
        HeadersAppend(b[k], [ItemFor(last, stamp)]);
        assert [ItemFor(last, stamp)][..0] == [];
      }
    }
  }

  lemma SectionHeaders(buckets: seq<seq<MediaItem>>, k: nat)
    requires k < GroupCount && k < |buckets|
    requires Headers(buckets[k]) == []
    ensures Headers(Section(buckets, k)) == if buckets[k] == [] then [] else [Title(k)]
  {
    if buckets[k] != [] {
      HeadersAppend([Group(Title(k))], buckets[k]);
      assert [Group(Title(k))][..0] == [];
    }
  }

  lemma {:induction false} EmitsHeaders(buckets: seq<seq<MediaItem>>, hi: nat)
    requires hi <= GroupCount && hi <= |buckets|
    requires forall k :: 0 <= k < hi ==> Headers(buckets[k]) == []
    ensures Headers(Emits(buckets, 0, hi)) == NonEmptyLabels(buckets, hi)
  {
    if hi > 0 {
      var before := Emits(buckets, 0, hi - 1);
      var sec := Section(buckets, hi - 1);
      EmitsHeaders(buckets, hi - 1);
      HeadersAppend(before, sec);
      SectionHeaders(buckets, hi - 1);
      assert Emits(buckets, 0, hi) == before + sec;
    }
  }

  /**
   * The headers of the output are the labels of the non-empty windows, each
   * once, in the fixed window order.
   */
  lemma FormattedHeaders(rows: seq<Database.Record>, now: int, stamp: int -> string)
    ensures Headers(Formatted(rows, now, stamp)) == NonEmptyLabels(Bucketed(rows, now, stamp), GroupCount)
  {
    forall k | 0 <= k < GroupCount
      ensures Headers(Bucketed(rows, now, stamp)[k]) == []
    {
      BucketedHasNoHeaders(rows, now, stamp, k);
    }
    EmitsHeaders(Bucketed(rows, now, stamp), GroupCount);
  }

  /** Emitting windows `lo` to `hi - 1` is emitting `lo` to `mid - 1` and then `mid` to `hi - 1`. */
  lemma {:induction false} EmitsSplit(buckets: seq<seq<MediaItem>>, lo: nat, mid: nat, hi: nat)
    requires lo <= mid <= hi <= GroupCount && hi <= |buckets|
    ensures Emits(buckets, lo, hi) == Emits(buckets, lo, mid) + Emits(buckets, mid, hi)
    decreases hi
  {
    if hi > mid {
      EmitsSplit(buckets, lo, mid, hi - 1);
      var sec := Section(buckets, hi - 1);
      assert Emits(buckets, lo, hi) == Emits(buckets, lo, hi - 1) + sec;
      assert Emits(buckets, mid, hi) == Emits(buckets, mid, hi - 1) + sec;
      assert Emits(buckets, lo, mid) + Emits(buckets, mid, hi - 1) + sec
        == Emits(buckets, lo, mid) + (Emits(buckets, mid, hi - 1) + sec);
    } else {
      assert Emits(buckets, mid, hi) == [];
      assert Emits(buckets, lo, mid) + [] == Emits(buckets, lo, mid);
    }
  }

  /**
   * Window `k`'s header is immediately followed by its items: the output is the
   * sections of the earlier windows, then window `k`'s, then the later ones.
   */
  lemma SectionInPlace(rows: seq<Database.Record>, now: int, stamp: int -> string, k: nat)
    requires k < GroupCount
    ensures var b := Bucketed(rows, now, stamp);
      Formatted(rows, now, stamp) == Emits(b, 0, k) + Section(b, k) + Emits(b, k + 1, GroupCount)
  {
    var b := Bucketed(rows, now, stamp);
    EmitsSplit(b, 0, k + 1, GroupCount);
    assert Emits(b, 0, k + 1) == Emits(b, 0, k) + Section(b, k);
  }

  /** One record of age 0 gives a "Last 24 hours" header and then its item. */
  lemma FormatOneFresh(r: Database.Record, now: int, stamp: int -> string)
    requires r.ts == now
    ensures Formatted([r], now, stamp) == [Group("Last 24 hours"), Item(r.file, stamp(r.ts))]
  {
    var b := Bucketed([r], now, stamp);
    assert [r][..0] == [];
    assert Bucketed([], now, stamp) == NoBuckets;
    assert Age(now, r.ts) == 0 && WindowOf(0) == Some(0);
    assert b == Place(NoBuckets, 0, ItemFor(r, stamp));
    assert NoBuckets[0] + [ItemFor(r, stamp)] == [ItemFor(r, stamp)];
    assert b == NoBuckets[0 := [ItemFor(r, stamp)]];
    assert Emits(b, 0, 1) == [Group("Last 24 hours"), Item(r.file, stamp(r.ts))];
    assert Emits(b, 0, 2) == Emits(b, 0, 1);
    assert Emits(b, 0, 3) == Emits(b, 0, 1);
    assert Emits(b, 0, 4) == Emits(b, 0, 1);
  }
}
