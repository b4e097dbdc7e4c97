/**
 * The notes sidebar prototype: notes are grouped by how many calendar days
 * ago they were written, into four sections, newest first within each.
 */
module NotesSidebar {
  import Sorting

  /** A note; `date` is a local date-time in microseconds since the epoch. */
  datatype Note = Note(title: string, snippet: string, date: int)

  const MicrosPerDay: int := 86_400_000_000

  /** `dt.date()`: the calendar day of a date-time, as a day number. */
  function DayOf(date: int): int {
    date / MicrosPerDay
  }

  function Date(n: Note): int {
    n.date
  }

  /** `SECTIONS`, indexed by `bucket`'s result. */
  const Sections: seq<string> := ["Today", "Yesterday", "Last 7 Days", "Older"]

  const SectionCount: nat := 4

  /**
   * `bucket(dt)` with `today` the current day number: today, yesterday, the
   * five days before yesterday (and any future day), or older.
   */
  function Bucket(day: int, today: int): (b: nat)
    ensures b < SectionCount
  {
    if day == today then 0
    else if day == today - 1 then 1
    else if day >= today - 6 then 2
    else 3
  }

  /** There is one label per section. */
  lemma SectionLabels()
    ensures |Sections| == SectionCount
    ensures forall i, j :: 0 <= i < j < |Sections| ==> Sections[i] != Sections[j]
  {
    assert Sections[0][0] == 'T' && Sections[1][0] == 'Y' && Sections[2][0] == 'L' && Sections[3][0] == 'O';
  }

  /** Which days each section collects. */
  lemma BucketDays(day: int, today: int)
    ensures Bucket(day, today) == 0 <==> day == today
    ensures Bucket(day, today) == 1 <==> day == today - 1
    ensures Bucket(day, today) == 2 <==> (today - 6 <= day <= today - 2 || day > today)
    ensures Bucket(day, today) == 3 <==> day <= today - 7
  {
  }

  /** The notes of `notes`, in order, whose day falls in section `k`. */
  function InSection(notes: seq<Note>, today: int, k: nat): seq<Note> {
    if notes == [] then []
    else
      var last := notes[|notes| - 1];
      InSection(notes[..|notes| - 1], today, k) + (if Bucket(DayOf(last.date), today) == k then [last] else [])
  }

  /** A note is in section `k` exactly when it is one of the notes and its day buckets to `k`. */
  lemma {:induction false} InSectionMembers(notes: seq<Note>, today: int, k: nat, n: Note)
    ensures n in InSection(notes, today, k) <==> n in notes && Bucket(DayOf(n.date), today) == k
    decreases |notes|
  {
    if notes != [] {
      var front := notes[..|notes| - 1];
      InSectionMembers(front, today, k, n);
      assert notes == front + [notes[|notes| - 1]];
    }
  }

  /** Everything the four sections of `notes` hold, counted with multiplicity. */
  function AllSections(notes: seq<Note>, today: int): multiset<Note> {
    multiset(InSection(notes, today, 0)) + multiset(InSection(notes, today, 1))
      + multiset(InSection(notes, today, 2)) + multiset(InSection(notes, today, 3))
  }

  /** The last note goes to its own section and to no other. */
  lemma InSectionStep(notes: seq<Note>, today: int, k: nat)
    requires notes != []
    ensures var last := notes[|notes| - 1];
      multiset(InSection(notes, today, k))
        == multiset(InSection(notes[..|notes| - 1], today, k))
          + if Bucket(DayOf(last.date), today) == k then multiset{last} else multiset{}
  {
  }

  /** The four sections split the notes: together they hold each note exactly as often as the input does. */
  lemma {:induction false} SectionsPartition(notes: seq<Note>, today: int)
    ensures AllSections(notes, today) == multiset(notes)
    decreases |notes|
  {
    if notes != [] {
      var front := notes[..|notes| - 1];
      var last := notes[|notes| - 1];
      SectionsPartition(front, today);
      assert notes == front + [last];
      InSectionStep(notes, today, 0);
      InSectionStep(notes, today, 1);
      InSectionStep(notes, today, 2);
      InSectionStep(notes, today, 3);
      assert multiset(notes) == multiset(front) + multiset{last};
    }
  }

  /** Picking out one section keeps the order of a sorted input. */
  lemma {:induction false} InSectionSorted(notes: seq<Note>, today: int, k: nat)
    requires Sorting.SortedBy(notes, Date, true)
    ensures Sorting.SortedBy(InSection(notes, today, k), Date, true)
    decreases |notes|
  {
    if notes != [] {
      var front := notes[..|notes| - 1];
      var last := notes[|notes| - 1];
      assert Sorting.SortedBy(front, Date, true) by {
        forall i, j | 0 <= i < j < |front|
          ensures Sorting.InOrder(Date(front[i]), Date(front[j]), true)
        {
          assert front[i] == notes[i] && front[j] == notes[j];
        }
      }
      InSectionSorted(front, today, k);
      var r := InSection(front, today, k);
      if Bucket(DayOf(last.date), today) == k {
        var s := r + [last];
        forall i, j | 0 <= i < j < |s|
          ensures Sorting.InOrder(Date(s[i]), Date(s[j]), true)
        {
          if j == |s| - 1 {
            assert s[i] in front by { InSectionMembers(front, today, k, s[i]); }
            var m :| 0 <= m < |front| && front[m] == s[i];
            assert notes[m] == s[i] && notes[|notes| - 1] == last;
          } else {
            assert s[i] == r[i] && s[j] == r[j];
          }
        }
      }
    }
  }

  /** The prototype's view controller; `_sections` is what the collection view shows. */
  class NotesViewController {
    var sections: seq<seq<Note>>

    constructor ()
      ensures sections == []
    {
      sections := [];
    }

    /**
     * The data part of `loadView`: sort the notes newest first, then append
     * each to the section its day buckets to.
     */
    method LoadSections(notes: seq<Note>, today: int)
      modifies this
      ensures |sections| == SectionCount
      ensures var ordered := Sorting.Sort(notes, Date, true);
        forall k :: 0 <= k < SectionCount ==> sections[k] == InSection(ordered, today, k)
    {
      var ordered := Sorting.Sort(notes, Date, true);
      sections := [[], [], [], []];
      for i := 0 to |ordered|
        invariant |sections| == SectionCount
        invariant forall k :: 0 <= k < SectionCount ==> sections[k] == InSection(ordered[..i], today, k)
      {
        var note := ordered[i];
        var b := Bucket(DayOf(note.date), today);
        sections := sections[b := sections[b] + [note]];
        assert ordered[..i + 1][..i] == ordered[..i];
      }
      assert ordered[..|ordered|] == ordered;
    }

    /** `numberOfSectionsInCollectionView_`. */
    function NumberOfSections(): nat
      reads this
    {
      |sections|
    }

    /** The header label of section `k`: `SECTIONS[k]`. */
    function HeaderTitle(k: nat): string
      requires k < SectionCount
    {
      Sections[k]
    }
  }

  /** After loading, the four sections together hold exactly the notes, each as often as it was given. */
  lemma LoadedPartition(notes: seq<Note>, today: int)
    ensures AllSections(Sorting.Sort(notes, Date, true), today) == multiset(notes)
  {
    SectionsPartition(Sorting.Sort(notes, Date, true), today);
  }

  /** After loading, a note is shown in section `k` exactly when it is one of the notes and its day buckets to `k`. */
  lemma LoadedPlacement(notes: seq<Note>, today: int, k: nat, n: Note)
    ensures n in InSection(Sorting.Sort(notes, Date, true), today, k)
      <==> n in notes && Bucket(DayOf(n.date), today) == k
  {
    var ordered := Sorting.Sort(notes, Date, true);
    InSectionMembers(ordered, today, k, n);
    assert n in ordered <==> n in multiset(ordered);
  }

  /** After loading, each section lists its notes newest first. */
  lemma LoadedNewestFirst(notes: seq<Note>, today: int, k: nat)
    ensures Sorting.SortedBy(InSection(Sorting.Sort(notes, Date, true), today, k), Date, true)
  {
    InSectionSorted(Sorting.Sort(notes, Date, true), today, k);
  }
}
