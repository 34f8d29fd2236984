/** The diary list: saving a draft as a new entry, bookmarking entries, and the
    filtered, sorted view of the list. Dates are instants in milliseconds; the
    filter's start and end dates are the instants at which those days begin, or
    `None` when the date field is empty. */
module Diary {
  import opened Common

  datatype Entry = Entry(
    id: int,
    content: string,
    date: int,
    source: string,
    goalName: Option<string>,
    isBookmarked: bool
  )

  /** The filter panel's fields. */
  datatype Filters = Filters(
    searchTerm: string,
    startDate: Option<int>,
    endDate: Option<int>,
    sortOrder: string,
    bookmarkedOnly: bool
  )

  const Newest: string := "newest"
  const Journey: string := "journey"

  /** From the start of a day to 23:59:59 of that day. */
  const EndOfDay: int := 86_399_000

  const Cleared: Filters := Filters("", None, None, Newest, false)

  // ---------------------------------------------------------------------------
  // Text

  /** The characters `String.prototype.trim` removes: white space and line
      terminators. */
  predicate IsSpace(c: char)
  {
    ('\t' <= c <= '\r') || c == ' ' || c == '\U{00A0}' || c == '\U{1680}'
    || ('\U{2000}' <= c <= '\U{200A}') || c == '\U{2028}' || c == '\U{2029}'
    || c == '\U{202F}' || c == '\U{205F}' || c == '\U{3000}' || c == '\U{FEFF}'
  }

  /** How many white-space characters `s` starts with. */
  function LeadingSpaces(s: string): (k: nat)
    ensures k <= |s| && (k < |s| ==> !IsSpace(s[k]))
    ensures forall i :: 0 <= i < k ==> IsSpace(s[i])
  {
    if s == [] || !IsSpace(s[0]) then 0
    else
      var k := LeadingSpaces(s[1..]);
      assert forall i :: 1 <= i < k + 1 ==> s[i] == s[1..][i - 1];
      k + 1
  }

  /** The length of `s` without its trailing white space. */
  function LengthWithoutTrailingSpaces(s: string): (n: nat)
    ensures n <= |s| && (n > 0 ==> !IsSpace(s[n - 1]))
    ensures forall i :: n <= i < |s| ==> IsSpace(s[i])
  {
    if s == [] || !IsSpace(s[|s| - 1]) then |s|
    else LengthWithoutTrailingSpaces(s[..|s| - 1])
  }

  ghost predicate AllSpace(s: string)
  {
    forall i :: 0 <= i < |s| ==> IsSpace(s[i])
  }

  /** `s.trim()`: `s` with its leading and trailing white space cut off. What
      remains, unless empty, starts and ends with a non-space (`TrimBlank` says
      when it is empty). */
  function Trim(s: string): (r: string)
    ensures r != [] ==> !IsSpace(r[0]) && !IsSpace(r[|r| - 1])
    ensures var k := LeadingSpaces(s);
      k + |r| <= |s| && r == s[k..k + |r|] && AllSpace(s[..k]) && AllSpace(s[k + |r|..])
    ensures Contains(s, r)
  {
    var k := LeadingSpaces(s);
    var n := LengthWithoutTrailingSpaces(s);
    if n <= k then
      assert [] <= s[0..];
      []
    else
      assert s[k..n] <= s[k..];
      s[k..n]
  }

  /** A draft trims to nothing exactly when it is all white space. */
  lemma TrimBlank(s: string)
    ensures Trim(s) == [] <==> AllSpace(s)
  {
  }

  /** `toLowerCase` on the ASCII letters. */
  function Lower(c: char): char
  {
    if 'A' <= c <= 'Z' then (c as int + 32) as char else c
  }

  function LowerString(s: string): (r: string)
    ensures |r| == |s| && forall i :: 0 <= i < |s| ==> r[i] == Lower(s[i])
  {
    if s == [] then [] else [Lower(s[0])] + LowerString(s[1..])
  }

  /** `s.includes(t)`. */
  predicate Contains(s: string, t: string)
  {
    exists i | 0 <= i <= |s| :: t <= s[i..]
  }

  // ---------------------------------------------------------------------------
  // The filtered and sorted view

  /** The three tests an entry must pass to be listed. */
  predicate Matches(f: Filters, e: Entry)
  {
    Contains(LowerString(e.content), LowerString(f.searchTerm))
    && (f.startDate.None? || e.date >= f.startDate.value)
    && (f.endDate.None? || e.date <= f.endDate.value + EndOfDay)
    && (!f.bookmarkedOnly || e.isBookmarked)
  }

  /** `entries.filter(...)`: the entries that match, in list order. */
  function FilterEntries(entries: seq<Entry>, f: Filters): (r: seq<Entry>)
    ensures forall e :: e in r <==> e in entries && Matches(f, e)
    ensures multiset(r) <= multiset(entries)
    ensures forall e :: multiset(r)[e] == if Matches(f, e) then multiset(entries)[e] else 0
  {
    if entries == [] then []
    else
      assert entries == [entries[0]] + entries[1..];
      assert multiset(entries) == multiset{entries[0]} + multiset(entries[1..]);
      if Matches(f, entries[0]) then [entries[0]] + FilterEntries(entries[1..], f)
      else FilterEntries(entries[1..], f)
  }

  /** `filter` keeps the list's order: filtering a concatenation filters each
      part in turn. */
  lemma {:induction false} FilterConcat(a: seq<Entry>, b: seq<Entry>, f: Filters)
    ensures FilterEntries(a + b, f) == FilterEntries(a, f) + FilterEntries(b, f)
  {
    if a == [] {
      assert a + b == b;
    } else {
      assert (a + b)[0] == a[0];
      assert (a + b)[1..] == a[1..] + b;
      FilterConcat(a[1..], b, f);
    }
  }

  /** `a` may precede `b`: newest first when `newest`, oldest first otherwise. */
  predicate InOrder(a: Entry, b: Entry, newest: bool)
  {
    if newest then a.date >= b.date else a.date <= b.date
  }

  ghost predicate Sorted(s: seq<Entry>, newest: bool)
  {
    forall i, j :: 0 <= i < j < |s| ==> InOrder(s[i], s[j], newest)
  }

  /** Put `x` before the first entry it may precede; an entry listed earlier
      stays before later entries with the same date. */
  function Insert(x: Entry, s: seq<Entry>, newest: bool): (r: seq<Entry>)
    ensures multiset(r) == multiset(s) + multiset{x}
  {
    if s == [] || InOrder(x, s[0], newest) then [x] + s
    else
      var t := Insert(x, s[1..], newest);
      assert s == [s[0]] + s[1..];
      [s[0]] + t
  }

  lemma SortedCons(a: Entry, t: seq<Entry>, newest: bool)
    requires Sorted(t, newest) && forall e :: e in t ==> InOrder(a, e, newest)
    ensures Sorted([a] + t, newest)
  {
    var r := [a] + t;
    forall i, j | 0 <= i < j < |r| ensures InOrder(r[i], r[j], newest) {
      assert r[j] == t[j - 1] && r[j] in t;
      if i > 0 { assert r[i] == t[i - 1]; }
    }
  }

  lemma SortedTail(s: seq<Entry>, newest: bool)
    requires s != [] && Sorted(s, newest)
    ensures Sorted(s[1..], newest) && forall e :: e in s[1..] ==> InOrder(s[0], e, newest)
  {
    forall i, j | 0 <= i < j < |s[1..]| ensures InOrder(s[1..][i], s[1..][j], newest) {
      assert s[1..][i] == s[i + 1] && s[1..][j] == s[j + 1];
    }
    forall e | e in s[1..] ensures InOrder(s[0], e, newest) {
      var k :| 0 <= k < |s[1..]| && s[1..][k] == e;
      assert s[k + 1] == e;
    }
  }

  lemma {:induction false} InsertSorted(x: Entry, s: seq<Entry>, newest: bool)
    requires Sorted(s, newest)
    ensures Sorted(Insert(x, s, newest), newest)
  {
    if s == [] || InOrder(x, s[0], newest) {
      if s != [] { SortedTail(s, newest); }
      SortedCons(x, s, newest);
    } else {
      var t := Insert(x, s[1..], newest);
      SortedTail(s, newest);
      InsertSorted(x, s[1..], newest);
      forall e | e in t ensures InOrder(s[0], e, newest) {
        assert e in multiset(t);
      }
      SortedCons(s[0], t, newest);
    }
  }

  /** `filtered.sort(...)` by date with the comparator of the sort order; the
      library sort is stable. */
  function SortByDate(s: seq<Entry>, newest: bool): (r: seq<Entry>)
    ensures Sorted(r, newest)
    ensures multiset(r) == multiset(s)
  {
    if s == [] then []
    else
      assert s == [s[0]] + s[1..];
      InsertSorted(s[0], SortByDate(s[1..], newest), newest);
      Insert(s[0], SortByDate(s[1..], newest), newest)
  }

  /** `filteredAndSortedEntries`. */
  function Visible(entries: seq<Entry>, f: Filters): seq<Entry>
  {
    SortByDate(FilterEntries(entries, f), f.sortOrder == Newest)
  }

  /** The listed entries are exactly the matching ones, each as often as in the
      list (a permutation of the filtered list), in date order. */
  lemma VisibleSpec(entries: seq<Entry>, f: Filters)
    ensures forall e :: e in Visible(entries, f) <==> e in entries && Matches(f, e)
    ensures multiset(Visible(entries, f)) == multiset(FilterEntries(entries, f))
    ensures forall e :: multiset(Visible(entries, f))[e] == if Matches(f, e) then multiset(entries)[e] else 0
    ensures Sorted(Visible(entries, f), f.sortOrder == Newest)
  {
    var r := Visible(entries, f);
    forall e
      ensures e in r <==> e in entries && Matches(f, e)
    {
      calc {
        e in r;
        e in multiset(r);
        e in multiset(FilterEntries(entries, f));
        e in FilterEntries(entries, f);
      }
    }
  }

  /** `hasActiveFilters`. */
  predicate HasActiveFilters(f: Filters)
  {
    f.searchTerm != "" || f.startDate.Some? || f.endDate.Some? || f.bookmarkedOnly || f.sortOrder != Newest
  }

  lemma {:induction false} FilterAll(entries: seq<Entry>, f: Filters)
    requires forall e :: e in entries ==> Matches(f, e)
    ensures FilterEntries(entries, f) == entries
  {
    if entries != [] {
      FilterAll(entries[1..], f);
    }
  }

  /** Without an active filter every entry is listed, newest first; clearing the
      filters gets there. */
  lemma InactiveFiltersListAll(entries: seq<Entry>, f: Filters)
    requires !HasActiveFilters(f)
    ensures Visible(entries, f) == SortByDate(entries, true)
  {
    forall e | e in entries
      ensures Matches(f, e)
    {
      var text, term := LowerString(e.content), LowerString(f.searchTerm);
      assert term == [];
      assert term <= text[0..];
    }
    FilterAll(entries, f);
  }

  // ---------------------------------------------------------------------------
  // Bookmarks

  /** `entries.map(...)` flipping the bookmark of the entries with this id. */
  function WithBookmarkToggled(entries: seq<Entry>, id: int): (r: seq<Entry>)
    ensures |r| == |entries|
    ensures forall i :: 0 <= i < |r| ==>
      r[i] == if entries[i].id == id then entries[i].(isBookmarked := !entries[i].isBookmarked) else entries[i]
  {
    if entries == [] then []
    else
      var e := entries[0];
      [if e.id == id then e.(isBookmarked := !e.isBookmarked) else e] + WithBookmarkToggled(entries[1..], id)
  }

  /** Toggling the same id twice restores the list. */
  lemma ToggleTwice(entries: seq<Entry>, id: int)
    ensures WithBookmarkToggled(WithBookmarkToggled(entries, id), id) == entries
  {
  }

  /** The indices of the bookmarked entries. */
  ghost function BookmarkedIndices(entries: seq<Entry>): set<int>
  {
    set i | 0 <= i < |entries| && entries[i].isBookmarked
  }

  /** `entries.filter(e => e.isBookmarked).length`. */
  function CountBookmarked(entries: seq<Entry>): (n: nat)
    ensures n == |BookmarkedIndices(entries)|
  {
    if entries == [] then 0
    else
      var init := entries[..|entries| - 1];
      var n := CountBookmarked(init);
      var last := |entries| - 1;
      assert BookmarkedIndices(entries) ==
        BookmarkedIndices(init) + if entries[last].isBookmarked then {last} else {};
      n + if entries[last].isBookmarked then 1 else 0
  }

  lemma {:induction false} CountPrepend(e: Entry, entries: seq<Entry>)
    ensures CountBookmarked([e] + entries) == CountBookmarked(entries) + if e.isBookmarked then 1 else 0
  {
    if entries != [] {
      var init := entries[..|entries| - 1];
      CountPrepend(e, init);
      assert ([e] + entries)[..|entries|] == [e] + init;
    }
  }

  /** The entry list after saving `draft` at time `now`: unchanged for a blank
      draft, otherwise the trimmed draft as a new unbookmarked journey entry in
      front. */
  function Saved(entries: seq<Entry>, draft: string, now: int): (r: seq<Entry>)
    ensures Trim(draft) == [] ==> r == entries
    ensures Trim(draft) != [] ==> |r| == |entries| + 1 && r[1..] == entries
    ensures Trim(draft) != [] ==>
      r[0].content == Trim(draft) && r[0].id == now && r[0].date == now
      && r[0].source == Journey && r[0].goalName == None && !r[0].isBookmarked
  {
    var content := Trim(draft);
    if content == [] then entries
    else [Entry(now, content, now, Journey, None, false)] + entries
  }

  /** Saving never changes how many entries are bookmarked. */
  lemma SavedKeepsBookmarks(entries: seq<Entry>, draft: string, now: int)
    ensures CountBookmarked(Saved(entries, draft, now)) == CountBookmarked(entries)
  {
    if Trim(draft) != [] {
      CountPrepend(Saved(entries, draft, now)[0], entries);
    }
  }

  // ---------------------------------------------------------------------------
  // The component

  class DiaryEntries {
    var newEntry: string
    var isSaved: bool
    var showSaveConfirmation: bool
    /** The five filter cells: search term, start and end dates, sort order and
        bookmarked-only. */
    var filters: Filters
    var diaryEntries: seq<Entry>

    /** The component on mount, over its initial list of entries. */
    constructor(entries: seq<Entry>)
      ensures diaryEntries == entries && newEntry == "" && !isSaved && !showSaveConfirmation
      ensures filters == Cleared
    {
      newEntry := "";
      isSaved := false;
      showSaveConfirmation := false;
      filters := Cleared;
      diaryEntries := entries;
    }

    /** `filteredAndSortedEntries`. */
    function FilteredAndSortedEntries(): (r: seq<Entry>)
      reads this
      ensures forall e :: e in r <==> e in diaryEntries && Matches(filters, e)
      ensures multiset(r) == multiset(FilterEntries(diaryEntries, filters))
      ensures Sorted(r, filters.sortOrder == Newest)
    {
      VisibleSpec(diaryEntries, filters);
      Visible(diaryEntries, filters)
    }

    /** `bookmarkedCount`. */
    function BookmarkedCount(): (n: nat)
      reads this
      ensures n == |BookmarkedIndices(diaryEntries)|
    {
      CountBookmarked(diaryEntries)
    }

    /** `handleSave` at time `now`, which also serves as the new id: a draft that
        is blank after trimming changes nothing; otherwise the trimmed draft is
        prepended as an unbookmarked journey entry, the draft is cleared and both
        saved flags are raised. */
    method HandleSave(now: int)
      modifies this
      ensures diaryEntries == Saved(old(diaryEntries), old(newEntry), now)
      ensures Trim(old(newEntry)) == [] ==>
        newEntry == old(newEntry) && isSaved == old(isSaved) && showSaveConfirmation == old(showSaveConfirmation)
      ensures Trim(old(newEntry)) != [] ==> newEntry == [] && isSaved && showSaveConfirmation
      ensures filters == old(filters)
    {
      var content := Trim(newEntry);
      if content != [] {
        diaryEntries := Saved(diaryEntries, newEntry, now);
        newEntry, isSaved, showSaveConfirmation := [], true, true;
      }
    }

    /** `toggleBookmark(entryId)`. */
    method ToggleBookmark(entryId: int)
      modifies this
      ensures diaryEntries == WithBookmarkToggled(old(diaryEntries), entryId)
      ensures newEntry == old(newEntry) && isSaved == old(isSaved)
      ensures showSaveConfirmation == old(showSaveConfirmation) && filters == old(filters)
    {
      diaryEntries := WithBookmarkToggled(diaryEntries, entryId);
    }

    /** Typing into the draft, followed by the effect that runs when the draft
        changes: a non-empty new draft lowers both saved flags. */
    method EditDraft(text: string)
      modifies this
      ensures newEntry == text
      ensures if text != old(newEntry) && text != ""
              then !isSaved && !showSaveConfirmation
              else isSaved == old(isSaved) && showSaveConfirmation == old(showSaveConfirmation)
      ensures diaryEntries == old(diaryEntries) && filters == old(filters)
    {
      var changed := text != newEntry;
      newEntry := text;
      if changed && newEntry != "" {
        isSaved := false;
        showSaveConfirmation := false;
      }
    }

    /** `clearFilters`: afterwards no filter is active and every entry is listed,
        newest first. */
    method ClearFilters()
      modifies this
      ensures filters == Cleared && !HasActiveFilters(filters)
      ensures FilteredAndSortedEntries() == SortByDate(diaryEntries, true)
      ensures diaryEntries == old(diaryEntries) && newEntry == old(newEntry)
      ensures isSaved == old(isSaved) && showSaveConfirmation == old(showSaveConfirmation)
    {
      filters := Cleared;
      InactiveFiltersListAll(diaryEntries, Cleared);
    }
  }
}
