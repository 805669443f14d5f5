/**
 * The sort modes and the derived `sortedSongs` view of
 * src/contexts/MusicContext.tsx.
 *
 * `localeCompare` is not modelled: the name order is a parameter `le`, where
 * `le(a, b)` stands for `a.localeCompare(b) <= 0`. The source sorts with the
 * stable `Array.prototype.sort`, so the view is specified by a stable
 * insertion sort: an element stays before a later one unless the comparator
 * puts the later one strictly first.
 */
module Sorting {
  import opened Library

  /**
   * The sort mode. The four modes the provider knows, and any other string
   * that a restore from storage casts to a mode without checking it.
   */
  datatype SortOption = NameAsc | NameDesc | DateDesc | DateAsc | UnknownSort(raw: string)

  /** The text the provider stores for a mode. */
  function SortName(m: SortOption): string {
    match m
    case NameAsc => "name-asc"
    case NameDesc => "name-desc"
    case DateDesc => "date-desc"
    case DateAsc => "date-asc"
    case UnknownSort(raw) => raw
  }

  /** The mode a stored text denotes: the cast `storedSort as SortOption`. */
  function ParseSort(s: string): SortOption {
    if s == "name-asc" then NameAsc
    else if s == "name-desc" then NameDesc
    else if s == "date-desc" then DateDesc
    else if s == "date-asc" then DateAsc
    else UnknownSort(s)
  }

  /** A mode whose raw text, if any, is not one of the four known names. */
  predicate Canonical(m: SortOption) {
    m.UnknownSort? ==> m.raw !in {"name-asc", "name-desc", "date-desc", "date-asc"}
  }

  /** Storing a mode and reading it back gives the mode, and the cast keeps the text. */
  lemma SortNameRoundTrip(m: SortOption, s: string)
    ensures Canonical(m) ==> ParseSort(SortName(m)) == m
    ensures SortName(ParseSort(s)) == s && Canonical(ParseSort(s))
  {
  }

  /** `toggleSort`: name-asc, name-desc, date-desc, date-asc, then name-asc again. */
  function ToggleSort(m: SortOption): (r: SortOption)
    ensures r != m && !r.UnknownSort?
  {
    if m == NameAsc then NameDesc
    else if m == NameDesc then DateDesc
    else if m == DateDesc then DateAsc
    else NameAsc
  }

  /**
   * The toggle visits the four known modes in turn and comes back after four
   * steps; any other value leads to name-asc.
   */
  lemma ToggleSortCycle(m: SortOption)
    ensures !m.UnknownSort? ==> ToggleSort(ToggleSort(ToggleSort(ToggleSort(m)))) == m
    ensures !m.UnknownSort? ==>
      var m1 := ToggleSort(m);
      var m2 := ToggleSort(m1);
      var m3 := ToggleSort(m2);
      m != m1 && m != m2 && m != m3 && m1 != m2 && m1 != m3 && m2 != m3
    ensures m.UnknownSort? ==> ToggleSort(m) == NameAsc
    ensures !ToggleSort(m).UnknownSort?
  {
  }

  // ---------------------------------------------------------------------
  // The sorted view

  /** The name order is total: `localeCompare` ranks any two names. */
  ghost predicate Total(le: (string, string) -> bool) {
    forall a, b :: le(a, b) || le(b, a)
  }

  ghost predicate Transitive(le: (string, string) -> bool) {
    forall a, b, c :: le(a, b) && le(b, c) ==> le(a, c)
  }

  /**
   * The comparator of `mode` lets `a` stay before `b` (it returns a value
   * <= 0): newest first or oldest first by the date added, the name order
   * reversed for name-desc, and the name order itself for name-asc and for
   * any unknown mode.
   */
  function InOrder(mode: SortOption, le: (string, string) -> bool, a: Song, b: Song): (r: bool)
    ensures mode == DateDesc ==> (r <==> a.dateAdded >= b.dateAdded)
    ensures mode == DateAsc ==> (r <==> a.dateAdded <= b.dateAdded)
    ensures mode == NameDesc ==> (r <==> le(b.name, a.name))
    ensures !(mode == NameDesc || mode == DateDesc || mode == DateAsc) ==> (r <==> le(a.name, b.name))
  {
    match mode
    case NameDesc => le(b.name, a.name)
    case DateDesc => b.dateAdded - a.dateAdded <= 0
    case DateAsc => a.dateAdded - b.dateAdded <= 0
    case _ => le(a.name, b.name)
  }

  /** Every neighbouring pair is in order. */
  predicate Ordered(s: seq<Song>, mode: SortOption, le: (string, string) -> bool) {
    forall i :: 0 <= i < |s| - 1 ==> InOrder(mode, le, s[i], s[i + 1])
  }

  /** Inserts `x` before the first element it may precede. */
  function Insert(x: Song, t: seq<Song>, mode: SortOption, le: (string, string) -> bool): (r: seq<Song>)
    ensures multiset(r) == multiset(t) + multiset{x}
    ensures |r| == |t| + 1
    ensures r[0] == x || (t != [] && r[0] == t[0])
  {
    if t == [] then [x]
    else if InOrder(mode, le, x, t[0]) then [x] + t
    else
      assert t == [t[0]] + t[1..];
      [t[0]] + Insert(x, t[1..], mode, le)
  }

  /** `sortedSongs`: a copy of `songs` sorted under the comparator of `mode`. */
  function SortedSongs(songs: seq<Song>, mode: SortOption, le: (string, string) -> bool): (r: seq<Song>)
    ensures multiset(r) == multiset(songs)
    ensures |r| == |songs|
  {
    if songs == [] then []
    else
      assert songs == [songs[0]] + songs[1..];
      Insert(songs[0], SortedSongs(songs[1..], mode, le), mode, le)
  }

  /** Every comparator the provider uses ranks any two songs when the name order is total. */
  lemma InOrderTotal(mode: SortOption, le: (string, string) -> bool, a: Song, b: Song)
    requires Total(le)
    ensures InOrder(mode, le, a, b) || InOrder(mode, le, b, a)
  {
  }

  /** `SortedSongsOrdered` with its hypothesis as a premise, for use in contracts. */
  lemma SortedSongsOrderedUnderTotal(songs: seq<Song>, mode: SortOption, le: (string, string) -> bool)
    ensures Total(le) ==> Ordered(SortedSongs(songs, mode, le), mode, le)
  {
    if Total(le) {
      SortedSongsOrdered(songs, mode, le);
    }
  }

  lemma {:induction false} InsertOrdered(x: Song, t: seq<Song>, mode: SortOption, le: (string, string) -> bool)
    requires Total(le) && Ordered(t, mode, le)
    ensures Ordered(Insert(x, t, mode, le), mode, le)
  {
    if t != [] && !InOrder(mode, le, x, t[0]) {
      InOrderTotal(mode, le, x, t[0]);
      var rest := Insert(x, t[1..], mode, le);
      InsertOrdered(x, t[1..], mode, le);
      assert rest[0] == x || (t[1..] != [] && rest[0] == t[1]);
      var r := [t[0]] + rest;
      forall i | 0 <= i < |r| - 1 ensures InOrder(mode, le, r[i], r[i + 1]) {
        if i > 0 {
          assert r[i] == rest[i - 1] && r[i + 1] == rest[i];
        }
      }
    }
  }

  /** The sorted view is ordered under the comparator of the mode. */
  lemma {:induction false} SortedSongsOrdered(songs: seq<Song>, mode: SortOption, le: (string, string) -> bool)
    requires Total(le)
    ensures Ordered(SortedSongs(songs, mode, le), mode, le)
  {
    if songs != [] {
      SortedSongsOrdered(songs[1..], mode, le);
      InsertOrdered(songs[0], SortedSongs(songs[1..], mode, le), mode, le);
    }
  }

  /**
   * What each mode promises of `sortedSongs`: the same songs, the names
   * ascending or descending under the name order, the dates newest first or
   * oldest first; an unknown mode sorts as name-asc.
   */
  lemma SortedSongsSpec(songs: seq<Song>, mode: SortOption, le: (string, string) -> bool)
    requires Total(le)
    ensures var r := SortedSongs(songs, mode, le);
      && multiset(r) == multiset(songs)
      && (mode == NameAsc || mode.UnknownSort? ==> forall i :: 0 <= i < |r| - 1 ==> le(r[i].name, r[i + 1].name))
      && (mode == NameDesc ==> forall i :: 0 <= i < |r| - 1 ==> le(r[i + 1].name, r[i].name))
      && (mode == DateDesc ==> forall i, j :: 0 <= i < j < |r| ==> r[i].dateAdded >= r[j].dateAdded)
      && (mode == DateAsc ==> forall i, j :: 0 <= i < j < |r| ==> r[i].dateAdded <= r[j].dateAdded)
  {
    var r := SortedSongs(songs, mode, le);
    SortedSongsOrdered(songs, mode, le);
    if mode == DateDesc || mode == DateAsc {
      OrderedAllPairs(r, mode, le);
    }
  }

  /** Under a transitive comparator, ordered neighbours give an ordered sequence. */
  lemma {:induction false} OrderedAllPairs(s: seq<Song>, mode: SortOption, le: (string, string) -> bool)
    requires mode == DateDesc || mode == DateAsc || Transitive(le)
    requires Ordered(s, mode, le)
    ensures forall i, j :: 0 <= i < j < |s| ==> InOrder(mode, le, s[i], s[j])
  {
    if |s| > 1 {
      OrderedAllPairs(s[1..], mode, le);
      forall j | 1 < j < |s| ensures InOrder(mode, le, s[0], s[j]) {
        assert InOrder(mode, le, s[0], s[1]) && InOrder(mode, le, s[1], s[j]);
      }
    }
  }

  /** An unrecognised stored mode yields the same view as name-asc. */
  lemma {:induction false} UnknownSortIsNameAsc(songs: seq<Song>, raw: string, le: (string, string) -> bool)
    requires Canonical(UnknownSort(raw))
    ensures SortedSongs(songs, UnknownSort(raw), le) == SortedSongs(songs, NameAsc, le)
  {
    if songs != [] {
      UnknownSortIsNameAsc(songs[1..], raw, le);
      InsertSameOrder(songs[0], SortedSongs(songs[1..], NameAsc, le), raw, le);
    }
  }

  lemma {:induction false} InsertSameOrder(x: Song, t: seq<Song>, raw: string, le: (string, string) -> bool)
    ensures Insert(x, t, UnknownSort(raw), le) == Insert(x, t, NameAsc, le)
  {
    if t != [] {
      InsertSameOrder(x, t[1..], raw, le);
    }
  }

  /**
   * The sort is stable in this sense: a collection that is already in
   * order is left exactly as it is, so sorting the view again changes
   * nothing.
   */
  lemma {:induction false} SortingOrderedIsIdentity(songs: seq<Song>, mode: SortOption, le: (string, string) -> bool)
    requires Ordered(songs, mode, le)
    ensures SortedSongs(songs, mode, le) == songs
  {
    if songs != [] {
      assert Ordered(songs[1..], mode, le) by {
        forall i | 0 <= i < |songs[1..]| - 1 ensures InOrder(mode, le, songs[1..][i], songs[1..][i + 1]) {
          assert songs[1..][i] == songs[i + 1] && songs[1..][i + 1] == songs[i + 2];
        }
      }
      SortingOrderedIsIdentity(songs[1..], mode, le);
      assert songs == [songs[0]] + songs[1..];
    }
  }

  lemma SortedSongsIdempotent(songs: seq<Song>, mode: SortOption, le: (string, string) -> bool)
    requires Total(le)
    ensures SortedSongs(SortedSongs(songs, mode, le), mode, le) == SortedSongs(songs, mode, le)
  {
    SortedSongsOrdered(songs, mode, le);
    SortingOrderedIsIdentity(SortedSongs(songs, mode, le), mode, le);
  }
}
