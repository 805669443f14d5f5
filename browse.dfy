/**
 * The list the home page shows and hands to the player as its playlist
 * (src/app/page.tsx): the favourites filter, then the search filter.
 */
module Browse {
  import opened Seqs
  import opened Library

  // ---------------------------------------------------------------------
  // Strings: `toLowerCase` and `includes`

  predicate IsUpper(c: char) {
    'A' <= c <= 'Z'
  }

  /**
   * Lower-cases the letters A to Z: the result is never an upper-case
   * letter, an upper-case letter becomes the lower-case letter at the same
   * place in the alphabet, and any other character is kept.
   */
  function LowerChar(c: char): (r: char)
    ensures !IsUpper(r)
    ensures IsUpper(c) ==> 'a' <= r <= 'z' && r as int - 'a' as int == c as int - 'A' as int
    ensures r != c ==> IsUpper(c)
  {
    if 'A' <= c <= 'Z' then (c as int + 32) as char else c
  }

  /**
   * `toLowerCase` on the letters A to Z: same length, no upper-case letter
   * left, only upper-case letters changed, and a string without upper-case
   * letters is returned as it is.
   */
  function ToLower(s: string): (r: string)
    ensures |r| == |s|
    ensures forall i :: 0 <= i < |r| ==> !IsUpper(r[i])
    ensures forall i :: 0 <= i < |s| && r[i] != s[i] ==> IsUpper(s[i])
    ensures (forall i :: 0 <= i < |s| ==> !IsUpper(s[i])) ==> r == s
    ensures forall i :: 0 <= i < |s| ==> r[i] == LowerChar(s[i])
  {
    seq(|s|, i requires 0 <= i < |s| => LowerChar(s[i]))
  }

  /** Lower-casing twice is lower-casing once. */
  lemma ToLowerIdempotent(s: string)
    ensures ToLower(ToLower(s)) == ToLower(s)
  {
  }

  /** `needle` occurs in `hay` starting at position `i`. */
  predicate OccursAt(hay: string, needle: string, i: int) {
    0 <= i && i + |needle| <= |hay| && hay[i..i + |needle|] == needle
  }

  /** `hay.includes(needle)`. */
  function Contains(hay: string, needle: string): (r: bool)
    ensures r <==> exists i :: OccursAt(hay, needle, i)
    decreases |hay|
  {
    if needle <= hay then
      assert OccursAt(hay, needle, 0);
      true
    else if hay == [] then
      assert forall i :: !OccursAt(hay, needle, i);
      false
    else
      var rest := Contains(hay[1..], needle);
      assert forall i :: 1 <= i ==> (OccursAt(hay, needle, i) <==> OccursAt(hay[1..], needle, i - 1));
      assert !OccursAt(hay, needle, 0);
      if rest then
        var k :| OccursAt(hay[1..], needle, k);
        assert OccursAt(hay, needle, k + 1);
        true
      else
        false
  }

  // ---------------------------------------------------------------------
  // The filters

  /** `song.name.toLowerCase().includes(searchQuery.toLowerCase())`. */
  function MatchesQuery(song: Song, query: string): (r: bool)
    ensures r <==> exists i :: OccursAt(ToLower(song.name), ToLower(query), i)
    ensures query == "" ==> r
  {
    assert query == "" ==> OccursAt(ToLower(song.name), ToLower(query), 0);
    Contains(ToLower(song.name), ToLower(query))
  }

  /** `favoriteSongs`: the songs of the sorted view whose ids are favourites, in order. */
  function FavoriteSongs(sorted: seq<Song>, favorites: seq<string>): (r: seq<Song>)
    ensures Sublist(r, sorted)
    ensures forall s :: s in r <==> s in sorted && s.id in favorites
    ensures forall s :: multiset(r)[s] == if s.id in favorites then multiset(sorted)[s] else 0
  {
    Filter(sorted, (s: Song) => s.id in favorites)
  }

  /** `baseSongsToShow`. */
  function BaseSongs(sorted: seq<Song>, favorites: seq<string>, showFavorites: bool): (r: seq<Song>)
    ensures Sublist(r, sorted)
    ensures forall s :: s in r <==> s in sorted && (showFavorites ==> s.id in favorites)
    ensures forall s :: multiset(r)[s] == if !showFavorites || s.id in favorites then multiset(sorted)[s] else 0
  {
    SublistRefl(sorted);
    if showFavorites then FavoriteSongs(sorted, favorites) else sorted
  }

  /** `songsToShow`: the base list, narrowed by the search query when there is one. */
  function SongsToShow(sorted: seq<Song>, favorites: seq<string>, showFavorites: bool, query: string): (r: seq<Song>)
    ensures query == "" ==> r == BaseSongs(sorted, favorites, showFavorites)
  {
    var base := BaseSongs(sorted, favorites, showFavorites);
    if query == "" then base else Filter(base, (s: Song) => MatchesQuery(s, query))
  }

  /**
   * The shown list keeps the order of the base list, and holds exactly the
   * base songs that match the query (all of them when there is no query),
   * where the base is the favourites or the whole sorted view.
   */
  lemma SongsToShowSpec(sorted: seq<Song>, favorites: seq<string>, showFavorites: bool, query: string)
    ensures var base := BaseSongs(sorted, favorites, showFavorites);
      var r := SongsToShow(sorted, favorites, showFavorites, query);
      && Sublist(r, base)
      && (forall s :: s in r <==> s in base && (query == "" || MatchesQuery(s, query)))
      && (forall s :: multiset(r)[s] == if query == "" || MatchesQuery(s, query) then multiset(base)[s] else 0)
      && (forall s :: s in base <==> s in sorted && (showFavorites ==> s.id in favorites))
      && (forall s :: multiset(base)[s] == if !showFavorites || s.id in favorites then multiset(sorted)[s] else 0)
  {
    var base := BaseSongs(sorted, favorites, showFavorites);
    if query == "" {
      SublistRefl(base);
    }
  }

  lemma {:induction false} SublistRefl<T>(s: seq<T>)
    ensures Sublist(s, s)
  {
    if s != [] {
      SublistRefl(s[1..]);
    }
  }

  /**
   * The empty-query shortcut changes nothing: every name contains the empty
   * string, so filtering with it would keep the whole base list.
   */
  lemma EmptyQueryKeepsAll(base: seq<Song>)
    ensures Filter(base, (s: Song) => MatchesQuery(s, "")) == base
  {
    assert ToLower("") == "";
    FilterKeepsAll(base, (s: Song) => MatchesQuery(s, ""));
  }

  /** Queries that differ only in the case of letters show the same songs. */
  lemma SearchIgnoresQueryCase(sorted: seq<Song>, favorites: seq<string>, showFavorites: bool, q1: string, q2: string)
    requires ToLower(q1) == ToLower(q2)
    ensures SongsToShow(sorted, favorites, showFavorites, q1) == SongsToShow(sorted, favorites, showFavorites, q2)
  {
    var base := BaseSongs(sorted, favorites, showFavorites);
    FilterCongruent(base, (s: Song) => MatchesQuery(s, q1), (s: Song) => MatchesQuery(s, q2));
  }

  /**
   * Every song of the playlist the page hands to the player belongs to the
   * collection, since the sorted view is a permutation of it.
   */
  lemma ShownSongsAreLoaded(songs: seq<Song>, sorted: seq<Song>, favorites: seq<string>, showFavorites: bool, query: string)
    requires multiset(sorted) == multiset(songs)
    ensures forall s :: s in SongsToShow(sorted, favorites, showFavorites, query) ==> s in songs
  {
    SongsToShowSpec(sorted, favorites, showFavorites, query);
    forall s | s in sorted ensures s in songs {
      assert s in multiset(sorted);
    }
  }
}
