/** `toggleFavorite` of src/contexts/MusicContext.tsx on the list of favourite ids. */
module Favorites {
  import opened Seqs

  /** `prev.filter(id => id !== songId)`. */
  function RemoveId(favorites: seq<string>, id: string): (r: seq<string>)
    ensures Sublist(r, favorites)
    ensures forall x :: x in r <==> x in favorites && x != id
    ensures forall x :: multiset(r)[x] == if x == id then 0 else multiset(favorites)[x]
  {
    Filter(favorites, (x: string) => x != id)
  }

  /**
   * Removes every occurrence of a present id, otherwise appends it at the
   * end; every other id keeps all its occurrences.
   */
  function Toggle(favorites: seq<string>, id: string): (r: seq<string>)
    ensures forall x :: x != id ==> multiset(r)[x] == multiset(favorites)[x]
    ensures id in favorites ==> id !in r && Sublist(r, favorites)
    ensures id !in favorites ==> |r| == |favorites| + 1 && r[..|favorites|] == favorites && r[|favorites|] == id
  {
    if id in favorites then RemoveId(favorites, id) else favorites + [id]
  }

  /** The toggled id changes membership; every other id keeps its membership. */
  lemma ToggleFlipsOnlyId(favorites: seq<string>, id: string)
    ensures (id in Toggle(favorites, id)) == (id !in favorites)
    ensures forall x :: x != id ==> (x in Toggle(favorites, id) <==> x in favorites)
  {
  }

  /** Toggling twice restores the set of favourites. */
  lemma DoubleToggleRestoresSet(favorites: seq<string>, id: string)
    ensures forall x :: x in Toggle(Toggle(favorites, id), id) <==> x in favorites
  {
    ToggleFlipsOnlyId(favorites, id);
    ToggleFlipsOnlyId(Toggle(favorites, id), id);
  }

  /**
   * Toggling an id that is not a favourite twice gives back the very same
   * list: it is appended, then that one occurrence is removed.
   */
  lemma DoubleToggleOfNewIdIsIdentity(favorites: seq<string>, id: string)
    requires id !in favorites
    ensures Toggle(Toggle(favorites, id), id) == favorites
  {
    var keep := (x: string) => x != id;
    assert id in favorites + [id];
    FilterAppend(favorites, [id], keep);
    FilterKeepsAll(favorites, keep);
    assert Filter([id], keep) == [];
  }

  /** Removal shortens the list exactly when the id was a favourite. */
  lemma {:induction false} RemoveIdShrinks(favorites: seq<string>, id: string)
    ensures |RemoveId(favorites, id)| < |favorites| <==> id in favorites
  {
    var keep := (x: string) => x != id;
    if favorites != [] {
      RemoveIdShrinks(favorites[1..], id);
      assert favorites == [favorites[0]] + favorites[1..];
      assert Filter(favorites, keep) == (if keep(favorites[0]) then [favorites[0]] else []) + Filter(favorites[1..], keep);
    }
  }
}
