/**
 * Navigation of src/contexts/MusicContext.tsx: the repeat modes, `playSong`'s
 * lookup, and the song `playNext` and `playPrev` move to within a playlist.
 *
 * Each navigation command is specified by a `Step` (stay, pause, or play an
 * id) that a pure function computes from the state the command reads;
 * `Resolve` gives the playback state the step leads to.
 */
module Navigation {
  import opened Wrappers
  import opened Seqs
  import opened Library

  /** The repeat mode, including any text a restore from storage casts to a mode. */
  datatype RepeatOption = NoRepeat | RepeatList | RepeatSong | UnknownRepeat(raw: string)

  /** The text the provider stores for a mode. */
  function RepeatName(m: RepeatOption): string {
    match m
    case NoRepeat => "none"
    case RepeatList => "list"
    case RepeatSong => "song"
    case UnknownRepeat(raw) => raw
  }

  /** The mode a stored text denotes: the cast `storedRepeat as RepeatOption`. */
  function ParseRepeat(s: string): RepeatOption {
    if s == "none" then NoRepeat
    else if s == "list" then RepeatList
    else if s == "song" then RepeatSong
    else UnknownRepeat(s)
  }

  /** `toggleRepeat`: none, list, song, then none again. */
  function ToggleRepeat(m: RepeatOption): (r: RepeatOption)
    ensures r != m && !r.UnknownRepeat?
  {
    if m == NoRepeat then RepeatList
    else if m == RepeatList then RepeatSong
    else NoRepeat
  }

  /**
   * The toggle visits the three known modes in turn and comes back after
   * three steps; any other value leads to none. A toggled mode survives
   * being stored and read back.
   */
  lemma ToggleRepeatCycle(m: RepeatOption)
    ensures !m.UnknownRepeat? ==> ToggleRepeat(ToggleRepeat(ToggleRepeat(m))) == m
    ensures !m.UnknownRepeat? ==>
      var m1 := ToggleRepeat(m);
      var m2 := ToggleRepeat(m1);
      m != m1 && m != m2 && m1 != m2
    ensures m.UnknownRepeat? ==> ToggleRepeat(m) == NoRepeat
    ensures ParseRepeat(RepeatName(ToggleRepeat(m))) == ToggleRepeat(m)
  {
  }

  /** A mode whose raw text, if any, is not one of the three known names. */
  predicate CanonicalRepeat(m: RepeatOption) {
    m.UnknownRepeat? ==> m.raw !in {"none", "list", "song"}
  }

  /** The cast on restore keeps the stored text, and storing a mode and reading it back gives the mode. */
  lemma RepeatNameRoundTrip(s: string, m: RepeatOption)
    ensures RepeatName(ParseRepeat(s)) == s && CanonicalRepeat(ParseRepeat(s))
    ensures CanonicalRepeat(m) ==> ParseRepeat(RepeatName(m)) == m
  {
  }

  // ---------------------------------------------------------------------
  // Looking songs up by id

  /** Some song of `s` has id `id`. */
  predicate HasId(s: seq<Song>, id: string) {
    exists j :: 0 <= j < |s| && s[j].id == id
  }

  /** `findIndex(s => s.id === id)`: the first position holding `id`, or -1. */
  function FindIndex(s: seq<Song>, id: string): (r: int)
    ensures -1 <= r < |s|
    ensures r == -1 <==> !HasId(s, id)
    ensures r >= 0 ==> s[r].id == id && forall j :: 0 <= j < r ==> s[j].id != id
  {
    if s == [] then -1
    else if s[0].id == id then 0
    else
      var k := FindIndex(s[1..], id);
      assert forall j :: 1 <= j < |s| ==> s[j] == s[1..][j - 1];
      if k == -1 then -1 else k + 1
  }

  /** `find(s => s.id === id)`: the first song holding `id`. */
  function Find(s: seq<Song>, id: string): (r: Option<Song>)
    ensures r.Some? <==> HasId(s, id)
    ensures r.Some? ==> r.value.id == id && r.value in s
    ensures r.Some? ==> r.value == s[FindIndex(s, id)]
  {
    var k := FindIndex(s, id);
    if k == -1 then None else Some(s[k])
  }

  /** `playSong`'s lookup: in `songs` first, then in `sortedSongs`. */
  function Lookup(songs: seq<Song>, sorted: seq<Song>, id: string): (r: Option<Song>)
    ensures r.Some? <==> HasId(songs, id) || HasId(sorted, id)
    ensures r.Some? ==> r.value.id == id && (r.value in songs || r.value in sorted)
    ensures HasId(songs, id) ==> r == Find(songs, id)
  {
    var inSongs := Find(songs, id);
    if inSongs.Some? then inSongs else Find(sorted, id)
  }

  /**
   * Because the sorted view is a permutation of the collection, the fallback
   * to `sortedSongs` never finds a song the collection lacks: the lookup is
   * the first song of the collection with that id.
   */
  lemma LookupIsFindInSongs(songs: seq<Song>, sorted: seq<Song>, id: string)
    requires multiset(sorted) == multiset(songs)
    ensures Lookup(songs, sorted, id) == Find(songs, id)
  {
    if HasId(sorted, id) {
      var j :| 0 <= j < |sorted| && sorted[j].id == id;
      assert sorted[j] in multiset(songs);
      assert HasId(songs, id);
    }
  }

  // ---------------------------------------------------------------------
  // Playback state and steps

  /** The part of the provider's state navigation changes. */
  datatype Playback = Playback(current: Option<Song>, playing: bool)

  /** What a navigation command does: nothing, pause where it is, or play an id. */
  datatype Step = Stay | Halt | Play(id: string)

  /** `playSong(id)`: an unknown id changes nothing; a known one makes the song the lookup found current. */
  function PlaySongOutcome(p: Playback, songs: seq<Song>, sorted: seq<Song>, id: string): (r: Playback)
    ensures Lookup(songs, sorted, id).None? ==> r == p
    ensures Lookup(songs, sorted, id).Some? ==> r.playing && r.current.Some? && r.current.value.id == id
    ensures Lookup(songs, sorted, id).Some? ==> r.current == Lookup(songs, sorted, id)
  {
    var found := Lookup(songs, sorted, id);
    if found.Some? then Playback(found, true) else p
  }

  /**
   * The playback state a step leads to: staying changes nothing, halting
   * only pauses, and the current song changes only to a song with the
   * played id, which then plays.
   */
  function Resolve(p: Playback, step: Step, songs: seq<Song>, sorted: seq<Song>): (r: Playback)
    ensures step.Stay? ==> r == p
    ensures step.Halt? ==> r.current == p.current && !r.playing
    ensures r.current != p.current ==> step.Play? && r.playing && r.current.Some? && r.current.value.id == step.id
  {
    match step
    case Stay => p
    case Halt => p.(playing := false)
    case Play(id) => PlaySongOutcome(p, songs, sorted, id)
  }

  /** The step names a song of the playlist, or does not move. */
  predicate WithinPlaylist(step: Step, playlist: seq<Song>) {
    step.Play? ==> HasId(playlist, step.id)
  }

  // ---------------------------------------------------------------------
  // Index arithmetic (JavaScript's % on non-negative operands)

  function NextIndex(i: nat, n: nat): (k: nat)
    requires i < n
    ensures k == if i == n - 1 then 0 else i + 1
  {
    (i + 1) % n
  }

  function PrevIndex(i: nat, n: nat): (k: nat)
    requires i < n
    ensures k == if i == 0 then n - 1 else i - 1
  {
    (i - 1 + n) % n
  }

  /** Next and previous undo each other. */
  lemma NextPrevInverse(i: nat, n: nat)
    requires i < n
    ensures PrevIndex(NextIndex(i, n), n) == i
    ensures NextIndex(PrevIndex(i, n), n) == i
  {
  }

  /** `k` successive moves to the next index. */
  function AdvanceBy(i: nat, n: nat, k: nat): (r: nat)
    requires i < n
    ensures r < n
  {
    if k == 0 then i else NextIndex(AdvanceBy(i, n, k - 1), n)
  }

  /**
   * Moving forward `k` times from `i` reaches `i + k` while it stays in the
   * list, and `n` moves from any start come back to it.
   */
  lemma AdvanceCycle(i: nat, n: nat, k: nat)
    requires i < n
    ensures i + k < n ==> AdvanceBy(i, n, k) == i + k
    ensures AdvanceBy(i, n, n) == i
  {
    AdvanceWithin(i, n, k);
    AdvanceWithin(i, n, n - 1 - i);
    assert AdvanceBy(i, n, n - i) == 0;
    AdvanceCompose(i, n, n - i, i);
    AdvanceWithin(0, n, i);
  }

  lemma {:induction false} AdvanceWithin(i: nat, n: nat, k: nat)
    requires i < n
    ensures i + k < n ==> AdvanceBy(i, n, k) == i + k
  {
    if k > 0 {
      AdvanceWithin(i, n, k - 1);
    }
  }

  lemma {:induction false} AdvanceCompose(i: nat, n: nat, a: nat, b: nat)
    requires i < n
    ensures AdvanceBy(i, n, a + b) == AdvanceBy(AdvanceBy(i, n, a), n, b)
  {
    if b > 0 {
      AdvanceCompose(i, n, a, b - 1);
    }
  }

  /** `Math.floor(Math.random() * n)` for a random number in [0, 1). */
  function RandomIndex(random: real, n: nat): (k: nat)
    requires 0.0 <= random < 1.0 && n > 0
    ensures k < n
  {
    var x := random * n as real;
    assert 0.0 <= x < n as real;
    x.Floor
  }

  /** `playlist.filter(s => s.id !== currentSong.id)`. */
  function OtherSongs(playlist: seq<Song>, currentId: string): (r: seq<Song>)
    ensures Sublist(r, playlist)
    ensures forall x :: x in r <==> x in playlist && x.id != currentId
    ensures forall x :: multiset(r)[x] == if x.id != currentId then multiset(playlist)[x] else 0
  {
    Filter(playlist, (s: Song) => s.id != currentId)
  }

  /** Songs that are not the current one; the whole playlist when none is left. */
  function ShuffleCandidates(playlist: seq<Song>, currentId: string): (r: seq<Song>)
    ensures forall x :: x in r ==> x in playlist
    ensures |playlist| > 0 ==> |r| > 0
  {
    var others := OtherSongs(playlist, currentId);
    if |others| == 0 then playlist else others
  }

  // ---------------------------------------------------------------------
  // The navigation commands

  /** `playNext(playlist)`: the step taken from the current song. */
  function NextStep(current: Option<Song>, playlist: seq<Song>, shuffled: bool, repeat: RepeatOption, random: real): (r: Step)
    requires 0.0 <= random < 1.0
    ensures r.Stay? <==> current.None? || |playlist| == 0
    ensures r.Halt? ==> current.Some? && !shuffled && repeat != RepeatList
    ensures r.Halt? ==> FindIndex(playlist, current.value.id) == |playlist| - 1
  {
    if current.None? || |playlist| == 0 then Stay
    else if shuffled then
      if |playlist| == 1 then Play(playlist[0].id)
      else
        var candidates := ShuffleCandidates(playlist, current.value.id);
        Play(candidates[RandomIndex(random, |candidates|)].id)
    else
      var i := FindIndex(playlist, current.value.id);
      if i == -1 then Play(playlist[0].id)
      else
        var next := NextIndex(i, |playlist|);
        if next == 0 && repeat != RepeatList then Halt
        else Play(playlist[next].id)
  }

  /** `playPrev(playlist)`: the step taken from the current song; repeat plays no part. */
  function PrevStep(current: Option<Song>, playlist: seq<Song>): (r: Step)
    ensures r.Stay? <==> current.None? || |playlist| == 0
    ensures !r.Halt?
  {
    if current.None? || |playlist| == 0 then Stay
    else
      var i := FindIndex(playlist, current.value.id);
      if i == -1 then Play(playlist[0].id)
      else Play(playlist[PrevIndex(i, |playlist|)].id)
  }

  /**
   * Without shuffle, `playNext` from the song at position `i` (its first
   * occurrence) plays position `i + 1`; from the last position it wraps to
   * the first song when the whole list repeats, and otherwise pauses on the
   * current song. Repeat-song also pauses there.
   */
  lemma NextStepInOrder(current: Song, playlist: seq<Song>, repeat: RepeatOption, random: real, i: nat)
    requires 0.0 <= random < 1.0
    requires i < |playlist| && playlist[i].id == current.id
    requires forall j :: 0 <= j < i ==> playlist[j].id != current.id
    ensures i < |playlist| - 1 ==> NextStep(Some(current), playlist, false, repeat, random) == Play(playlist[i + 1].id)
    ensures i == |playlist| - 1 && repeat == RepeatList ==> NextStep(Some(current), playlist, false, repeat, random) == Play(playlist[0].id)
    ensures i == |playlist| - 1 && repeat != RepeatList ==> NextStep(Some(current), playlist, false, repeat, random) == Halt
  {
    assert FindIndex(playlist, current.id) == i;
  }

  /** `playPrev` from the song at position `i` plays position `i - 1`, wrapping from the first to the last. */
  lemma PrevStepInOrder(current: Song, playlist: seq<Song>, i: nat)
    requires i < |playlist| && playlist[i].id == current.id
    requires forall j :: 0 <= j < i ==> playlist[j].id != current.id
    ensures 0 < i ==> PrevStep(Some(current), playlist) == Play(playlist[i - 1].id)
    ensures i == 0 ==> PrevStep(Some(current), playlist) == Play(playlist[|playlist| - 1].id)
  {
    assert FindIndex(playlist, current.id) == i;
  }

  /** A current song that is not in the playlist sends both commands to its first song. */
  lemma NotInPlaylistStartsOver(current: Song, playlist: seq<Song>, repeat: RepeatOption, random: real)
    requires 0.0 <= random < 1.0
    requires |playlist| > 0 && !HasId(playlist, current.id)
    ensures NextStep(Some(current), playlist, false, repeat, random) == Play(playlist[0].id)
    ensures PrevStep(Some(current), playlist) == Play(playlist[0].id)
  {
  }

  /** With no current song or an empty playlist both commands do nothing. */
  lemma NothingToNavigate(current: Option<Song>, playlist: seq<Song>, shuffled: bool, repeat: RepeatOption, random: real)
    requires 0.0 <= random < 1.0
    requires current.None? || playlist == []
    ensures NextStep(current, playlist, shuffled, repeat, random) == Stay
    ensures PrevStep(current, playlist) == Stay
  {
  }

  /**
   * With shuffle on, `playNext` plays a song of the playlist; a one-song
   * playlist replays its song; and whenever some song of the playlist has a
   * different id, the chosen song is not the current one, whatever the
   * random number.
   */
  lemma ShuffleAvoidsCurrent(current: Song, playlist: seq<Song>, repeat: RepeatOption, random: real)
    requires 0.0 <= random < 1.0
    requires |playlist| > 0
    ensures var step := NextStep(Some(current), playlist, true, repeat, random);
      && step.Play?
      && HasId(playlist, step.id)
      && (|playlist| == 1 ==> step.id == playlist[0].id)
      && (|playlist| >= 2 && (exists j :: 0 <= j < |playlist| && playlist[j].id != current.id) ==> step.id != current.id)
  {
    if |playlist| >= 2 {
      var others := OtherSongs(playlist, current.id);
      var candidates := ShuffleCandidates(playlist, current.id);
      var chosen := candidates[RandomIndex(random, |candidates|)];
      assert chosen in playlist;
      if exists j :: 0 <= j < |playlist| && playlist[j].id != current.id {
        var j :| 0 <= j < |playlist| && playlist[j].id != current.id;
        assert playlist[j] in others;
        assert candidates == others;
      }
    }
  }

  /** Navigation only ever moves to an id of the playlist it was given. */
  lemma StepsStayWithinPlaylist(current: Option<Song>, playlist: seq<Song>, shuffled: bool, repeat: RepeatOption, random: real)
    requires 0.0 <= random < 1.0
    ensures WithinPlaylist(NextStep(current, playlist, shuffled, repeat, random), playlist)
    ensures WithinPlaylist(PrevStep(current, playlist), playlist)
  {
    if current.Some? && |playlist| > 0 && shuffled {
      ShuffleAvoidsCurrent(current.value, playlist, repeat, random);
    }
  }

  /** An unrecognised repeat mode navigates as repeat-none. */
  lemma UnknownRepeatNavigatesAsNone(current: Option<Song>, playlist: seq<Song>, shuffled: bool, raw: string, random: real)
    requires 0.0 <= random < 1.0
    requires CanonicalRepeat(UnknownRepeat(raw))
    ensures NextStep(current, playlist, shuffled, UnknownRepeat(raw), random) == NextStep(current, playlist, shuffled, NoRepeat, random)
  {
  }

  /**
   * A step into a playlist drawn from the collection always finds its song:
   * the new current song has the chosen id and playback is on.
   */
  lemma StepIntoCollectionPlays(p: Playback, step: Step, playlist: seq<Song>, songs: seq<Song>, sorted: seq<Song>)
    requires multiset(sorted) == multiset(songs)
    requires WithinPlaylist(step, playlist)
    requires forall s :: s in playlist ==> s in songs
    requires step.Play?
    ensures var r := Resolve(p, step, songs, sorted);
      r.playing && r.current == Find(songs, step.id) && r.current.Some? && r.current.value.id == step.id
  {
    var j :| 0 <= j < |playlist| && playlist[j].id == step.id;
    assert playlist[j] in songs;
    LookupIsFindInSongs(songs, sorted, step.id);
  }

  /**
   * `playNext` and `playPrev` over a playlist drawn from the collection
   * either keep the current song or make current a song whose id is in the
   * playlist, and then playback is on.
   */
  lemma NavigationStaysInPlaylist(p: Playback, playlist: seq<Song>, songs: seq<Song>, sorted: seq<Song>,
                                  shuffled: bool, repeat: RepeatOption, random: real)
    requires 0.0 <= random < 1.0
    requires multiset(sorted) == multiset(songs)
    requires forall s :: s in playlist ==> s in songs
    ensures var r := Resolve(p, NextStep(p.current, playlist, shuffled, repeat, random), songs, sorted);
      r.current == p.current || (r.playing && r.current.Some? && HasId(playlist, r.current.value.id))
    ensures var r := Resolve(p, PrevStep(p.current, playlist), songs, sorted);
      r.current == p.current || (r.playing && r.current.Some? && HasId(playlist, r.current.value.id))
  {
    StepsStayWithinPlaylist(p.current, playlist, shuffled, repeat, random);
    var next := NextStep(p.current, playlist, shuffled, repeat, random);
    if next.Play? {
      StepIntoCollectionPlays(p, next, playlist, songs, sorted);
    }
    var prev := PrevStep(p.current, playlist);
    if prev.Play? {
      StepIntoCollectionPlays(p, prev, playlist, songs, sorted);
    }
  }

  // ---------------------------------------------------------------------
  // Repeated `playNext` with repeat-list

  /** No two songs of `s` share an id. */
  predicate DistinctIds(s: seq<Song>) {
    forall i, j :: 0 <= i < j < |s| ==> s[i].id != s[j].id
  }

  /** `k` successive `playNext(playlist)` commands without shuffle. */
  function NextTimes(p: Playback, playlist: seq<Song>, repeat: RepeatOption, songs: seq<Song>, sorted: seq<Song>, k: nat): Playback {
    if k == 0 then p
    else
      var q := NextTimes(p, playlist, repeat, songs, sorted, k - 1);
      Resolve(q, NextStep(q.current, playlist, false, repeat, 0.0), songs, sorted)
  }

  /** A song whose id no earlier song holds is found at its own position. */
  lemma FindIndexFirst(s: seq<Song>, j: nat)
    requires j < |s|
    requires forall i :: 0 <= i < j ==> s[i].id != s[j].id
    ensures FindIndex(s, s[j].id) == j
  {
    assert HasId(s, s[j].id);
  }

  /** In a collection without repeated ids, `playSong` of a song's id makes that very song current. */
  lemma LookupFindsSong(songs: seq<Song>, sorted: seq<Song>, song: Song)
    requires multiset(sorted) == multiset(songs)
    requires DistinctIds(songs) && song in songs
    ensures Lookup(songs, sorted, song.id) == Some(song)
  {
    var j :| 0 <= j < |songs| && songs[j] == song;
    FindIndexFirst(songs, j);
    LookupIsFindInSongs(songs, sorted, song.id);
  }

  /**
   * With repeat-list and no shuffle, over a playlist of distinct ids drawn
   * from a collection of distinct ids, `k` commands from the song at
   * position `i` play the song `k` places further on, wrapping at the end.
   */
  lemma {:induction false} RepeatListAdvances(p: Playback, playlist: seq<Song>, songs: seq<Song>, sorted: seq<Song>, i: nat, k: nat)
    requires multiset(sorted) == multiset(songs)
    requires DistinctIds(songs) && DistinctIds(playlist)
    requires forall s :: s in playlist ==> s in songs
    requires i < |playlist| && p.current == Some(playlist[i])
    ensures NextTimes(p, playlist, RepeatList, songs, sorted, k)
      == if k == 0 then p else Playback(Some(playlist[AdvanceBy(i, |playlist|, k)]), true)
  {
    if k > 0 {
      RepeatListAdvances(p, playlist, songs, sorted, i, k - 1);
      var q := NextTimes(p, playlist, RepeatList, songs, sorted, k - 1);
      var j := AdvanceBy(i, |playlist|, k - 1);
      assert q.current == Some(playlist[j]);
      FindIndexFirst(playlist, j);
      var next := NextIndex(j, |playlist|);
      assert NextStep(q.current, playlist, false, RepeatList, 0.0) == Play(playlist[next].id);
      LookupFindsSong(songs, sorted, playlist[next]);
    }
  }

  /**
   * The round trip of repeat-list: under the same hypotheses, as many
   * commands as the playlist has songs visit every later song in order and
   * come back to the starting song, playing.
   */
  lemma RepeatListCycle(p: Playback, playlist: seq<Song>, songs: seq<Song>, sorted: seq<Song>, i: nat)
    requires multiset(sorted) == multiset(songs)
    requires DistinctIds(songs) && DistinctIds(playlist)
    requires forall s :: s in playlist ==> s in songs
    requires i < |playlist| && p.current == Some(playlist[i])
    ensures NextTimes(p, playlist, RepeatList, songs, sorted, |playlist|) == Playback(p.current, true)
    ensures forall k :: 0 < k < |playlist| - i ==>
      NextTimes(p, playlist, RepeatList, songs, sorted, k) == Playback(Some(playlist[i + k]), true)
  {
    RepeatListAdvances(p, playlist, songs, sorted, i, |playlist|);
    AdvanceCycle(i, |playlist|, |playlist|);
    forall k | 0 < k < |playlist| - i
      ensures NextTimes(p, playlist, RepeatList, songs, sorted, k) == Playback(Some(playlist[i + k]), true)
    {
      RepeatListAdvances(p, playlist, songs, sorted, i, k);
      AdvanceCycle(i, |playlist|, k);
    }
  }

  // ---------------------------------------------------------------------
  // Repeated ids break the cycle

  /**
   * The songs the loader builds from `a.mp3`, `b.mp3`, `c.mp3` and two files
   * `x.mp3` of the same size from different folders: the twins `x` and `x'`
   * differ only in their modification time, and so share the id `x.mp3-1`.
   */
  const SongA := Song("a.mp3-1", FileEntry("a.mp3", 1, "audio/mpeg", 0), "a", 0)
  const SongB := Song("b.mp3-1", FileEntry("b.mp3", 1, "audio/mpeg", 0), "b", 0)
  const SongC := Song("c.mp3-1", FileEntry("c.mp3", 1, "audio/mpeg", 0), "c", 0)
  const TwinA := Song("x.mp3-1", FileEntry("x.mp3", 1, "audio/mpeg", 0), "x", 0)
  const TwinB := Song("x.mp3-1", FileEntry("x.mp3", 1, "audio/mpeg", 7), "x", 7)

  /** The collection `[a, x, b, x', c]`. */
  function TwinPlaylist(): seq<Song> {
    [SongA, TwinA, SongB, TwinB, SongC]
  }

  /** One command from `x` plays `b`; one command from `b` plays `x` again. */
  lemma TwinSteps(q: Playback)
    requires q.current == Some(TwinA) || q.current == Some(SongB)
    ensures var l := TwinPlaylist();
      Resolve(q, NextStep(q.current, l, false, RepeatList, 0.0), l, l).current
        == if q.current == Some(TwinA) then Some(SongB) else Some(TwinA)
  {
    var l := TwinPlaylist();
    assert l[0].id != l[1].id && l[0].id != l[2].id && l[1].id != l[2].id;
    FindIndexFirst(l, 1);
    FindIndexFirst(l, 2);
    assert l[3].id == l[1].id;
  }

  /** Two songs that `playNext` moves between, back and forth, alternate for ever. */
  lemma {:induction false} NextTimesAlternate(p: Playback, playlist: seq<Song>, repeat: RepeatOption, songs: seq<Song>, sorted: seq<Song>,
                                              u: Song, v: Song, k: nat)
    requires p.current == Some(u)
    requires forall q: Playback :: q.current == Some(u) ==>
      Resolve(q, NextStep(q.current, playlist, false, repeat, 0.0), songs, sorted).current == Some(v)
    requires forall q: Playback :: q.current == Some(v) ==>
      Resolve(q, NextStep(q.current, playlist, false, repeat, 0.0), songs, sorted).current == Some(u)
    ensures NextTimes(p, playlist, repeat, songs, sorted, k).current == Some(if k % 2 == 0 then u else v)
  {
    if k > 0 {
      NextTimesAlternate(p, playlist, repeat, songs, sorted, u, v, k - 1);
      assert (k % 2 == 0) == ((k - 1) % 2 == 1);
    }
  }

  /**
   * When two songs share an id, repeat-list never gets past them: from `x`
   * the next command plays `b`, and from `b` it plays the id of `x'`, which
   * `playSong` resolves to the first song with that id, `x` again. The last
   * song `c` is never reached.
   */
  lemma TwinIdsTrapRepeatList(k: nat)
    ensures TwinA.id == TwinB.id && TwinA != TwinB
    ensures var l := TwinPlaylist();
      NextTimes(Playback(Some(TwinA), true), l, RepeatList, l, l, k).current == Some(if k % 2 == 0 then TwinA else SongB)
    ensures var l := TwinPlaylist();
      NextTimes(Playback(Some(TwinA), true), l, RepeatList, l, l, k).current != Some(SongC)
  {
    var l := TwinPlaylist();
    forall q: Playback | q.current == Some(TwinA) || q.current == Some(SongB)
      ensures Resolve(q, NextStep(q.current, l, false, RepeatList, 0.0), l, l).current
        == if q.current == Some(TwinA) then Some(SongB) else Some(TwinA)
    {
      TwinSteps(q);
    }
    NextTimesAlternate(Playback(Some(TwinA), true), l, RepeatList, l, l, TwinA, SongB, k);
  }
}
