/**
 * The music provider of src/contexts/MusicContext.tsx as an object whose
 * commands update its state fields, together with the guarded control-bar
 * handlers of src/components/Player.tsx.
 *
 * The audio element is assumed to be mounted; what the provider asks of it
 * (load a source, play, pause) is not modelled, and the events it reports
 * back are the `On...` methods. Browser storage is the map `storage`, written
 * once by each command that persists a preference.
 */
module Engine {
  import opened Wrappers
  import opened Library
  import opened Sorting
  import opened Navigation
  import Favorites

  /** A stored preference, before it is turned into text. */
  datatype Stored = Text(text: string) | Number(value: real) | Ids(ids: seq<string>)

  const SortKey := "musebox-sort"
  const RepeatKey := "musebox-repeat"
  const ShuffleKey := "musebox-shuffle"
  const SineWaveKey := "musebox-sinewave"
  const FavoritesKey := "musebox-favorites"
  const VolumeKey := "musebox-volume"
  const HueKey := "musebox-hue"

  /** `JSON.stringify` of a boolean. */
  function BoolText(b: bool): string {
    if b then "true" else "false"
  }

  /** `localStorage.getItem(key)` when it passes the `if (stored)` test: present and non-empty. */
  function StoredText(storage: map<string, Stored>, key: string): (r: Option<string>)
    ensures r.Some? <==> key in storage && storage[key].Text? && storage[key].text != ""
    ensures r.Some? ==> r.value == storage[key].text
  {
    if key in storage && storage[key].Text? && storage[key].text != "" then Some(storage[key].text) else None
  }

  class MusicEngine {
    var songs: seq<Song>
    var currentSong: Option<Song>
    var isPlaying: bool
    var favorites: seq<string>
    var volume: real
    var currentTime: real
    var duration: real
    var sort: SortOption
    var hue: real
    var isShuffled: bool
    var repeat: RepeatOption
    var showSineWave: bool
    var storage: map<string, Stored>
    /** The name order: `nameLe(a, b)` when `a.localeCompare(b) <= 0`. */
    const nameLe: (string, string) -> bool

    /** The provider's initial state, before any stored preference is read. */
    constructor (nameLe: (string, string) -> bool, storage: map<string, Stored>)
      ensures this.nameLe == nameLe && this.storage == storage
      ensures songs == [] && currentSong == None && !isPlaying && favorites == []
      ensures volume == 0.75 && currentTime == 0.0 && duration == 0.0 && hue == 260.0
      ensures sort == NameAsc && !isShuffled && repeat == NoRepeat && showSineWave
    {
      this.nameLe := nameLe;
      this.storage := storage;
      songs, currentSong, isPlaying, favorites := [], None, false, [];
      volume, currentTime, duration, hue := 0.75, 0.0, 0.0, 260.0;
      sort, isShuffled, repeat, showSineWave := NameAsc, false, NoRepeat, true;
    }

    /** `sortedSongs`: the view every list is drawn from, a permutation of `songs`, ordered when the name order is total. */
    function SortedSongs(): (r: seq<Song>)
      reads this`songs, this`sort
      ensures multiset(r) == multiset(songs)
      ensures Total(nameLe) ==> Ordered(r, sort, nameLe)
    {
      Sorting.SortedSongsOrderedUnderTotal(songs, sort, nameLe);
      Sorting.SortedSongs(songs, sort, nameLe)
    }

    /** The playback state navigation works on. */
    function State(): Playback
      reads this`currentSong, this`isPlaying
    {
      Playback(currentSong, isPlaying)
    }

    // -------------------------------------------------------------------
    // Preferences

    /**
     * The start-up restore of the repeat and sort modes: a stored non-empty
     * text replaces the mode, unchecked.
     */
    method RestoreModes()
      modifies this`repeat, this`sort
      ensures repeat == if StoredText(storage, RepeatKey).Some? then ParseRepeat(StoredText(storage, RepeatKey).value) else old(repeat)
      ensures sort == if StoredText(storage, SortKey).Some? then ParseSort(StoredText(storage, SortKey).value) else old(sort)
    {
      var storedRepeat := StoredText(storage, RepeatKey);
      if storedRepeat.Some? {
        repeat := ParseRepeat(storedRepeat.value);
      }
      var storedSort := StoredText(storage, SortKey);
      if storedSort.Some? {
        sort := ParseSort(storedSort.value);
      }
    }

    method SetVolume(newVolume: real)
      modifies this`volume, this`storage
      ensures volume == newVolume && storage == old(storage)[VolumeKey := Number(newVolume)]
    {
      volume := newVolume;
      storage := storage[VolumeKey := Number(newVolume)];
    }

    method SetHue(newHue: real)
      modifies this`hue, this`storage
      ensures hue == newHue && storage == old(storage)[HueKey := Number(newHue)]
    {
      hue := newHue;
      storage := storage[HueKey := Number(newHue)];
    }

    /** The raw `setSort` setter the provider also exposes; it stores nothing. */
    method SetSort(mode: SortOption)
      requires Canonical(mode)
      modifies this`sort
      ensures sort == mode
    {
      sort := mode;
    }

    method ToggleSort()
      modifies this`sort, this`storage
      ensures sort == Sorting.ToggleSort(old(sort))
      ensures storage == old(storage)[SortKey := Text(SortName(sort))]
    {
      sort := Sorting.ToggleSort(sort);
      storage := storage[SortKey := Text(SortName(sort))];
    }

    method ToggleShuffle()
      modifies this`isShuffled, this`storage
      ensures isShuffled == !old(isShuffled)
      ensures storage == old(storage)[ShuffleKey := Text(BoolText(isShuffled))]
    {
      isShuffled := !isShuffled;
      storage := storage[ShuffleKey := Text(BoolText(isShuffled))];
    }

    method ToggleRepeat()
      modifies this`repeat, this`storage
      ensures repeat == Navigation.ToggleRepeat(old(repeat))
      ensures storage == old(storage)[RepeatKey := Text(RepeatName(repeat))]
    {
      repeat := Navigation.ToggleRepeat(repeat);
      storage := storage[RepeatKey := Text(RepeatName(repeat))];
    }

    method ToggleSineWave()
      modifies this`showSineWave, this`storage
      ensures showSineWave == !old(showSineWave)
      ensures storage == old(storage)[SineWaveKey := Text(BoolText(showSineWave))]
    {
      showSineWave := !showSineWave;
      storage := storage[SineWaveKey := Text(BoolText(showSineWave))];
    }

    method ToggleFavorite(songId: string)
      modifies this`favorites, this`storage
      ensures favorites == Favorites.Toggle(old(favorites), songId)
      ensures songId in favorites <==> songId !in old(favorites)
      ensures forall id :: id != songId ==> (id in favorites <==> id in old(favorites))
      ensures storage == old(storage)[FavoritesKey := Ids(favorites)]
    {
      Favorites.ToggleFlipsOnlyId(favorites, songId);
      favorites := Favorites.Toggle(favorites, songId);
      storage := storage[FavoritesKey := Ids(favorites)];
    }

    // -------------------------------------------------------------------
    // Loading a folder

    /**
     * `loadSongs(files)`: a missing selection changes nothing; a selection
     * without audio entries raises the "No audio files found" notice and
     * changes nothing; otherwise the collection becomes the songs of the
     * audio entries. Playback state is left as it was.
     */
    method LoadSongs(files: Option<seq<FileEntry>>) returns (noAudioNotice: bool)
      modifies this`songs
      ensures noAudioNotice <==> files.Some? && AudioFiles(files.value) == []
      ensures files.None? || noAudioNotice ==> songs == old(songs)
      ensures files.Some? && !noAudioNotice ==> songs == SongsFromFiles(files.value)
    {
      if files.None? {
        return false;
      }
      var audioFiles := AudioFiles(files.value);
      if |audioFiles| == 0 {
        return true;
      }
      songs := seq(|audioFiles|, i requires 0 <= i < |audioFiles| => SongFromFile(audioFiles[i]));
      noAudioNotice := false;
    }

    // -------------------------------------------------------------------
    // Playback commands

    /** `playSong(id)`: look the id up in the collection, then in the sorted view. */
    method PlaySong(songId: string)
      modifies this`currentSong, this`isPlaying
      ensures State() == PlaySongOutcome(old(State()), songs, SortedSongs(), songId)
    {
      var songToPlay := Find(songs, songId);
      if songToPlay.None? {
        songToPlay := Find(SortedSongs(), songId);
      }
      if songToPlay.Some? {
        currentSong := songToPlay;
        isPlaying := true;
      }
    }

    method TogglePlayPause()
      modifies this`isPlaying
      ensures currentSong.None? ==> isPlaying == old(isPlaying)
      ensures currentSong.Some? ==> isPlaying == !old(isPlaying)
    {
      if currentSong.None? {
        return;
      }
      isPlaying := !isPlaying;
    }

    /** `playNext(playlist)`; `random` is the value `Math.random()` returns. */
    method PlayNext(playlist: seq<Song>, random: real)
      requires 0.0 <= random < 1.0
      modifies this`currentSong, this`isPlaying
      ensures State() == Resolve(old(State()), NextStep(old(currentSong), playlist, isShuffled, repeat, random), songs, SortedSongs())
    {
      if currentSong.None? || |playlist| == 0 {
        return;
      }
      var currentId := currentSong.value.id;
      if isShuffled {
        var nextSong;
        if |playlist| == 1 {
          nextSong := playlist[0];
        } else {
          var potentialSongs := OtherSongs(playlist, currentId);
          if |potentialSongs| == 0 {
            potentialSongs := playlist;
          }
          nextSong := potentialSongs[RandomIndex(random, |potentialSongs|)];
        }
        PlaySong(nextSong.id);
      } else {
        var currentIndex := FindIndex(playlist, currentId);
        if currentIndex == -1 {
          PlaySong(playlist[0].id);
        } else {
          var nextIndex := (currentIndex + 1) % |playlist|;
          assert nextIndex == NextIndex(currentIndex, |playlist|);
          if nextIndex == 0 && repeat != RepeatList {
            isPlaying := false;
            return;
          }
          PlaySong(playlist[nextIndex].id);
        }
      }
    }

    /** `playPrev(playlist)`. */
    method PlayPrev(playlist: seq<Song>)
      modifies this`currentSong, this`isPlaying
      ensures State() == Resolve(old(State()), PrevStep(old(currentSong), playlist), songs, SortedSongs())
    {
      if currentSong.None? || |playlist| == 0 {
        return;
      }
      var currentIndex := FindIndex(playlist, currentSong.value.id);
      if currentIndex == -1 {
        PlaySong(playlist[0].id);
      } else {
        var prevIndex := (currentIndex - 1 + |playlist|) % |playlist|;
        assert prevIndex == PrevIndex(currentIndex, |playlist|);
        PlaySong(playlist[prevIndex].id);
      }
    }

    /** `seek(time)`: the position is updated without waiting for the element. */
    method Seek(time: real)
      modifies this`currentTime
      ensures currentTime == time
    {
      currentTime := time;
    }

    /**
     * `handleSongEnd`: with repeat-song only the element is rewound and
     * restarted, and the provider's state follows through the element's
     * `timeupdate` and `play` events (`OnTimeUpdate(0.0)`, `OnPlay()`);
     * otherwise `playNext` runs over the sorted view.
     */
    method HandleSongEnd(random: real)
      requires 0.0 <= random < 1.0
      modifies this`currentSong, this`isPlaying
      ensures repeat == RepeatSong ==> State() == old(State())
      ensures repeat != RepeatSong ==>
        State() == Resolve(old(State()), NextStep(old(currentSong), SortedSongs(), isShuffled, repeat, random), songs, SortedSongs())
    {
      if repeat != RepeatSong {
        PlayNext(SortedSongs(), random);
      }
    }

    // -------------------------------------------------------------------
    // Events of the audio element

    method OnTimeUpdate(position: real)
      modifies this`currentTime
      ensures currentTime == position
    {
      currentTime := position;
    }

    method OnLoadedMetadata(length: real)
      modifies this`duration
      ensures duration == length
    {
      duration := length;
    }

    method OnPlay()
      modifies this`isPlaying
      ensures isPlaying
    {
      isPlaying := true;
    }

    method OnPause()
      modifies this`isPlaying
      ensures !isPlaying
    {
      isPlaying := false;
    }

    // -------------------------------------------------------------------
    // The control bar of src/components/Player.tsx; `playlist` is the list
    // the page shows

    /** Back: restart a track more than 3 seconds in, otherwise go to the previous song. */
    method HandlePlayPrev(playlist: seq<Song>)
      modifies this`currentTime, this`currentSong, this`isPlaying
      ensures old(currentSong).None? ==> currentTime == old(currentTime) && State() == old(State())
      ensures old(currentSong).Some? && old(currentTime) > 3.0 ==> currentTime == 0.0 && State() == old(State())
      ensures old(currentSong).Some? && old(currentTime) <= 3.0 ==> currentTime == old(currentTime)
      ensures old(currentSong).Some? && old(currentTime) <= 3.0 ==>
        State() == Resolve(old(State()), PrevStep(old(currentSong), playlist), songs, SortedSongs())
    {
      if currentSong.None? {
        return;
      }
      if currentTime > 3.0 {
        Seek(0.0);
      } else {
        PlayPrev(playlist);
      }
    }

    method HandlePlayNext(playlist: seq<Song>, random: real)
      requires 0.0 <= random < 1.0
      modifies this`currentSong, this`isPlaying
      ensures old(currentSong).None? ==> State() == old(State())
      ensures State() == Resolve(old(State()), NextStep(old(currentSong), playlist, isShuffled, repeat, random), songs, SortedSongs())
    {
      if currentSong.None? {
        return;
      }
      PlayNext(playlist, random);
    }

    method HandleTogglePlayPause()
      modifies this`isPlaying
      ensures currentSong.None? ==> isPlaying == old(isPlaying)
      ensures currentSong.Some? ==> isPlaying == !old(isPlaying)
    {
      if currentSong.Some? {
        TogglePlayPause();
      }
    }
  }
}
