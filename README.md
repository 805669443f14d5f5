# Music player playback engine — a Dafny model

This project models the playback and queue engine of a browser music player
that plays a local folder of audio files. The engine (the music provider of
`src/contexts/MusicContext.tsx`) owns the song collection, the sorted view of
it, the current song and play state, the favourites, the shuffle, repeat,
sort and visualisation modes, and the navigation commands `playNext` and
`playPrev`. Two thin layers feed it and are modelled too: the home page's
list filtering (`src/app/page.tsx`), which builds the playlist navigation
runs over, and the control bar's button handlers
(`src/components/Player.tsx`).

Files:

- `wrappers.dfy` — `Option`.
- `seqs.dfy` — order-preserving `Filter` and the `Sublist` relation.
- `library.dfy` — folder loading: the audio-type filter, song ids
  (`name-size`), display names (extension stripped), dates.
- `sorting.dfy` — sort modes, `toggleSort`, the sorted view as a stable sort.
- `navigation.dfy` — repeat modes, `playSong`'s lookup, the steps of
  `playNext`/`playPrev`, and their properties.
- `favorites.dfy` — `toggleFavorite` on the list of favourite ids.
- `browse.dfy` — the favourites and search filters of the home page.
- `engine.dfy` — class `MusicEngine`: the provider's state fields and
  commands, the audio element's events, and the control-bar handlers.

Modelling choices:

- The engine is a class whose methods change only the fields they name
  (`modifies this\`field`). Each navigation method is proved equal to a pure
  specification: `NextStep`/`PrevStep` compute the step (stay, pause, or play
  an id), and `Resolve` applies it. The lemmas of `Navigation` state the
  navigation rules about those functions.
- `localeCompare` is the class constant `nameLe`, read as
  `a.localeCompare(b) <= 0`. The ordering lemmas assume that it is total.
  `OrderedAllPairs` also assumes that it is transitive for the name modes.
- `Math.random()` is a parameter `random` with `0 <= random < 1`. The index
  is `Floor(random * n)`, as in the source.
- A stored sort or repeat mode is cast without a check when it is restored.
  So the mode types carry an `UnknownSort`/`UnknownRepeat` constructor for
  any other text.
- Browser storage is a map from key to an unserialised value. Each
  persisting command writes its key once. Real storage holds only strings.
  A `Number` or `Ids` value under the sort or repeat key therefore cannot
  occur in the code. `StoredText` treats such a value as absent, so the
  restore keeps the current mode.
- `src/types/index.ts:2-9` declares `Song` without `dateAdded` and gives only
  two sort options. The provider uses four modes and a `dateAdded` field.
  The model follows the provider: four modes, and `dateAdded` is the file's
  integer `lastModified`.
- A rejected `play()` is only logged (src/contexts/MusicContext.tsx:282).
  `isPlaying` is not reset, and the model does the same: play state changes
  only through the commands and the element's `play`/`pause` events
  (`OnPlay`, `OnPause`).
- The collection keeps the order of the folder selection, as the code does.
- Song ids are `name-size`. Two files with the same name and size in
  different sub-folders get the same id. The model does not assume ids are
  unique. `LoadedIdsCollideOnlyOnSameNameAndSize` says exactly when ids
  collide. `playSong` then always picks the first song with the id.
  With distinct ids, `RepeatListCycle` shows that as many repeat-list
  `playNext` commands as the playlist has songs come back to the starting
  song. With a repeated id the round trip fails: `TwinIdsTrapRepeatList`
  takes the list `[a, x, b, x', c]`, where `x` and `x'` share an id, and
  shows that from `x` the commands alternate between `x` and `b` and never
  reach `c`. The code behaves the same way.

## Model

| member | source | states |
|---|---|---|
| `Engine.MusicEngine.constructor` | src/contexts/MusicContext.tsx:11-22 | initial state: no songs, no current song, paused, no favourites, volume 0.75, hue 260, name-asc, no shuffle, repeat none, visualisation on |
| `Engine.MusicEngine.RestoreModes` | src/contexts/MusicContext.tsx:83-90 | a stored non-empty repeat or sort text replaces the mode, unchecked; otherwise the mode is kept |
| `Engine.MusicEngine.SetVolume` | src/contexts/MusicContext.tsx:100-110 | the volume becomes the argument and is stored |
| `Engine.MusicEngine.SetHue` | src/contexts/MusicContext.tsx:112-119 | the hue becomes the argument and is stored |
| `Engine.MusicEngine.SetSort` | src/contexts/MusicContext.tsx:18 | the raw setter replaces the mode and stores nothing; it is given one of the modes a program state can hold |
| `Engine.MusicEngine.ToggleSort` | src/contexts/MusicContext.tsx:44-59 | the mode advances one step of the sort cycle and its text is stored |
| `Engine.MusicEngine.ToggleShuffle` | src/contexts/MusicContext.tsx:121-131 | shuffle is negated and stored as "true"/"false" |
| `Engine.MusicEngine.ToggleRepeat` | src/contexts/MusicContext.tsx:133-146 | the mode advances one step of the repeat cycle and its text is stored |
| `Engine.MusicEngine.ToggleSineWave` | src/contexts/MusicContext.tsx:148-158 | the visualisation flag is negated and stored |
| `Engine.MusicEngine.ToggleFavorite` | src/contexts/MusicContext.tsx:160-172 | the list becomes the toggled list, so the id's membership flips and every other id keeps its membership; the new list is stored |
| `Engine.MusicEngine.LoadSongs` | src/contexts/MusicContext.tsx:174-198 | a missing selection changes nothing; no audio entries raises the notice and changes nothing; otherwise the collection becomes the songs of the audio entries |
| `Engine.MusicEngine.PlaySong` | src/contexts/MusicContext.tsx:200-206 | new playback state is `playSong`'s outcome: an unknown id changes nothing, a known one becomes current and plays |
| `Engine.MusicEngine.TogglePlayPause` | src/contexts/MusicContext.tsx:208-211 | no-op without a current song, otherwise flips play state |
| `Engine.MusicEngine.PlayNext` | src/contexts/MusicContext.tsx:213-243 | new playback state is the outcome of `NextStep`, whose rules the Navigation lemmas state |
| `Engine.MusicEngine.PlayPrev` | src/contexts/MusicContext.tsx:245-255 | new playback state is the outcome of `PrevStep` |
| `Engine.MusicEngine.Seek` | src/contexts/MusicContext.tsx:257-262 | the position becomes the requested time at once |
| `Engine.MusicEngine.HandleSongEnd` | src/contexts/MusicContext.tsx:264-271 | repeat-song leaves the provider's state alone (only the element is rewound and restarted); otherwise `playNext` over the sorted view |
| `Engine.MusicEngine.OnTimeUpdate` | src/contexts/MusicContext.tsx:291 | the position mirrors the element's |
| `Engine.MusicEngine.OnLoadedMetadata` | src/contexts/MusicContext.tsx:292 | the duration mirrors the element's |
| `Engine.MusicEngine.OnPlay` | src/contexts/MusicContext.tsx:294 | the element's play event sets playing |
| `Engine.MusicEngine.OnPause` | src/contexts/MusicContext.tsx:295 | the element's pause event clears playing |
| `Engine.MusicEngine.HandlePlayPrev` | src/components/Player.tsx:37-45 | nothing without a current song; more than 3 s in restarts the track at 0 and keeps the song; otherwise `playPrev` on the shown playlist |
| `Engine.MusicEngine.HandlePlayNext` | src/components/Player.tsx:47-51 | nothing without a current song; otherwise `playNext` on the shown playlist |
| `Engine.MusicEngine.HandleTogglePlayPause` | src/components/Player.tsx:53-57 | toggles only when there is a current song |
| `Sorting.SortNameRoundTrip` | src/contexts/MusicContext.tsx:53 | a stored mode text reads back as the same mode, and the unchecked cast keeps any text |
| `Sorting.ToggleSortCycle` | src/contexts/MusicContext.tsx:44-51 | name-asc, name-desc, date-desc, date-asc are four distinct steps and four toggles are the identity; any other value goes to name-asc |
| `Sorting.ToggleSort` | src/contexts/MusicContext.tsx:44-51 | the toggle always changes the mode and always gives one of the four known modes |
| `Sorting.InOrder` | src/contexts/MusicContext.tsx:29-40 | date-desc puts the later date first, date-asc the earlier; name-desc reverses the name order; name-asc and any unknown mode use it |
| `Sorting.Insert` | src/contexts/MusicContext.tsx:28 | inserting adds exactly one element and keeps the rest |
| `Sorting.SortedSongs` | src/contexts/MusicContext.tsx:27-42 | the sorted view is a permutation of the collection |
| `Engine.MusicEngine.SortedSongs` | src/contexts/MusicContext.tsx:27-42 | the provider's view is a permutation of its songs, ordered under its mode when the name order is total |
| `Sorting.InOrderTotal` | src/contexts/MusicContext.tsx:29-39 | each mode's comparator ranks any two songs when the name order is total |
| `Sorting.SortedSongsOrdered` | src/contexts/MusicContext.tsx:27-42 | the sorted view is ordered under the mode's comparator |
| `Sorting.SortedSongsSpec` | src/contexts/MusicContext.tsx:27-42 | permutation; names ascending for name-asc, descending for name-desc; dates newest first for date-desc, oldest first for date-asc |
| `Sorting.SortingOrderedIsIdentity` | src/contexts/MusicContext.tsx:27-42 | a collection already in the mode's order is left unchanged by the sort (a consequence of its stability) |
| `Sorting.SortedSongsIdempotent` | src/contexts/MusicContext.tsx:27-42 | sorting the sorted view again gives the same view |
| `Sorting.OrderedAllPairs` | src/contexts/MusicContext.tsx:34-37 | for date modes (or a transitive name order) ordered neighbours make every pair ordered |
| `Sorting.UnknownSortIsNameAsc` | src/contexts/MusicContext.tsx:38-39 | a sort text other than the four known names sorts exactly as name-asc |
| `Navigation.ToggleRepeatCycle` | src/contexts/MusicContext.tsx:133-146 | none, list, song are three distinct steps and three toggles are the identity; other values go to none; a toggled mode reads back from storage unchanged |
| `Navigation.RepeatNameRoundTrip` | src/contexts/MusicContext.tsx:83-86 | the unchecked cast of a stored repeat text keeps the text, and a stored mode reads back as itself |
| `Navigation.ToggleRepeat` | src/contexts/MusicContext.tsx:133-138 | the toggle always changes the mode and always gives one of the three known modes |
| `Navigation.FindIndex` | src/contexts/MusicContext.tsx:230 | -1 exactly when no song has the id, otherwise the first position holding it |
| `Navigation.Find` | src/contexts/MusicContext.tsx:201 | finds a song exactly when one has the id, and it is the first song of the list with that id |
| `Navigation.Lookup` | src/contexts/MusicContext.tsx:201 | finds a song exactly when the collection or the sorted view has the id; the song has the id and comes from one of them; the collection is searched first |
| `Navigation.LookupIsFindInSongs` | src/contexts/MusicContext.tsx:201 | the fallback lookup in the sorted view never finds a song the collection lacks |
| `Navigation.PlaySongOutcome` | src/contexts/MusicContext.tsx:200-206 | an unknown id changes nothing; for a known id the song the lookup found (the first in the collection, else the first in the sorted view) becomes current and plays |
| `Navigation.Resolve` | src/contexts/MusicContext.tsx:200-206 | staying changes nothing, pausing keeps the song and stops playback, and the current song changes only to a song with the played id, which then plays |
| `Navigation.NextIndex` | src/contexts/MusicContext.tsx:234 | `(i + 1) % n` is the next position, 0 after the last |
| `Navigation.PrevIndex` | src/contexts/MusicContext.tsx:252 | `(i - 1 + n) % n` is the previous position, the last before the first |
| `Navigation.NextPrevInverse` | src/contexts/MusicContext.tsx:234-252 | next and previous positions undo each other |
| `Navigation.AdvanceCycle` | src/contexts/MusicContext.tsx:234 | k moves forward reach i + k inside the list, and n moves return to the start |
| `Navigation.RandomIndex` | src/contexts/MusicContext.tsx:225 | `Math.floor(Math.random() * n)` is a valid index |
| `Navigation.OtherSongs` | src/contexts/MusicContext.tsx:221 | the order-preserving sublist of the playlist holding every copy of each song whose id differs from the current one, and nothing else |
| `Navigation.ShuffleCandidates` | src/contexts/MusicContext.tsx:221-224 | candidates come from the playlist and are never empty for a non-empty playlist |
| `Navigation.NextStep` | src/contexts/MusicContext.tsx:213-243 | `playNext` does nothing exactly when there is no current song or the playlist is empty; it pauses only unshuffled, without repeat-list, from the last position |
| `Navigation.PrevStep` | src/contexts/MusicContext.tsx:245-255 | `playPrev` does nothing exactly when there is no current song or the playlist is empty, and it never pauses |
| `Navigation.NextStepInOrder` | src/contexts/MusicContext.tsx:230-240 | unshuffled next plays position i + 1; from the last position it wraps only with repeat-list and otherwise pauses on the current song (repeat-song included) |
| `Navigation.PrevStepInOrder` | src/contexts/MusicContext.tsx:248-254 | previous plays position i - 1 and always wraps from the first to the last |
| `Navigation.NotInPlaylistStartsOver` | src/contexts/MusicContext.tsx:230-250 | a current song missing from the playlist sends next (unshuffled) and previous to the first song |
| `Navigation.NothingToNavigate` | src/contexts/MusicContext.tsx:214-246 | with no current song or an empty playlist both commands do nothing |
| `Navigation.ShuffleAvoidsCurrent` | src/contexts/MusicContext.tsx:216-228 | shuffled next plays a playlist song; one song replays it; with another id available the choice is never the current id, for every random value |
| `Navigation.StepsStayWithinPlaylist` | src/contexts/MusicContext.tsx:213-255 | next and previous only ever play an id of the given playlist |
| `Navigation.UnknownRepeatNavigatesAsNone` | src/contexts/MusicContext.tsx:235 | a repeat text other than the three known names navigates as repeat-none |
| `Navigation.StepIntoCollectionPlays` | src/contexts/MusicContext.tsx:200-206 | a step to an id of a playlist drawn from the collection always finds its song and plays it |
| `Navigation.NavigationStaysInPlaylist` | src/contexts/MusicContext.tsx:213-255 | over a playlist from the collection, navigation keeps the current song or makes current a playing song whose id is in the playlist |
| `Navigation.RepeatListAdvances` | src/contexts/MusicContext.tsx:213-243 | with repeat-list, no shuffle and distinct ids, k commands from position i play the song k places on, wrapping at the end |
| `Navigation.RepeatListCycle` | src/contexts/MusicContext.tsx:213-243 | under the same hypotheses, each later song is played in turn and as many commands as the playlist has songs return to the starting song |
| `Navigation.TwinIdsTrapRepeatList` | src/contexts/MusicContext.tsx:190-201 | with two songs sharing an id in `[a, x, b, x', c]`, repeat-list from `x` alternates between `x` and `b` and never reaches `c` |
| `Favorites.RemoveId` | src/contexts/MusicContext.tsx:163 | removes every occurrence of the id; every other id keeps all its occurrences, in order |
| `Favorites.Toggle` | src/contexts/MusicContext.tsx:160-164 | a present id loses every occurrence (the rest stays an order-preserving sublist); an absent id is appended at the end; every other id keeps its count |
| `Favorites.ToggleFlipsOnlyId` | src/contexts/MusicContext.tsx:160-164 | the toggled id's membership flips; every other id keeps its membership |
| `Favorites.DoubleToggleRestoresSet` | src/contexts/MusicContext.tsx:160-164 | two toggles restore the set of favourites |
| `Favorites.DoubleToggleOfNewIdIsIdentity` | src/contexts/MusicContext.tsx:160-164 | for an id not yet a favourite, two toggles restore the very same list |
| `Favorites.RemoveIdShrinks` | src/contexts/MusicContext.tsx:162-163 | removal shortens the list exactly when the id was present |
| `Library.AudioFiles` | src/contexts/MusicContext.tsx:176 | the order-preserving sublist holding every copy of each entry whose type starts with "audio/", and nothing else |
| `Library.DecimalString` | src/contexts/MusicContext.tsx:190 | the size as a non-empty string of digits without a leading zero |
| `Library.DecimalRoundTrip` | src/contexts/MusicContext.tsx:190 | reading back the size text gives the size |
| `Library.SongIdInjective` | src/contexts/MusicContext.tsx:190 | an id determines the file name and size |
| `Library.LastIndexOf` | src/contexts/MusicContext.tsx:192 | the last position of a character, or -1 |
| `Library.StripExtension` | src/contexts/MusicContext.tsx:192 | removes the final `.ext` (one or more characters, none '.' or '/') and nothing else; unchanged exactly when there is none |
| `Library.NoDotKeepsName` | src/contexts/MusicContext.tsx:192 | a name without '.' is unchanged |
| `Library.SongId` | src/contexts/MusicContext.tsx:190 | the id is the file name, a '-', then digits that read back as the size |
| `Library.SongFromFile` | src/contexts/MusicContext.tsx:187-196 | the song keeps the file and takes its modification time as date and `name-size` as id; its name is the file name or the part before an extension |
| `Library.SongsFromFiles` | src/contexts/MusicContext.tsx:187-196 | one song per audio entry |
| `Library.SongsFromFilesSpec` | src/contexts/MusicContext.tsx:187-196 | the songs' files are exactly the audio entries in order; each id is `name-size`, each name has its extension stripped, each date is the last-modified time |
| `Library.LoadedIdsCollideOnlyOnSameNameAndSize` | src/contexts/MusicContext.tsx:190 | two loaded songs share an id exactly when their files share name and size |
| `Browse.LowerChar` | src/app/page.tsx:35 | the result is never an upper-case letter; an upper-case letter becomes the lower-case letter at the same alphabet position; any other character is kept |
| `Browse.ToLower` | src/app/page.tsx:35 | same length, no upper-case letter left, only upper-case letters change, and a string without upper-case letters is returned unchanged |
| `Browse.MatchesQuery` | src/app/page.tsx:35 | a song matches exactly when the lower-cased query occurs in its lower-cased name; the empty query matches every song |
| `Browse.ToLowerIdempotent` | src/app/page.tsx:35 | lower-casing twice is lower-casing once |
| `Browse.Contains` | src/app/page.tsx:35 | `includes` holds exactly when the needle occurs at some position |
| `Browse.FavoriteSongs` | src/app/page.tsx:24-26 | the order-preserving sublist of the sorted view holding every copy of each song whose id is a favourite, and nothing else |
| `Browse.BaseSongs` | src/app/page.tsx:28 | the favourites when they are shown, otherwise the whole sorted view, as an order-preserving sublist with every copy kept |
| `Browse.SongsToShow` | src/app/page.tsx:30-33 | with an empty query the base list itself |
| `Browse.SongsToShowSpec` | src/app/page.tsx:24-37 | the shown list is an order-preserving sublist of the base list (favourites or the whole sorted view) holding every copy of each base song that matches the query, and nothing else |
| `Browse.EmptyQueryKeepsAll` | src/app/page.tsx:31-36 | the empty-query shortcut agrees with filtering by the empty query |
| `Browse.SearchIgnoresQueryCase` | src/app/page.tsx:34-36 | queries differing only in letter case show the same songs |
| `Browse.ShownSongsAreLoaded` | src/app/page.tsx:109-112 | every song of the playlist handed to the control bar belongs to the collection |

## Left out

- The audio element's side effects are not modelled: setting its source,
  `play()`/`pause()`, and wiring the listeners
  (src/contexts/MusicContext.tsx:273-311). The events it reports are the
  `On...` methods. The element is assumed mounted, so `seek` and
  `handleSongEnd` never see a null element.
- Storage writes always succeed in the model. In the code each
  `localStorage.setItem` sits in a `try`/`catch`
  (src/contexts/MusicContext.tsx:52-56, 105-109, 114-118, 124-128, 139-143,
  151-155, 165-169). When a write fails, the state still changes but storage
  keeps its old value. The model does not capture that.
- With repeat-song, `handleSongEnd` rewinds and restarts only the element
  (src/contexts/MusicContext.tsx:266-267). The provider's `currentTime` and
  `isPlaying` follow through the element's `timeupdate` and `play` events.
  In the model these are `OnTimeUpdate(0.0)` and `OnPlay()`, which a caller
  applies after `HandleSongEnd`.
- The media session metadata and action handlers, and the document title,
  are OS and browser integration (src/contexts/MusicContext.tsx:313-360). The
  media keys call the same `togglePlayPause`, `playNext` and `playPrev` over
  the sorted view.
- Restoring favourites, volume, hue, shuffle and visualisation from storage
  is not modelled (src/contexts/MusicContext.tsx:61-82, 91-94). It needs
  `JSON.parse`, `parseFloat` and `parseInt`. The model also does not capture
  that one failing parse skips the keys read after it. Only the
  cast-only restore of repeat and sort is modelled.
- Values are stored unserialised. `JSON.stringify` of the favourites list
  and `toString` of volume and hue are not modelled. Booleans are stored as
  the texts "true"/"false", as `JSON.stringify` writes them.
- Object URLs (`createObjectURL`, `revokeObjectURL`) and the song's `url`
  field are left out. They are foreign calls, and only the audio element
  reads the URL.
- The notice for a folder with no audio files is only the flag
  `noAudioNotice`. Its text is not modelled.
- `localeCompare` is an abstract name order. `toLowerCase` lower-cases only
  A to Z; other Unicode case mappings are not modelled.
- Floating point is not modelled. Volume, hue, times and `random` are reals.
  The rounding of `Math.random() * n` is ignored.
- `${file.size}` is decimal text. Exponent notation for sizes of 10^21 and
  more is not modelled.
- React batches state updates and reads state through closures. The model
  applies each update at once.
- Sorting.SortedSongsSpec: the sort's stability (`Array.prototype.sort` keeps
  equal songs in collection order) is stated only through one consequence.
  `SortingOrderedIsIdentity` shows that an already ordered collection is left
  as it is. The general relative-order statement is not proved.
- Sorting.SortedSongsSpec: for the name modes it states ordered neighbours.
  With a transitive name order, `OrderedAllPairs` extends this to every pair.
- The `disabled` attributes of the three buttons (src/components/Player.tsx:64,
  68, 72) are presentation. The handlers' own current-song guards, which
  make a click without a song a no-op, are modelled.
- The page's scroll timeout, the view toggle and all rendering
  (src/app/page.tsx:39-125) are presentation. So are the visualisation,
  marquee, theme and the other components.
