/**
 * Loading a folder into the song collection (`loadSongs` in
 * src/contexts/MusicContext.tsx): the audio-type filter, and the id, name and
 * date each song derives from its file.
 */
module Library {
  import opened Seqs

  /** A file-like entry of the folder input: only the attributes the loader reads. */
  datatype FileEntry = FileEntry(name: string, size: nat, mimeType: string, lastModified: int)

  /** One playable track. The object URL the loader creates is not part of the model. */
  datatype Song = Song(id: string, file: FileEntry, name: string, dateAdded: int)

  /** `file.type.startsWith('audio/')`; on sequences `<=` is the prefix relation. */
  predicate IsAudio(f: FileEntry) {
    "audio/" <= f.mimeType
  }

  /** The entries of a folder selection that the loader keeps. */
  function AudioFiles(files: seq<FileEntry>): (r: seq<FileEntry>)
    ensures Sublist(r, files)
    ensures forall f :: f in r <==> f in files && IsAudio(f)
    ensures forall f :: multiset(r)[f] == if IsAudio(f) then multiset(files)[f] else 0
  {
    Filter(files, IsAudio)
  }

  // ---------------------------------------------------------------------
  // Decimal rendering of the file size, as the template literal `${size}` does

  predicate IsDigit(c: char) {
    '0' <= c <= '9'
  }

  predicate AllDigits(s: string) {
    forall i :: 0 <= i < |s| ==> IsDigit(s[i])
  }

  function DigitChar(d: nat): (c: char)
    requires d < 10
    ensures IsDigit(c)
  {
    ['0', '1', '2', '3', '4', '5', '6', '7', '8', '9'][d]
  }

  function DigitValue(c: char): (d: nat)
    requires IsDigit(c)
    ensures d < 10
  {
    (c as int - '0' as int) as nat
  }

  /** The decimal text of a non-negative integer, without leading zeros. */
  function DecimalString(n: nat): (r: string)
    ensures |r| >= 1 && AllDigits(r)
    ensures |r| > 1 ==> r[0] != '0'
  {
    if n < 10 then [DigitChar(n)]
    else DecimalString(n / 10) + [DigitChar(n % 10)]
  }

  /** The number a string of decimal digits denotes. */
  function DecimalValue(s: string): nat
    requires AllDigits(s)
  {
    if s == [] then 0
    else DecimalValue(s[..|s| - 1]) * 10 + DigitValue(s[|s| - 1])
  }

  /** Reading back the decimal text of a size gives the size. */
  lemma {:induction false} DecimalRoundTrip(n: nat)
    ensures DecimalValue(DecimalString(n)) == n
  {
    var s := DecimalString(n);
    if n < 10 {
      assert s[..|s| - 1] == [];
    } else {
      DecimalRoundTrip(n / 10);
      assert s[..|s| - 1] == DecimalString(n / 10);
    }
  }

  // ---------------------------------------------------------------------
  // Song id: `${file.name}-${file.size}`

  function SongId(name: string, size: nat): (r: string)
    ensures |r| > |name| + 1 && r[..|name|] == name && r[|name|] == '-'
    ensures AllDigits(r[|name| + 1..]) && DecimalValue(r[|name| + 1..]) == size
  {
    DecimalRoundTrip(size);
    var id := name + "-" + DecimalString(size);
    assert id[|name| + 1..] == DecimalString(size);
    id
  }

  /**
   * The id determines the file name and size: two files get the same id only
   * when they have the same name and the same size (the size text holds no
   * '-', so the last '-' of an id separates the two parts).
   */
  lemma SongIdInjective(n1: string, s1: nat, n2: string, s2: nat)
    requires SongId(n1, s1) == SongId(n2, s2)
    ensures n1 == n2 && s1 == s2
  {
    var d1, d2 := DecimalString(s1), DecimalString(s2);
    var id := SongId(n1, s1);
    assert id == n1 + "-" + d1 && id == n2 + "-" + d2;
    assert id[|n1|] == '-' && id[|n2|] == '-';
    assert |n1| == |n2|;
    assert n1 == id[..|n1|] == n2;
    assert d1 == id[|n1| + 1..] == d2;
    DecimalRoundTrip(s1);
    DecimalRoundTrip(s2);
  }

  // ---------------------------------------------------------------------
  // Display name: `file.name.replace(/\.[^/.]+$/, "")`

  /**
   * The regular expression matches at position `k`: a '.' followed by one or
   * more characters, none of them '.' or '/', up to the end of the name.
   */
  predicate ExtensionAt(name: string, k: int) {
    0 <= k < |name| - 1 && name[k] == '.' &&
    forall i :: k < i < |name| ==> name[i] != '.' && name[i] != '/'
  }

  /** The index of the last occurrence of `c` in `s`, or -1. */
  function LastIndexOf(s: string, c: char): (k: int)
    ensures -1 <= k < |s|
    ensures k >= 0 ==> s[k] == c
    ensures forall i :: k < i < |s| ==> s[i] != c
  {
    if s == [] then -1
    else if s[|s| - 1] == c then |s| - 1
    else LastIndexOf(s[..|s| - 1], c)
  }

  /** The name with a final `.ext` removed, when the name has one. */
  function StripExtension(name: string): (r: string)
    ensures r == name <==> forall k :: !ExtensionAt(name, k)
    ensures r != name ==> ExtensionAt(name, |r|) && r == name[..|r|]
  {
    var k := LastIndexOf(name, '.');
    if 0 <= k < |name| - 1 && forall i :: k < i < |name| ==> name[i] != '/' then
      assert ExtensionAt(name, k);
      name[..k]
    else
      assert forall j :: !ExtensionAt(name, j) by {
        forall j | 0 <= j < |name| - 1 && name[j] == '.' ensures !ExtensionAt(name, j) {
          if j < k {
            assert name[k] == '.';
          }
        }
      }
      name
  }

  /** A name without any '.' keeps its name. */
  lemma NoDotKeepsName(name: string)
    requires forall i :: 0 <= i < |name| ==> name[i] != '.'
    ensures StripExtension(name) == name
  {
  }

  // ---------------------------------------------------------------------
  // The songs of a folder

  /** The song the loader builds from one audio file. */
  function SongFromFile(f: FileEntry): (r: Song)
    ensures r.file == f && r.dateAdded == f.lastModified
    ensures r.id == SongId(f.name, f.size)
    ensures r.name == f.name || (ExtensionAt(f.name, |r.name|) && r.name == f.name[..|r.name|])
  {
    Song(SongId(f.name, f.size), f, StripExtension(f.name), f.lastModified)
  }

  /** The new collection for a folder selection: one song per audio entry, in order. */
  function SongsFromFiles(files: seq<FileEntry>): (r: seq<Song>)
    ensures |r| == |AudioFiles(files)|
  {
    var audio := AudioFiles(files);
    seq(|audio|, i requires 0 <= i < |audio| => SongFromFile(audio[i]))
  }

  /** The files behind a list of songs. */
  function FilesOf(songs: seq<Song>): seq<FileEntry> {
    seq(|songs|, i requires 0 <= i < |songs| => songs[i].file)
  }

  /**
   * A loaded collection holds exactly the audio entries of the selection, in
   * their order, and each song carries the id, display name and date that its
   * file determines.
   */
  lemma SongsFromFilesSpec(files: seq<FileEntry>)
    ensures var r := SongsFromFiles(files);
      && FilesOf(r) == AudioFiles(files)
      && (forall f :: f in FilesOf(r) <==> f in files && IsAudio(f))
      && forall i :: 0 <= i < |r| ==>
           && r[i].id == r[i].file.name + "-" + DecimalString(r[i].file.size)
           && r[i].name == StripExtension(r[i].file.name)
           && r[i].dateAdded == r[i].file.lastModified
  {
  }

  /** Two loaded songs share an id exactly when their files share name and size. */
  lemma LoadedIdsCollideOnlyOnSameNameAndSize(files: seq<FileEntry>, i: nat, j: nat)
    requires i < |SongsFromFiles(files)| && j < |SongsFromFiles(files)|
    ensures var r := SongsFromFiles(files);
      r[i].id == r[j].id <==> r[i].file.name == r[j].file.name && r[i].file.size == r[j].file.size
  {
    var r := SongsFromFiles(files);
    if r[i].id == r[j].id {
      SongIdInjective(r[i].file.name, r[i].file.size, r[j].file.name, r[j].file.size);
    }
  }
}
