/**
 * The song registry: one table from canonical file locations to the songs
 * open in the editor, so that the same file never opens in two editors.
 */
module SongRegistry {
  import opened Wrappers
  import opened Files

  /** The song stored under `key`, or `None` (null) when the key is absent or holds null. */
  function Lookup<S>(songs: map<Path, Option<S>>, key: Path): Option<S>
  {
    if key in songs then songs[key] else None
  }

  /**
   * The table after re-keying the entry at `from` to `to`: the entry at `from`
   * is dropped and `to` receives what `from` held, or null when `from` was absent.
   */
  function Moved<S>(songs: map<Path, Option<S>>, from: Path, to: Path): (r: map<Path, Option<S>>)
    ensures to in r && r[to] == Lookup(songs, from)
    ensures from != to ==> from !in r
    ensures forall k :: k != from && k != to ==> (k in r <==> k in songs)
    ensures forall k :: k != from && k != to && k in r ==> r[k] == songs[k]
  {
    var song := Lookup(songs, from);
    (songs - {from})[to := song]
  }

  /** Moving an entry to a free key and back restores the table. */
  lemma MoveBackRestores<S>(songs: map<Path, Option<S>>, from: Path, to: Path)
    requires from in songs && to !in songs
    ensures Moved(Moved(songs, from, to), to, from) == songs
  {
  }

  /** Moving an entry onto its own key keeps its song, and makes an absent key hold null. */
  lemma MoveOntoItself<S>(songs: map<Path, Option<S>>, key: Path)
    ensures key in songs ==> Moved(songs, key, key) == songs
    ensures key !in songs ==> Moved(songs, key, key) == songs[key := None]
  {
  }

  /** The scratch file `song<timeMs>` inside `tempDir`, before normalisation. */
  function ScratchFile(tempDir: Path, timeMs: nat): Path
  {
    Child(tempDir, "song" + Decimal(timeMs))
  }

  /** The scratch file is named `song` followed by the time's decimal digits. */
  lemma ScratchFileName(tempDir: Path, timeMs: nat)
    ensures FileName(ScratchFile(tempDir, timeMs)) == "song" + Decimal(timeMs)
  {
    ChildName(tempDir, "song" + Decimal(timeMs));
  }

  /** Songs added at different times get different scratch files. */
  lemma ScratchFilesDistinct(tempDir: Path, m: nat, n: nat)
    requires m != n
    ensures ScratchFile(tempDir, m) != ScratchFile(tempDir, n)
  {
    if ScratchFile(tempDir, m) == ScratchFile(tempDir, n) {
      ScratchFileName(tempDir, m);
      ScratchFileName(tempDir, n);
      assert Decimal(m) == ("song" + Decimal(m))[4..] == ("song" + Decimal(n))[4..] == Decimal(n);
      DecimalInjective(m, n);
    }
  }

  class SongManager<Song> {
    /** The open songs by canonical location; a value may be null (`None`). */
    var songs: map<Path, Option<Song>>
    /** Scratch directory for songs that have no file yet. */
    const tempDir: Path
    /**
     * The file system's canonical form of a path, or `None` when resolving it
     * fails with an I/O error.
     */
    const canonical: Path -> Option<Path>

    /** A manager starts with no songs. */
    constructor (tempDir: Path, canonical: Path -> Option<Path>)
      ensures songs == map[]
      ensures forall p :: !HasSong(p)
      ensures this.tempDir == tempDir && this.canonical == canonical
    {
      this.tempDir := tempDir;
      this.canonical := canonical;
      songs := map[];
    }

    /** The key a location is stored under: its canonical form, or the raw path when that fails. */
    function Normalize(rawFile: Path): Path
    {
      match canonical(rawFile)
      case Some(c) => c
      case None => rawFile
    }

    /**
     * Canonical paths resolve to themselves (or cannot be resolved again):
     * what a well-behaved file system guarantees.
     */
    ghost predicate StableCanonical() {
      forall p :: canonical(p).Some? ==> Normalize(canonical(p).value) == canonical(p).value
    }

    /** Under a stable canonical form, normalising twice is normalising once. */
    lemma NormalizeIdempotent(p: Path)
      requires StableCanonical()
      ensures Normalize(Normalize(p)) == Normalize(p)
    {
    }

    function HasSong(location: Path): bool
      reads this
    {
      Normalize(location) in songs
    }

    function GetSong(location: Path): Option<Song>
      reads this
    {
      Lookup(songs, Normalize(location))
    }

    /** Stores `song` under the location's key, replacing any song there. */
    method SetSong(location: Path, song: Option<Song>)
      modifies this
      ensures songs == old(songs)[Normalize(location) := song]
      ensures forall q :: Normalize(q) == Normalize(location) ==> HasSong(q) && GetSong(q) == song
      ensures forall k :: k != Normalize(location) ==> Lookup(songs, k) == Lookup(old(songs), k)
      ensures forall k :: k != Normalize(location) ==> (k in songs <==> k in old(songs))
    {
      var normalized := Normalize(location);
      songs := songs[normalized := song];
    }

    /** The scratch file for a song created at `timeMs` milliseconds. */
    function TempLocation(timeMs: nat): Path
    {
      Normalize(ScratchFile(tempDir, timeMs))
    }

    /**
     * Registers a song that has no file yet under a scratch location named
     * after the current time `timeMs`, and returns that location. Two songs
     * added in the same millisecond get the same key, and the second replaces
     * the first.
     */
    method AddSong(song: Option<Song>, timeMs: nat) returns (tempLocation: Path)
      modifies this
      ensures tempLocation == TempLocation(timeMs)
      ensures songs == old(songs)[tempLocation := song]
      ensures StableCanonical() ==> HasSong(tempLocation) && GetSong(tempLocation) == song
    {
      tempLocation := TempLocation(timeMs);
      songs := songs[tempLocation := song];
      if StableCanonical() {
        NormalizeIdempotent(ScratchFile(tempDir, timeMs));
      }
    }

    /**
     * Re-keys the song at `oldLocation` to `newLocation`. When nothing is
     * stored at `oldLocation`, `newLocation` ends up holding null.
     */
    method MoveSong(oldLocation: Path, newLocation: Path)
      modifies this
      ensures songs == Moved(old(songs), Normalize(oldLocation), Normalize(newLocation))
      ensures HasSong(newLocation) && GetSong(newLocation) == old(GetSong(oldLocation))
      ensures Normalize(oldLocation) != Normalize(newLocation) ==> !HasSong(oldLocation)
    {
      var normalizedOld := Normalize(oldLocation);
      var normalizedNew := Normalize(newLocation);
      var songToMove := Lookup(songs, normalizedOld);
      songs := songs - {normalizedOld};
      songs := songs[normalizedNew := songToMove];
    }

    /** Drops the entry at the location's key, if any. */
    method RemoveSong(location: Path)
      modifies this
      ensures songs == old(songs) - {Normalize(location)}
      ensures !HasSong(location)
      ensures !old(HasSong(location)) ==> songs == old(songs)
    {
      var normalized := Normalize(location);
      songs := songs - {normalized};
    }
  }
}
