/**
 * The voicebank editor's file handling: opening a UST file, saving it in its
 * remembered format or in a newly picked one, and enabling the save action.
 * Only the decisions and the state they change are modelled.
 */
module Voicebank {
  import opened Wrappers
  import opened Files
  import opened Strings
  import opened UstFormats
  import Unicode

  /** The title shown for a song without a file of its own. */
  const Untitled: string := "*Untitled"

  /** A project file handed to one of the writers. */
  datatype Write<S> = Write(location: Path, charset: Charset, schema: Schema, song: S)

  class VoicebankController<Song> {
    /** The song container: the open song, its file, and the format to save it in. */
    var song: Song
    var location: Option<Path>
    var saveFormat: string
    /** Number of actions the undo service holds. */
    var undoActions: nat
    /** Whether the editor's save action is enabled. */
    var saveEnabled: bool
    /** The files the writers have produced, oldest first. */
    var written: seq<Write<Song>>

    const ust12Reader: string -> Song
    const ust20Reader: string -> Song
    /** The platform's decoding of a file's bytes in a charset. */
    const decode: (seq<Unicode.byte>, Charset) -> string

    /**
     * Stores the injected collaborators: the song container's song, location and
     * save format, the undo service's history size, the state of the editor's
     * save action, the two readers and the platform decoder. Nothing is written yet.
     */
    constructor (song: Song, location: Option<Path>, saveFormat: string, undoActions: nat,
                 saveEnabled: bool, ust12Reader: string -> Song, ust20Reader: string -> Song,
                 decode: (seq<Unicode.byte>, Charset) -> string)
      ensures this.song == song && this.location == location && this.saveFormat == saveFormat
      ensures this.undoActions == undoActions && this.saveEnabled == saveEnabled && written == []
      ensures this.ust12Reader == ust12Reader && this.ust20Reader == ust20Reader
      ensures this.decode == decode
    {
      this.song := song;
      this.location := location;
      this.saveFormat := saveFormat;
      this.undoActions := undoActions;
      this.saveEnabled := saveEnabled;
      written := [];
      this.ust12Reader := ust12Reader;
      this.ust20Reader := ust20Reader;
      this.decode := decode;
    }

    /** The song has been opened from or saved to a file of its own. */
    predicate HasPermanentLocation()
      reads this
    {
      location.Some?
    }

    /** The song the reader for `schema` builds from `content`. */
    function ReadSong(schema: Schema, content: string): Song {
      match schema
      case Ust12 => ust12Reader(content)
      case Ust20 => ust20Reader(content)
    }

    /**
     * Opens the file picked in the dialog (`None`: cancelled) whose bytes are
     * `bytes` (`None`: reading failed). A file without a version marker
     * changes nothing.
     */
    method OpenFile(file: Option<Path>, bytes: Option<seq<Unicode.byte>>) returns (title: string)
      modifies this
      ensures file.None? || bytes.None? ==> title == Untitled && unchanged(this)
      ensures file.Some? && bytes.Some? ==>
        var charset := DetectCharset(bytes.value);
        var content := decode(bytes.value, charset);
        match ChooseReader(content, charset)
        case None => title == Untitled && unchanged(this)
        case Some(loaded) =>
          && title == FileName(file.value)
          && song == ReadSong(loaded.schema, content)
          && location == file
          && saveFormat == loaded.saveFormat
          && undoActions == 0
          && !saveEnabled
          && written == old(written)
    {
      if file.None? || bytes.None? {
        return Untitled;
      }
      var charset := Utf8;
      if !Unicode.IsStrictUtf8(bytes.value) {
        charset := ShiftJis;
      }
      var content := decode(bytes.value, charset);
      var format: string;
      if Contains(content, Version12Marker) {
        song := ust12Reader(content);
        format := Ust12ShiftJis;
      } else if Contains(content, Version20Marker) {
        song := ust20Reader(content);
        format := if charset == Utf8 then Ust20Utf8 else Ust20ShiftJis;
      } else {
        return Untitled;
      }
      undoActions := 0;
      saveEnabled := false;
      location := file;
      saveFormat := format;
      title := FileName(file.value);
    }

    /**
     * Saves the song to its own file in its remembered format; `streamOk` says
     * whether the output file could be opened. Without a file of its own
     * nothing is written.
     */
    method SaveFile(streamOk: bool) returns (title: string)
      modifies this`saveEnabled, this`written
      ensures !saveEnabled
      ensures location.None? ==> title == Untitled && written == old(written)
      ensures location.Some? ==> title == FileName(location.value)
      ensures location.Some? && streamOk ==>
        written == old(written) + [Write(location.value, SaveCharset(saveFormat), SaveSchema(saveFormat), song)]
      ensures !streamOk ==> written == old(written)
    {
      saveEnabled := false;
      if location.Some? {
        var charset := Utf8;
        if Contains(saveFormat, "Shift JIS") {
          charset := ShiftJis;
        }
        var saveLocation := location.value;
        if streamOk {
          var schema := if Contains(saveFormat, "UST 1.2") then Ust12 else Ust20;
          written := written + [Write(saveLocation, charset, schema, song)];
        }
        return FileName(saveLocation);
      }
      return Untitled;
    }

    /**
     * Saves the song to the file picked in the dialog (`None`: cancelled) in the
     * format whose description was picked. The new file and format are
     * remembered even when the output file could not be opened.
     */
    method SaveFileAs(file: Option<Path>, description: string, streamOk: bool) returns (title: string)
      modifies this`saveEnabled, this`written, this`location, this`saveFormat
      ensures !saveEnabled
      ensures file.None? ==>
        title == Untitled && written == old(written)
        && location == old(location) && saveFormat == old(saveFormat)
      ensures file.Some? ==>
        title == FileName(file.value) && location == file && saveFormat == description
      ensures file.Some? && streamOk ==>
        written == old(written) + [Write(file.value, SaveCharset(description), SaveSchema(description), song)]
      ensures !streamOk ==> written == old(written)
    {
      saveEnabled := false;
      if file.Some? {
        var charset := Utf8;
        if Contains(description, "Shift JIS") {
          charset := ShiftJis;
        }
        if streamOk {
          var schema := if Contains(description, "UST 1.2") then Ust12 else Ust20;
          written := written + [Write(file.value, charset, schema, song)];
        }
        location := file;
        saveFormat := description;
        return FileName(file.value);
      }
      return Untitled;
    }

    /** Called on every edit of the song: saving is possible iff the song has a file of its own. */
    method OnSongChange()
      modifies this`saveEnabled
      ensures saveEnabled == HasPermanentLocation()
    {
      if HasPermanentLocation() {
        saveEnabled := true;
      } else {
        saveEnabled := false;
      }
    }
  }
}
