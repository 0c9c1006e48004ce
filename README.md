# Utsu core: song registry, linear portamento, UST format selection

This project models, in Dafny, three pieces of the Utsu singing-synthesis
editor and proves properties of them.

- **Song registry** (`SongManager`, module `SongRegistry`, file
  `song_manager.dfy`). This is the table from canonical file locations to
  the songs open in the editor. It is a class whose `songs` field is a
  `map<Path, Option<Song>>`, and `None` stands for a stored `null`. The
  methods `SetSong`, `AddSong`, `MoveSong` and `RemoveSong` change that map
  in place. `HasSong` and `GetSong` are functions that read it. Keys go
  through `Normalize`, which uses the file system's canonical form
  (`canonical`, a constructor parameter) and falls back to the raw path when
  resolving fails. `MoveSong` is specified by the function `Moved`, and
  lemmas about `Moved` cover moving an entry back and moving it onto itself.
- **Linear portamento** (`LinearPortamento`, module `Portamento`, file
  `linear_portamento.dfy`). This is a straight pitch segment from (x1, y1) to
  (x2, y2). It is a datatype over exact reals whose `slope` is fixed when the
  segment is built, with the functions `Apply`, `StartPitch` and `EndPitch`.
  Lemmas prove these properties: the segment yields 0.0 outside [x1, x2];
  inside, it agrees with two-point linear interpolation; it hits y1 and y2 at
  its end points; it stays between the two pitches; it is monotone; a
  reversed span never covers anything; and the segment (0, 60) to
  (1000, 72) gives 66 at 500.
- **UST format selection** in `VoicebankController`:
  - Module `UstFormats` (file `ust_formats.dfy`) holds the pure decisions:
    the charset probe, the reader chosen by version marker with the save
    format to remember, and the charset and writer a save format selects.
  - Module `Voicebank` (file `voicebank_controller.dfy`) holds the
    controller state: the song, its location, its save format, the undo
    history size, whether saving is enabled, and the log of writes.
    `OpenFile`, `SaveFile`, `SaveFileAs` and `OnSongChange` change that
    state.
  - The charset probe is strict UTF-8 well-formedness as section 4 of
    RFC 3629 defines it (module `Unicode`, file `unicode.dfy`).
  - `String.contains` is modelled in module `Strings` (file `strings.dfy`).
  - The central property is `RecordedFormatRoundTrip`. The save format
    remembered at open time makes a later save pick the same schema version
    as the reader. For version 2.0 it also picks the charset detected at open.
    Version 1.2 is always saved as Shift JIS.

Shared helpers: `Option` (module `Wrappers`); paths as text with `File.getName`,
`new File(parent, child)` and `Long.toString` (module `Files`, file `files.dfy`).

The model keeps the code's lenient behaviour in these cases, where a stricter design would report an error:
- An out-of-span `apply` returns 0.0 rather than reporting an error.
- `moveSong` from an absent key stores null under the new key rather than
  failing.
- A file with no version marker makes `openFile` return `"*Untitled"` and
  change nothing, rather than raising a format error.
- Two songs added in the same millisecond share one scratch key, so the
  second replaces the first.

## Model

| member | source | states |
|---|---|---|
| SongRegistry.SongManager.constructor | src/main/java/com/utsusynth/utsu/model/song/SongManager.java:22-32 | a new manager holds no songs: `HasSong` is false for every path |
| SongRegistry.SongManager.Normalize | src/main/java/com/utsusynth/utsu/model/song/SongManager.java:69-78 | the storage key of a path: its canonical form, or the raw path when resolving it fails (a function, no contract of its own; its properties are the lemma below and the lookup clauses of the methods) |
| SongRegistry.SongManager.NormalizeIdempotent | src/main/java/com/utsusynth/utsu/model/song/SongManager.java:69-78 | normalising a normalised key changes nothing, under `StableCanonical`, an assumption about the file system (canonical paths resolve to themselves) rather than a property derived from `normalize`; the lemma only extends it to paths that fail to resolve |
| SongRegistry.SongManager.HasSong | src/main/java/com/utsusynth/utsu/model/song/SongManager.java:34-37 | whether the location's normalised key is in the table (a query; the method rows state what it answers after each change) |
| SongRegistry.SongManager.GetSong | src/main/java/com/utsusynth/utsu/model/song/SongManager.java:39-42 | the song at the location's normalised key, null when the key is absent or holds null (a query; the method rows state what it answers after each change) |
| SongRegistry.SongManager.TempLocation | src/main/java/com/utsusynth/utsu/model/song/SongManager.java:50 | the normalised scratch file for a time (a function; `ScratchFileName` and `ScratchFilesDistinct` state its properties before normalisation) |
| SongRegistry.SongManager.SetSong | src/main/java/com/utsusynth/utsu/model/song/SongManager.java:44-47 | the entry at the location's key becomes the song; every path with the same key then has it; every other key keeps its presence and value |
| SongRegistry.SongManager.AddSong | src/main/java/com/utsusynth/utsu/model/song/SongManager.java:49-53 | returns the normalised scratch path named after the time; the table is the old one with that key set to the song, overwriting any entry from the same millisecond; the song can be looked up under the returned key |
| SongRegistry.Moved | src/main/java/com/utsusynth/utsu/model/song/SongManager.java:55-62 | re-keying puts the old key's song (null if absent) under the new key, drops the old key when the keys differ, and leaves every other key as it was |
| SongRegistry.SongManager.MoveSong | src/main/java/com/utsusynth/utsu/model/song/SongManager.java:55-62 | the table becomes `Moved` of the old table at the two normalised keys; the new location then holds what the old one held; the old location is gone when the keys differ |
| SongRegistry.MoveOntoItself | src/main/java/com/utsusynth/utsu/model/song/SongManager.java:59-61 | moving a key onto itself keeps its song, and makes an absent key present with null |
| SongRegistry.MoveBackRestores | src/main/java/com/utsusynth/utsu/model/song/SongManager.java:55-62 | moving a present entry to a free key and back restores the table exactly |
| SongRegistry.SongManager.RemoveSong | src/main/java/com/utsusynth/utsu/model/song/SongManager.java:64-67 | only the location's key is dropped; afterwards `HasSong` is false; removing an absent key leaves the table unchanged |
| Files.ChildName | src/main/java/com/utsusynth/utsu/model/song/SongManager.java:50 | `new File(parent, name)` has `name` as its file name when `name` holds no separator |
| Files.Decimal | src/main/java/com/utsusynth/utsu/model/song/SongManager.java:50 | the timestamp in the scratch name is a non-empty run of decimal digits |
| Files.DecimalRoundTrip | src/main/java/com/utsusynth/utsu/model/song/SongManager.java:50 | parsing the digits `Long.toString` writes for a time gives that time back |
| Files.DecimalInjective | src/main/java/com/utsusynth/utsu/model/song/SongManager.java:50 | different times have different decimal forms |
| SongRegistry.ScratchFileName | src/main/java/com/utsusynth/utsu/model/song/SongManager.java:50 | the raw scratch file for a time is named `song` followed by the time's decimal digits |
| SongRegistry.ScratchFilesDistinct | src/main/java/com/utsusynth/utsu/model/song/SongManager.java:49-53 | songs added at different milliseconds get different raw scratch files; only the same millisecond (or a canonical form that merges them) makes two adds share a key |
| Portamento.NewLinearPortamento | src/main/java/com/utsusynth/utsu/model/pitch/portamento/LinearPortamento.java:10-17 | a segment built from distinct end positions spans exactly x1 to x2, keeps its slope invariant and reports y1 and y2 as its start and end pitches |
| Portamento.LinearPortamento.Apply | src/main/java/com/utsusynth/utsu/model/pitch/portamento/LinearPortamento.java:19-28 | the pitch at a position: 0.0 outside [x1, x2], the point on the line inside it (a function; the `Apply*` lemmas below state its properties) |
| Portamento.LinearPortamento.StartPitch | src/main/java/com/utsusynth/utsu/model/pitch/portamento/LinearPortamento.java:30-33 | the start pitch y1 (a function; `ApplyAtEndPoints` ties it to `Apply` at x1) |
| Portamento.LinearPortamento.EndPitch | src/main/java/com/utsusynth/utsu/model/pitch/portamento/LinearPortamento.java:35-38 | the end pitch y2 (a function; `ApplyAtEndPoints` ties it to `Apply` at x2) |
| Portamento.ApplyOutsideSpan | src/main/java/com/utsusynth/utsu/model/pitch/portamento/LinearPortamento.java:19-25 | a position before x1 or after x2 yields 0.0 |
| Portamento.ApplyInterpolates | src/main/java/com/utsusynth/utsu/model/pitch/portamento/LinearPortamento.java:16-28 | inside [x1, x2] the pitch equals the two-point line `y1 + (y2 - y1) * (t - x1) / (x2 - x1)` |
| Portamento.ApplyAtEndPoints | src/main/java/com/utsusynth/utsu/model/pitch/portamento/LinearPortamento.java:16-38 | with whole-millisecond ends x1 < x2, the pitch at x1 is the start pitch and at x2 the end pitch |
| Portamento.ApplyWithinPitchRange | src/main/java/com/utsusynth/utsu/model/pitch/portamento/LinearPortamento.java:16-28 | inside the span the pitch lies between min(y1, y2) and max(y1, y2) |
| Portamento.ApplyMonotone | src/main/java/com/utsusynth/utsu/model/pitch/portamento/LinearPortamento.java:16-28 | inside the span the pitch rises with the position when y1 <= y2, and falls when y2 <= y1 |
| Portamento.ReversedSpanIsSilent | src/main/java/com/utsusynth/utsu/model/pitch/portamento/LinearPortamento.java:20-24 | when x2 < x1 no position is covered and every position yields 0.0 |
| Portamento.ExampleSegment | src/main/java/com/utsusynth/utsu/model/pitch/portamento/LinearPortamento.java:10-28 | (0, 60) to (1000, 72) gives 66 at 500, 60 at 0, 72 at 1000 and 0.0 at 1500 |
| Unicode.IsStrictUtf8 | src/main/java/com/utsusynth/utsu/controller/VoicebankController.java:211-218 | the strict UTF-8 decode succeeds: the bytes are a sequence of well-formed characters per section 4 of RFC 3629 (a predicate; the lemmas below state its properties) |
| Unicode.AsciiIsStrictUtf8 | src/main/java/com/utsusynth/utsu/controller/VoicebankController.java:211-218 | every 7-bit byte sequence passes the strict UTF-8 probe |
| Unicode.ConcatIsStrictUtf8 | src/main/java/com/utsusynth/utsu/controller/VoicebankController.java:211-218 | two sequences that pass the probe still pass it when concatenated |
| Unicode.ForbiddenByteIsNotStrictUtf8 | src/main/java/com/utsusynth/utsu/controller/VoicebankController.java:211-218 | a byte 0xC0, 0xC1 or 0xF5 to 0xFF anywhere makes the probe fail |
| Strings.Contains | src/main/java/com/utsusynth/utsu/controller/VoicebankController.java:220 | `String.contains`: the needle occurs at some index of the string (a predicate; `ContainedCharacters` and the `*Selects` lemmas use it) |
| Strings.ContainedCharacters | src/main/java/com/utsusynth/utsu/controller/VoicebankController.java:220 | every character of a contained string occurs in the containing string |
| UstFormats.DetectCharset | src/main/java/com/utsusynth/utsu/controller/VoicebankController.java:210-218 | UTF-8 when the strict probe accepts the bytes, Shift JIS otherwise (a function; `AsciiOpensAsUtf8` and `ForbiddenByteOpensAsShiftJis` state its properties) |
| UstFormats.ChooseReader | src/main/java/com/utsusynth/utsu/controller/VoicebankController.java:220-229 | the reader and the save format to remember, chosen by version marker, or none (a function; `ChooseReaderCases` and `RecordedFormatRoundTrip` state its properties) |
| UstFormats.SaveCharset | src/main/java/com/utsusynth/utsu/controller/VoicebankController.java:250-253 | Shift JIS when the save format mentions "Shift JIS", UTF-8 otherwise (a function; the `*Selects` lemmas state its value on the three formats) |
| UstFormats.SaveSchema | src/main/java/com/utsusynth/utsu/controller/VoicebankController.java:256-260 | the 1.2 writer when the save format mentions "UST 1.2", the 2.0 writer otherwise (a function; the `*Selects` lemmas state its value on the three formats) |
| UstFormats.AsciiOpensAsUtf8 | src/main/java/com/utsusynth/utsu/controller/VoicebankController.java:210-218 | a plain-ASCII file is detected as UTF-8 |
| UstFormats.ForbiddenByteOpensAsShiftJis | src/main/java/com/utsusynth/utsu/controller/VoicebankController.java:210-218 | a file containing a byte that UTF-8 never uses is detected as Shift JIS |
| UstFormats.ChooseReaderCases | src/main/java/com/utsusynth/utsu/controller/VoicebankController.java:220-229 | a reader is chosen iff a version marker occurs; the 1.2 marker wins and gives the 1.2 reader with "UST 1.2 (Shift JIS)" whatever the charset; otherwise the 2.0 marker gives the 2.0 reader with "UST 2.0 (UTF-8)" when the probe detected UTF-8 and "UST 2.0 (Shift JIS)" otherwise |
| UstFormats.Ust12ShiftJisSelects | src/main/java/com/utsusynth/utsu/controller/VoicebankController.java:250-259 | the format "UST 1.2 (Shift JIS)" selects the 1.2 writer and Shift JIS |
| UstFormats.Ust20Utf8Selects | src/main/java/com/utsusynth/utsu/controller/VoicebankController.java:250-259 | the format "UST 2.0 (UTF-8)" selects the 2.0 writer and UTF-8 |
| UstFormats.Ust20ShiftJisSelects | src/main/java/com/utsusynth/utsu/controller/VoicebankController.java:250-259 | the format "UST 2.0 (Shift JIS)" selects the 2.0 writer and Shift JIS |
| UstFormats.RecordedFormatRoundTrip | src/main/java/com/utsusynth/utsu/controller/VoicebankController.java:220-259 | the format remembered at open selects on save the schema that was read and, for 2.0, the charset detected at open (1.2 always Shift JIS); it is one of the three save-as filter descriptions |
| Voicebank.VoicebankController.constructor | src/main/java/com/utsusynth/utsu/controller/VoicebankController.java:86-106 | the controller stores the injected song container state, undo service state, save-action state, readers and decoder as given, and has written nothing |
| Voicebank.VoicebankController.OpenFile | src/main/java/com/utsusynth/utsu/controller/VoicebankController.java:199-243 | a cancelled dialog, a failed read or a file without a version marker returns "*Untitled" and changes nothing; otherwise the song comes from the chosen reader on the content decoded in the probed charset, undo is cleared, saving disabled, and location and save format are set; the file name is returned |
| Voicebank.VoicebankController.SaveFile | src/main/java/com/utsusynth/utsu/controller/VoicebankController.java:245-269 | saving is disabled; without a file of its own nothing is written and "*Untitled" is returned; otherwise, when the stream opens, the song is written to its location with the charset and writer its save format selects, and the file name is returned either way |
| Voicebank.VoicebankController.SaveFileAs | src/main/java/com/utsusynth/utsu/controller/VoicebankController.java:271-312 | saving is disabled; a cancelled dialog changes nothing else; otherwise the song is written with the charset and writer the picked description selects when the stream opens, and location and save format are set to the picked file and description even when it does not |
| Voicebank.VoicebankController.OnSongChange | src/main/java/com/utsusynth/utsu/controller/VoicebankController.java:314-321 | saving is enabled iff the song has a file of its own |

## Left out

- SongRegistry.SongManager.AddSong: that the song can be looked up under the returned key is promised only when canonical paths resolve to themselves (`StableCanonical`), since the key is normalised once more on lookup.
- Creating the scratch directory and deleting it at shutdown (SongManager.java:23-30) are process effects. The scratch directory is a constructor parameter.
- `File.getCanonicalFile` is file-system behaviour. It is the constructor parameter `canonical`, whose `None` result stands for the I/O error that makes `normalize` fall back to the raw path. Error logging is not modelled.
- The clock (`new Date().getTime()`) is the parameter `timeMs` of `AddSong`.
- Paths are their text, and two paths are the same key iff their text is equal. `FileName` assumes paths without a trailing separator.
- `LinearPortamento` works over exact reals, so IEEE-754 rounding is not modelled. Segments with x1 == x2 (a NaN or infinite slope) cannot be built, because `NewLinearPortamento` requires x1 != x2. The console message for an out-of-span position is not modelled. The `Portamento` base class is not part of this model.
- JavaFX work in `VoicebankController` is user interface and is not modelled: `initialize`, scroll tracking, `localize`, `refreshView`, `openProperties`, the file dialogs and the platform-dependent order of the save-as filters. The dialogs' answers are method parameters.
- The note callbacks (VoicebankController.java:113-130) delegate to `Song`, which is not part of this model.
- File I/O is represented by parameters and fields:
  - The bytes read at open are a parameter, and `None` stands for an `IOException`.
  - Decoding the bytes in a charset (`readFileToString`) is the field `decode`.
  - Whether the output `PrintStream` opens is the parameter `streamOk`. A failed open is logged and otherwise ignored, as in the source.
- `Ust12Reader`, `Ust20Reader`, `Ust12Writer`, `Ust20Writer`, `Song`, `SongContainer`, `UndoService` and `EditorCallback` are not part of this model:
  - The readers are opaque functions from content to song.
  - A write is recorded as the location, charset, schema and song handed to a writer.
  - The song container's location is `Option<Path>`, and having a permanent location means it is `Some`.
  - The undo history is its size, which opening a file clears.
  - The save button's state is a boolean field.
- A call to `enableSave` before `openEditor` has set the callback (a null callback) is not modelled.
