/**
 * The UST project formats: the version markers a project file carries, the
 * save formats the editor remembers, and the choices of charset, reader and
 * writer made from them.
 */
module UstFormats {
  import opened Wrappers
  import opened Strings
  import Unicode

  datatype Charset = Utf8 | ShiftJis {
    /** The name the charset goes by on the Java platform. */
    function Name(): string {
      match this
      case Utf8 => "UTF-8"
      case ShiftJis => "SJIS"
    }
  }

  /** The two on-disk schema versions, each with its own reader and writer. */
  datatype Schema = Ust12 | Ust20

  const Version12Marker: string := "UST Version1.2"
  const Version20Marker: string := "UST Version2.0"
  /** The save formats; the save-as dialog offers exactly these three. */
  const Ust12ShiftJis: string := "UST 1.2 (Shift JIS)"
  const Ust20Utf8: string := "UST 2.0 (UTF-8)"
  const Ust20ShiftJis: string := "UST 2.0 (Shift JIS)"

  /** The strict decode probe: UTF-8 if the bytes are well-formed UTF-8, Shift JIS otherwise. */
  function DetectCharset(bytes: seq<Unicode.byte>): Charset {
    if Unicode.IsStrictUtf8(bytes) then Utf8 else ShiftJis
  }

  /** What opening a file decided: the reader's schema and the format to save it in later. */
  datatype Loaded = Loaded(schema: Schema, saveFormat: string)

  /**
   * The reader for decoded content by its version marker (the 1.2 marker is
   * checked first), or `None` when neither marker occurs.
   */
  function ChooseReader(content: string, charset: Charset): Option<Loaded> {
    if Contains(content, Version12Marker) then
      Some(Loaded(Ust12, Ust12ShiftJis))
    else if Contains(content, Version20Marker) then
      Some(Loaded(Ust20, if charset == Utf8 then Ust20Utf8 else Ust20ShiftJis))
    else
      None
  }

  /** The charset a save format writes in. */
  function SaveCharset(saveFormat: string): Charset {
    if Contains(saveFormat, "Shift JIS") then ShiftJis else Utf8
  }

  /** The writer a save format selects. */
  function SaveSchema(saveFormat: string): Schema {
    if Contains(saveFormat, "UST 1.2") then Ust12 else Ust20
  }

  /** "UST 1.2 (Shift JIS)" selects the 1.2 writer and Shift JIS. */
  lemma Ust12ShiftJisSelects()
    ensures SaveSchema(Ust12ShiftJis) == Ust12 && SaveCharset(Ust12ShiftJis) == ShiftJis
  {
    assert OccursAt(Ust12ShiftJis, "UST 1.2", 0);
    assert OccursAt(Ust12ShiftJis, "Shift JIS", 9);
  }

  /** "UST 2.0 (UTF-8)" selects the 2.0 writer and UTF-8. */
  lemma Ust20Utf8Selects()
    ensures SaveSchema(Ust20Utf8) == Ust20 && SaveCharset(Ust20Utf8) == Utf8
  {
    assert !Contains(Ust20Utf8, "UST 1.2") by {
      if Contains(Ust20Utf8, "UST 1.2") {
        ContainedCharacters(Ust20Utf8, "UST 1.2", 4);
      }
    }
    assert !Contains(Ust20Utf8, "Shift JIS") by {
      if Contains(Ust20Utf8, "Shift JIS") {
        ContainedCharacters(Ust20Utf8, "Shift JIS", 6);
      }
    }
  }

  /** "UST 2.0 (Shift JIS)" selects the 2.0 writer and Shift JIS. */
  lemma Ust20ShiftJisSelects()
    ensures SaveSchema(Ust20ShiftJis) == Ust20 && SaveCharset(Ust20ShiftJis) == ShiftJis
  {
    assert !Contains(Ust20ShiftJis, "UST 1.2") by {
      if Contains(Ust20ShiftJis, "UST 1.2") {
        ContainedCharacters(Ust20ShiftJis, "UST 1.2", 4);
      }
    }
    assert OccursAt(Ust20ShiftJis, "Shift JIS", 9);
  }

  /**
   * Content with a version marker gets a reader; the 1.2 marker wins over the
   * 2.0 marker, and a 1.2 file is always remembered as Shift JIS, while a 2.0
   * file is remembered in the charset the probe detected.
   */
  lemma ChooseReaderCases(content: string, charset: Charset)
    ensures ChooseReader(content, charset).Some?
      <==> Contains(content, Version12Marker) || Contains(content, Version20Marker)
    ensures Contains(content, Version12Marker)
      ==> ChooseReader(content, charset) == Some(Loaded(Ust12, Ust12ShiftJis))
    ensures !Contains(content, Version12Marker) && Contains(content, Version20Marker)
      ==> ChooseReader(content, charset)
          == Some(Loaded(Ust20, if charset == Utf8 then Ust20Utf8 else Ust20ShiftJis))
  {
  }

  /**
   * The save format remembered at open time makes a later save pick the same
   * schema version, and for version 2.0 also the charset detected at open;
   * a version 1.2 project is always saved as Shift JIS.
   */
  lemma RecordedFormatRoundTrip(content: string, charset: Charset)
    requires ChooseReader(content, charset).Some?
    ensures var loaded := ChooseReader(content, charset).value;
      && SaveSchema(loaded.saveFormat) == loaded.schema
      && SaveCharset(loaded.saveFormat) == (if loaded.schema == Ust12 then ShiftJis else charset)
      && loaded.saveFormat in {Ust12ShiftJis, Ust20Utf8, Ust20ShiftJis}
  {
    var loaded := ChooseReader(content, charset).value;
    if loaded.schema == Ust12 {
      Ust12ShiftJisSelects();
    } else if charset == Utf8 {
      Ust20Utf8Selects();
    } else {
      Ust20ShiftJisSelects();
    }
  }

  /** A plain-ASCII file passes the probe, so it is opened as UTF-8. */
  lemma AsciiOpensAsUtf8(bytes: seq<Unicode.byte>)
    requires forall i :: 0 <= i < |bytes| ==> bytes[i] < 0x80
    ensures DetectCharset(bytes) == Utf8
  {
    Unicode.AsciiIsStrictUtf8(bytes);
  }

  /** A file with a byte UTF-8 never uses is opened as Shift JIS. */
  lemma ForbiddenByteOpensAsShiftJis(bytes: seq<Unicode.byte>, k: nat)
    requires k < |bytes| && (bytes[k] == 0xC0 || bytes[k] == 0xC1 || bytes[k] >= 0xF5)
    ensures DetectCharset(bytes) == ShiftJis
  {
    Unicode.ForbiddenByteIsNotStrictUtf8(bytes, k);
  }
}
