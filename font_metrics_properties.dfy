/**
 * What openFont's parser and cache gate guarantee, stated over the value-level
 * specification in FontMetrics.
 */
module FontMetricsProperties {
  import opened Common
  import opened PhpStrings
  import opened FontMetrics

  // ---------------------------------------------------------------- line dispatch

  /**
   * The keyword of a line is the trimmed line's text before its first space;
   * a line without a space has none.
   */
  lemma LineKeyIsFirstWord(line: string)
    ensures LineKey(line).None? <==> ' ' !in Trim(line)
    ensures LineKey(line).Some? ==>
      var k := LineKey(line).value;
      && k != [] && ' ' !in k
      && |k| < |Trim(line)| && Trim(line)[..|k|] == k && Trim(line)[|k|] == ' '
  {
    var row := Trim(line);
    if ' ' in row {
      var pos := StrPos(row, ' ').value;
      assert pos != 0;
    }
  }

  /** A keyword as it can appear at the head of a line: non-empty, no leading trim character, no space. */
  predicate PlainWord(k: string) {
    k != [] && !IsTrimChar(k[0]) && ' ' !in k
  }

  /** Trimming a keyword line keeps the keyword and the space and right-trims the value. */
  lemma TrimKeywordLine(k: string, v: string)
    requires PlainWord(k) && Trim(v) != []
    ensures Trim(k + " " + v) == k + " " + TrimRight(v)
  {
    var x := k + " ";
    assert k + " " + v == x + v;
    TrimLeftNoop(x + v);
    TrimRightKeeps(v);
    TrimRightAppend(x, v);
  }

  /** The first space of a keyword line is the one after the keyword. */
  lemma FirstSpaceAfterKeyword(k: string, w: string)
    requires PlainWord(k)
    ensures StrPos(k + " " + w, ' ') == Some(|k|)
  {
    var row := k + " " + w;
    assert row[|k|] == ' ';
  }

  /** A keyword, a space and a value: the keyword is the line's key and the trimmed value its remainder. */
  lemma KeywordLine(k: string, v: string)
    requires PlainWord(k) && Trim(v) != []
    ensures LineKey(k + " " + v) == Some(k)
    ensures LineRest(k + " " + v) == Trim(v)
  {
    TrimKeywordLine(k, v);
    FirstSpaceAfterKeyword(k, TrimRight(v));
    KeywordOfRow(k, TrimRight(v));
    RestOfRow(k, v);
  }

  lemma KeywordOfRow(k: string, w: string)
    requires PlainWord(k)
    ensures (k + " " + w)[..|k|] == k
  {
  }

  lemma RestOfRow(k: string, v: string)
    ensures Trim((k + " " + TrimRight(v))[|k|..]) == Trim(v)
  {
    assert (k + " " + TrimRight(v))[|k|..] == [' '] + TrimRight(v);
    TrimLeftAppend([' '], TrimRight(v));
    TrimOfTrimRight(v);
  }

  /** Every scalar keyword is a plain word. */
  lemma ScalarKeywordsArePlain(k: string)
    requires k in ScalarKeywords
    ensures PlainWord(k)
  {
  }

  /** The record and FontBBox keywords are not scalar keywords. */
  lemma OtherKeywordsNotScalar()
    ensures "FontBBox" !in ScalarKeywords && "C" !in ScalarKeywords && "U" !in ScalarKeywords
  {
  }

  /** A line with a keyword is handled by the dispatch on that keyword. */
  lemma ApplyLineByKey(st: ParseState, line: string)
    requires Valid(st) && LineKey(line).Some?
    ensures ApplyLine(st, line) == ApplyKeyed(st, LineKey(line).value, LineRest(line), Trim(line))
  {
  }

  /** A scalar keyword stores the trimmed remainder of its line verbatim. */
  lemma ScalarLineStored(st: ParseState, k: string, v: string)
    requires Valid(st) && k in ScalarKeywords && Trim(v) != []
    ensures ApplyLine(st, k + " " + v) == Ok(SetMeta(st, k, Text(Trim(v))))
  {
    ScalarKeywordsArePlain(k);
    KeywordLine(k, v);
    ApplyLineByKey(st, k + " " + v);
  }

  /** FontBBox stores its remainder split on single spaces. */
  lemma FontBBoxLineStored(st: ParseState, v: string)
    requires Valid(st) && Trim(v) != []
    ensures ApplyLine(st, "FontBBox" + " " + v) == Ok(SetMeta(st, "FontBBox", Parts(Explode(' ', Trim(v)))))
  {
    KeywordLine("FontBBox", v);
    ApplyLineByKey(st, "FontBBox" + " " + v);
    FontBBoxKeyword(st, Trim(v), Trim("FontBBox" + " " + v));
  }

  lemma FontBBoxKeyword(st: ParseState, rest: string, row: string)
    requires Valid(st)
    ensures ApplyKeyed(st, "FontBBox", rest, row) == Ok(SetMeta(st, "FontBBox", Parts(Explode(' ', rest))))
  {
    OtherKeywordsNotScalar();
  }

  /** KPX and every other keyword the switch does not list leave the state as it is. */
  lemma UnlistedKeywordKeepsState(st: ParseState, key: string, rest: string, row: string)
    requires Valid(st) && key !in ScalarKeywords && key !in {"FontBBox", "C", "U"}
    ensures ApplyKeyed(st, key, rest, row) == Ok(st)
  {
  }

  /** Lines without a keyword, KPX lines and unknown keywords leave the state as it is. */
  lemma DroppedLinesKeepState(st: ParseState, line: string)
    requires Valid(st)
    requires LineKey(line).None? ||
             var k := LineKey(line).value; k !in ScalarKeywords && k !in {"FontBBox", "C", "U"}
    ensures ApplyLine(st, line) == Ok(st)
  {
    if LineKey(line).Some? {
      ApplyLineByKey(st, line);
      UnlistedKeywordKeepsState(st, LineKey(line).value, LineRest(line), Trim(line));
    }
  }

  /** U records are ignored entirely by a font whose metrics are not Unicode. */
  lemma URecordsIgnoredWithoutUnicode(st: ParseState, line: string)
    requires Valid(st) && !st.data.isUnicode && LineKey(line) == Some("U")
    ensures ApplyLine(st, line) == Ok(st)
  {
    ApplyLineByKey(st, line);
    UKeywordIgnoredWithoutUnicode(st, LineRest(line), Trim(line));
  }

  lemma UKeywordIgnoredWithoutUnicode(st: ParseState, rest: string, row: string)
    requires Valid(st) && !st.data.isUnicode
    ensures ApplyKeyed(st, "U", rest, row) == Ok(st)
  {
    OtherKeywordsNotScalar();
  }

  // ---------------------------------------------------------------- width, name and MissingWidth updates

  /** A record with a code c >= 0 sets the width of c, and its name unless the name is c in hexadecimal. */
  lemma GlyphByCode(d: FontData, c: int, n: Field, w: Width)
    requires c >= 0
    ensures var r := RegisterGlyph(d, c, n, w);
      && r.Ok?
      && r.value.widths == d.widths[Code(c) := w]
      && (NamesOwnCode(n, c) ==> r.value.codeToName == d.codeToName)
      && (!NamesOwnCode(n, c) ==> r.value.codeToName == d.codeToName[c := n])
  {
  }

  /** A glyph named by its own code in hexadecimal keeps codeToName as it is. */
  lemma HexNamedGlyphKeepsNames(d: FontData, c: nat, w: Width)
    ensures var r := RegisterGlyph(d, c, Token(ToHex(c)), w);
      r.Ok? && r.value.codeToName == d.codeToName && r.value.widths == d.widths[Code(c) := w]
  {
    HexDecToHex(c);
  }

  /** A negative code with a string name keys the width by the name (an integer-like name becomes an integer key). */
  lemma GlyphByName(d: FontData, c: int, s: string, w: Width)
    requires c < 0
    ensures var r := RegisterGlyph(d, c, Token(s), w);
      && r.Ok?
      && r.value.widths == d.widths[NameKey(s) := w]
      && r.value.codeToName == d.codeToName
  {
  }

  /** A negative code with a list of names fails as PHP 8 does on an array offset. */
  lemma GlyphByListName(d: FontData, c: int, xs: seq<string>, w: Width)
    requires c < 0
    ensures RegisterGlyph(d, c, Tokens(xs), w) == Err(IllegalOffsetType)
  {
  }

  /** A negative code without a name records nothing but a possible MissingWidth. */
  lemma GlyphWithoutName(d: FontData, c: int, w: Width)
    requires c < 0
    ensures var r := RegisterGlyph(d, c, Null, w);
      r.Ok? && r.value.widths == d.widths && r.value.codeToName == d.codeToName
  {
  }

  /** MissingWidth is set from a record only when unset, with code -1 and name ".notdef". */
  lemma MissingWidthRule(d: FontData, c: int, n: Field, w: Width)
    ensures var r := RegisterGlyph(d, c, n, w);
      r.Ok? ==>
        r.value.missingWidth ==
          if d.missingWidth.None? && c == -1 && n == Token(".notdef") then Some(w) else d.missingWidth
  {
  }

  /** A C record without a C field is the glyph of code 0. */
  lemma CRecordWithoutCode(st: ParseState, row: string)
    requires forall j :: 0 <= j < |RecordPieces(row)| ==> !Defines(RecordPieces(row)[j], "C")
    ensures var dtmp := RecordFields(CFields, row);
      && CRecord(st, row).Ok?
      && CRecord(st, row).value.data.widths == st.data.widths[Code(0) := Width(dtmp["WX"])]
  {
    FieldTableUndefined(CFields, RecordPieces(row), "C");
    var dtmp := RecordFields(CFields, row);
    assert IntCast(dtmp["C"]) == 0;
    GlyphByCode(st.data, 0, dtmp["N"], Width(dtmp["WX"]));
  }

  // ---------------------------------------------------------------- the CID-to-GID table

  /** A field value as it appears in a record: non-empty, without spaces, separators or other trim characters. */
  predicate Atom(x: string) {
    x != [] && forall i :: 0 <= i < |x| ==> x[i] != ';' && !IsTrimChar(x[i])
  }

  /** A C record line as the format writes it, with code, width and name. */
  function CRow(code: string, wx: string, name: string): string {
    "C " + code + " ; WX " + wx + " ; N " + name + " ;"
  }

  /** Trimming one space off each side of a value with no trim character at its ends. */
  lemma TrimPadded(x: string)
    requires x != [] && !IsTrimChar(x[0]) && !IsTrimChar(x[|x| - 1])
    ensures Trim(x + " ") == x && Trim(" " + x + " ") == x
  {
    TrimLeftNoop(x + " ");
    assert (x + " ")[..|x|] == x;
    TrimRightNoop(x);
    assert " " + x + " " == " " + (x + " ");
    TrimLeftAppend(" ", x + " ");
  }

  /** A keyword and an atom split on their separating space. */
  lemma ExplodePair(k: string, v: string)
    requires ' ' !in k && Atom(v)
    ensures Explode(' ', k + " " + v) == [k, v]
  {
    assert ' ' !in v;
    assert k + " " + v == k + [' '] + v;
    ExplodeAppend(' ', k, v);
    ExplodeOfPiece(' ', v);
  }

  /** A field piece of a record, padded with spaces, splits into its key and value. */
  lemma PaddedPair(k: string, v: string)
    requires PlainWord(k) && Atom(v)
    ensures Explode(' ', Trim((k + " " + v) + " ")) == [k, v]
    ensures Explode(' ', Trim(" " + (k + " " + v) + " ")) == [k, v]
  {
    var x := k + " " + v;
    assert x[0] == k[0] && x[|x| - 1] == v[|v| - 1];
    TrimPadded(x);
    ExplodePair(k, v);
  }

  /** A C record row is its three padded field pieces, each followed by a separator. */
  lemma CRowShape(code: string, wx: string, name: string)
    ensures CRow(code, wx, name) ==
      (("C" + " " + code) + " ") + [';'] +
      ((" " + ("WX" + " " + wx) + " ") + [';'] + ((" " + ("N" + " " + name) + " ") + [';'] + ""))
  {
  }

  /** A C record row has no trim character at either end. */
  lemma CRowTrimmed(code: string, wx: string, name: string)
    ensures Trim(CRow(code, wx, name)) == CRow(code, wx, name)
  {
    var row := CRow(code, wx, name);
    assert row[0] == 'C' && row[|row| - 1] == ';';
    TrimLeftNoop(row);
    TrimRightNoop(row);
  }

  /** The keywords of a C record hold no separator. */
  lemma CKeywordsUnseparated()
    ensures ';' !in "C" && ';' !in "WX" && ';' !in "N"
  {
  }

  /** A padded field piece holds no separator. */
  lemma NoSeparator(k: string, v: string)
    requires ';' !in k && Atom(v)
    ensures ';' !in (k + " " + v) + " " && ';' !in " " + (k + " " + v) + " "
  {
  }

  /** A trimmed row made of three separator-free pieces, each followed by a separator, explodes into those pieces and an empty one. */
  lemma ExplodeThree(row: string, b0: string, b1: string, b2: string)
    requires ';' !in b0 && ';' !in b1 && ';' !in b2
    requires Trim(row) == row && row == b0 + [';'] + (b1 + [';'] + (b2 + [';'] + ""))
    ensures var bits := Explode(';', Trim(row));
      |bits| == 4 && bits[0] == b0 && bits[1] == b1 && bits[2] == b2 && bits[3] == ""
  {
    ExplodeAppend(';', b2, "");
    ExplodeAppend(';', b1, b2 + [';'] + "");
    ExplodeAppend(';', b0, b1 + [';'] + (b2 + [';'] + ""));
  }

  /** The three pieces of a C record between its separators, and the empty piece after the last one. */
  lemma CRowBits(code: string, wx: string, name: string)
    requires Atom(code) && Atom(wx) && Atom(name)
    ensures var bits := Explode(';', Trim(CRow(code, wx, name)));
      && |bits| == 4
      && bits[0] == ("C" + " " + code) + " "
      && bits[1] == " " + ("WX" + " " + wx) + " "
      && bits[2] == " " + ("N" + " " + name) + " "
      && bits[3] == ""
  {
    CRowTrimmed(code, wx, name);
    CRowShape(code, wx, name);
    CKeywordsUnseparated();
    NoSeparator("C", code);
    NoSeparator("WX", wx);
    NoSeparator("N", name);
    ExplodeThree(CRow(code, wx, name), ("C" + " " + code) + " ", " " + ("WX" + " " + wx) + " ", " " + ("N" + " " + name) + " ");
  }

  /** Each piece of a record is the words of the trimmed text between separators. */
  lemma PieceWords(row: string, i: nat, k: string, v: string)
    requires i < |Explode(';', Trim(row))|
    requires Explode(' ', Trim(Explode(';', Trim(row))[i])) == [k, v]
    ensures i < |RecordPieces(row)| && RecordPieces(row)[i] == [k, v]
  {
  }

  /** The pieces of a C record: its three fields and the empty piece after the last separator. */
  lemma CRowPieces(code: string, wx: string, name: string)
    requires Atom(code) && Atom(wx) && Atom(name)
    ensures var pieces := RecordPieces(CRow(code, wx, name));
      && |pieces| == 4
      && pieces[0] == ["C", code] && pieces[1] == ["WX", wx] && pieces[2] == ["N", name] && pieces[3] == [""]
  {
    var row := CRow(code, wx, name);
    CRowBits(code, wx, name);
    assert Trim("") == "";
    RowPiece(row, 0, "C", code);
    RowPiece(row, 1, "WX", wx);
    RowPiece(row, 2, "N", name);
  }

  /** One field piece of a record, padded as the format writes it. */
  lemma RowPiece(row: string, i: nat, k: string, v: string)
    requires PlainWord(k) && Atom(v)
    requires i < |Explode(';', Trim(row))|
    requires var bit := Explode(';', Trim(row))[i];
      bit == (k + " " + v) + " " || bit == " " + (k + " " + v) + " "
    ensures i < |RecordPieces(row)| && RecordPieces(row)[i] == [k, v]
  {
    PaddedPair(k, v);
    PieceWords(row, i, k, v);
  }

  /** A field piece between two separators, padded on both sides. */
  lemma InnerRowPiece(row: string, i: nat, k: string, v: string)
    requires PlainWord(k) && Atom(v)
    requires i < |Explode(';', Trim(row))| && Explode(';', Trim(row))[i] == " " + (k + " " + v) + " "
    ensures i < |RecordPieces(row)| && RecordPieces(row)[i] == [k, v]
  {
    PaddedPair(k, v);
    PieceWords(row, i, k, v);
  }

  /** The field table of pieces that define C, WX and N once each, and B never. */
  lemma CFieldsOfPieces(pieces: seq<seq<string>>, code: string, wx: string, name: string)
    requires |pieces| == 4 && code != [] && wx != [] && name != []
    requires pieces[0] == ["C", code] && pieces[1] == ["WX", wx] && pieces[2] == ["N", name] && pieces[3] == [""]
    ensures var dtmp := FieldTableOf(CFields, pieces);
      && dtmp["C"] == Token(code) && dtmp["WX"] == Token(wx) && dtmp["N"] == Token(name) && dtmp["B"] == Tokens([])
  {
    assert Defines(pieces[0], "C") && Defines(pieces[1], "WX") && Defines(pieces[2], "N");
    assert !Defines(pieces[3], "C") && !Defines(pieces[3], "WX") && !Defines(pieces[3], "N");
    assert forall j :: 0 <= j < 4 ==> !Defines(pieces[j], "B");
    FieldTableLastDefinition(CFields, pieces, "C", 0);
    FieldTableLastDefinition(CFields, pieces, "WX", 1);
    FieldTableLastDefinition(CFields, pieces, "N", 2);
    FieldTableUndefined(CFields, pieces, "B");
  }

  /**
   * A well-formed C record defines exactly its code, width and name; the
   * bounding box keeps its initial empty list.
   */
  lemma CRowFields(code: string, wx: string, name: string)
    requires Atom(code) && Atom(wx) && Atom(name)
    ensures var dtmp := RecordFields(CFields, CRow(code, wx, name));
      && dtmp["C"] == Token(code) && dtmp["WX"] == Token(wx) && dtmp["N"] == Token(name) && dtmp["B"] == Tokens([])
  {
    CRowPieces(code, wx, name);
    CFieldsOfPieces(RecordPieces(CRow(code, wx, name)), code, wx, name);
  }

  /**
   * A C record with a code, a width and a name: code 65 gets width 722, and
   * its name A is recorded because A is not 65 written in hexadecimal.
   */
  lemma CRecordExample(st: ParseState)
    ensures var r := CRecord(st, CRow("65", "722", "A"));
      && r.Ok?
      && r.value.data.widths == st.data.widths[Code(65) := Width(Token("722"))]
      && r.value.data.codeToName == st.data.codeToName[65 := Token("A")]
  {
    ExampleAtoms();
    CRowFields("65", "722", "A");
    ExampleCode();
    GlyphByCode(st.data, 65, Token("A"), Width(Token("722")));
  }

  lemma ExampleAtoms()
    ensures Atom("65") && Atom("722") && Atom("A")
  {
  }

  /** The code field reads as 65, and the name A is not its hexadecimal form. */
  lemma ExampleCode()
    ensures IntCast(Token("65")) == 65 && !NamesOwnCode(Token("A"), 65)
  {
    ExampleLeadingInteger();
    assert HexDec("A") == 10;
  }

  lemma ExampleLeadingInteger()
    ensures LeadingInteger("65") == Some(65)
  {
    assert SkipNumericSpace("65") == "65";
    assert DigitRun("5") == 1;
    assert DigitRun("65") == 2;
    assert "65"[..2] == "65" && "65"[..1] == "6";
    assert DigitsValue("6") == 6;
  }

  // ---------------------------------------------------------------- a C record with a bounding box

  /** A C record line with a bounding box of four words, as the format's own example writes it. */
  function CBoxRow(code: string, wx: string, name: string, llx: string, lly: string, urx: string, ury: string): string {
    "C " + code + " ; WX " + wx + " ; N " + name + " ; " + BoxPiece(llx, lly, urx, ury) + " ;"
  }

  /** The bounding box piece before padding. */
  function BoxPiece(llx: string, lly: string, urx: string, ury: string): string {
    "B" + " " + llx + " " + lly + " " + urx + " " + ury
  }

  /** A C record row with a bounding box is its four padded pieces, each followed by a separator. */
  lemma CBoxRowShape(code: string, wx: string, name: string, llx: string, lly: string, urx: string, ury: string)
    ensures CBoxRow(code, wx, name, llx, lly, urx, ury) ==
      (("C" + " " + code) + " ") + [';'] +
      ((" " + ("WX" + " " + wx) + " ") + [';'] +
      ((" " + ("N" + " " + name) + " ") + [';'] +
      ((" " + BoxPiece(llx, lly, urx, ury) + " ") + [';'] + "")))
  {
  }

  lemma CBoxRowTrimmed(code: string, wx: string, name: string, llx: string, lly: string, urx: string, ury: string)
    ensures var row := CBoxRow(code, wx, name, llx, lly, urx, ury);
      Trim(row) == row
  {
    var row := CBoxRow(code, wx, name, llx, lly, urx, ury);
    assert row[0] == 'C' && row[|row| - 1] == ';';
    TrimLeftNoop(row);
    TrimRightNoop(row);
  }

  /** The padded bounding box piece has no separator. */
  lemma BoxPieceUnseparated(llx: string, lly: string, urx: string, ury: string)
    requires Atom(llx) && Atom(lly) && Atom(urx) && Atom(ury)
    ensures ';' !in " " + BoxPiece(llx, lly, urx, ury) + " "
  {
    assert ';' !in llx && ';' !in lly && ';' !in urx && ';' !in ury;
  }

  /** The padded bounding box piece trims to the unpadded one. */
  lemma BoxPieceTrim(llx: string, lly: string, urx: string, ury: string)
    requires Atom(llx) && Atom(lly) && Atom(urx) && Atom(ury)
    ensures Trim(" " + BoxPiece(llx, lly, urx, ury) + " ") == BoxPiece(llx, lly, urx, ury)
  {
    var front := "B" + " " + llx + " " + lly + " " + urx + " ";
    var x := BoxPiece(llx, lly, urx, ury);
    assert x == front + ury;
    assert x[0] == 'B' && x[|x| - 1] == ury[|ury| - 1];
    TrimPadded(x);
  }

  /** The bounding box piece splits into its keyword and its four words. */
  lemma BoxPieceWords(llx: string, lly: string, urx: string, ury: string)
    requires Atom(llx) && Atom(lly) && Atom(urx) && Atom(ury)
    ensures Explode(' ', BoxPiece(llx, lly, urx, ury)) == ["B", llx, lly, urx, ury]
  {
    assert ' ' !in llx && ' ' !in lly && ' ' !in urx && ' ' !in ury;
    assert BoxPiece(llx, lly, urx, ury) == "B" + [' '] + (llx + [' '] + (lly + [' '] + (urx + [' '] + ury)));
    ExplodeOfPiece(' ', ury);
    ExplodeAppend(' ', urx, ury);
    ExplodeAppend(' ', lly, urx + [' '] + ury);
    ExplodeAppend(' ', llx, lly + [' '] + (urx + [' '] + ury));
    ExplodeAppend(' ', "B", llx + [' '] + (lly + [' '] + (urx + [' '] + ury)));
  }

  /** The four pieces of a C record with a bounding box, and the empty piece after the last separator. */
  lemma CBoxRowBits(code: string, wx: string, name: string, llx: string, lly: string, urx: string, ury: string)
    requires Atom(code) && Atom(wx) && Atom(name) && Atom(llx) && Atom(lly) && Atom(urx) && Atom(ury)
    ensures var bits := Explode(';', Trim(CBoxRow(code, wx, name, llx, lly, urx, ury)));
      && |bits| == 5
      && bits[0] == ("C" + " " + code) + " "
      && bits[1] == " " + ("WX" + " " + wx) + " "
      && bits[2] == " " + ("N" + " " + name) + " "
      && bits[3] == " " + BoxPiece(llx, lly, urx, ury) + " "
      && bits[4] == ""
  {
    CBoxRowTrimmed(code, wx, name, llx, lly, urx, ury);
    CBoxRowShape(code, wx, name, llx, lly, urx, ury);
    CKeywordsUnseparated();
    NoSeparator("C", code);
    NoSeparator("WX", wx);
    NoSeparator("N", name);
    BoxPieceUnseparated(llx, lly, urx, ury);
    ExplodeFour(CBoxRow(code, wx, name, llx, lly, urx, ury), ("C" + " " + code) + " ", " " + ("WX" + " " + wx) + " ",
                " " + ("N" + " " + name) + " ", " " + BoxPiece(llx, lly, urx, ury) + " ");
  }

  lemma CBoxRowCodePiece(code: string, wx: string, name: string, llx: string, lly: string, urx: string, ury: string)
    requires Atom(code) && Atom(wx) && Atom(name) && Atom(llx) && Atom(lly) && Atom(urx) && Atom(ury)
    ensures var pieces := RecordPieces(CBoxRow(code, wx, name, llx, lly, urx, ury));
      |pieces| == 5 && pieces[0] == ["C", code]
  {
    CBoxRowBits(code, wx, name, llx, lly, urx, ury);
    RowPiece(CBoxRow(code, wx, name, llx, lly, urx, ury), 0, "C", code);
  }

  lemma CBoxRowWidthPiece(code: string, wx: string, name: string, llx: string, lly: string, urx: string, ury: string)
    requires Atom(code) && Atom(wx) && Atom(name) && Atom(llx) && Atom(lly) && Atom(urx) && Atom(ury)
    ensures var pieces := RecordPieces(CBoxRow(code, wx, name, llx, lly, urx, ury));
      |pieces| == 5 && pieces[1] == ["WX", wx]
  {
    var row := CBoxRow(code, wx, name, llx, lly, urx, ury);
    CBoxRowBits(code, wx, name, llx, lly, urx, ury);
    assert PlainWord("WX");
    InnerRowPiece(row, 1, "WX", wx);
  }

  lemma CBoxRowNamePiece(code: string, wx: string, name: string, llx: string, lly: string, urx: string, ury: string)
    requires Atom(code) && Atom(wx) && Atom(name) && Atom(llx) && Atom(lly) && Atom(urx) && Atom(ury)
    ensures var pieces := RecordPieces(CBoxRow(code, wx, name, llx, lly, urx, ury));
      |pieces| == 5 && pieces[2] == ["N", name]
  {
    CBoxRowBits(code, wx, name, llx, lly, urx, ury);
    InnerRowPiece(CBoxRow(code, wx, name, llx, lly, urx, ury), 2, "N", name);
  }

  lemma CBoxRowBoxPiece(code: string, wx: string, name: string, llx: string, lly: string, urx: string, ury: string)
    requires Atom(code) && Atom(wx) && Atom(name) && Atom(llx) && Atom(lly) && Atom(urx) && Atom(ury)
    ensures var pieces := RecordPieces(CBoxRow(code, wx, name, llx, lly, urx, ury));
      |pieces| == 5 && pieces[3] == ["B", llx, lly, urx, ury]
  {
    CBoxRowBits(code, wx, name, llx, lly, urx, ury);
    BoxPieceTrim(llx, lly, urx, ury);
    BoxPieceWords(llx, lly, urx, ury);
  }

  lemma CBoxRowLastPiece(code: string, wx: string, name: string, llx: string, lly: string, urx: string, ury: string)
    requires Atom(code) && Atom(wx) && Atom(name) && Atom(llx) && Atom(lly) && Atom(urx) && Atom(ury)
    ensures var pieces := RecordPieces(CBoxRow(code, wx, name, llx, lly, urx, ury));
      |pieces| == 5 && pieces[4] == [""]
  {
    CBoxRowBits(code, wx, name, llx, lly, urx, ury);
    EmptyLastPiece(CBoxRow(code, wx, name, llx, lly, urx, ury), 4);
  }

  /** The field table of pieces that define C, WX, N and a four-word B once each. */
  lemma CBoxFieldsOfPieces(pieces: seq<seq<string>>, code: string, wx: string, name: string, box: seq<string>)
    requires |pieces| == 5 && code != [] && wx != [] && name != [] && |box| == 4
    requires pieces[0] == ["C", code] && pieces[1] == ["WX", wx] && pieces[2] == ["N", name]
    requires pieces[3] == ["B"] + box && pieces[4] == [""]
    ensures var dtmp := FieldTableOf(CFields, pieces);
      && dtmp["C"] == Token(code) && dtmp["WX"] == Token(wx) && dtmp["N"] == Token(name) && dtmp["B"] == Tokens(box)
  {
    assert pieces[3][1..] == box;
    assert Defines(pieces[0], "C") && Defines(pieces[1], "WX") && Defines(pieces[2], "N") && Defines(pieces[3], "B");
    assert forall j :: 1 <= j < 5 ==> !Defines(pieces[j], "C");
    assert forall j :: 2 <= j < 5 ==> !Defines(pieces[j], "WX");
    assert forall j :: 3 <= j < 5 ==> !Defines(pieces[j], "N");
    assert !Defines(pieces[4], "B");
    FieldTableLastDefinition(CFields, pieces, "C", 0);
    FieldTableLastDefinition(CFields, pieces, "WX", 1);
    FieldTableLastDefinition(CFields, pieces, "N", 2);
    FieldTableLastDefinition(CFields, pieces, "B", 3);
  }

  /**
   * A C record with a bounding box defines its code, width and name, and B
   * holds the list of the box's four words.
   */
  lemma CBoxRowFields(code: string, wx: string, name: string, llx: string, lly: string, urx: string, ury: string)
    requires Atom(code) && Atom(wx) && Atom(name) && Atom(llx) && Atom(lly) && Atom(urx) && Atom(ury)
    ensures var dtmp := RecordFields(CFields, CBoxRow(code, wx, name, llx, lly, urx, ury));
      && dtmp["C"] == Token(code) && dtmp["WX"] == Token(wx) && dtmp["N"] == Token(name)
      && dtmp["B"] == Tokens([llx, lly, urx, ury])
  {
    CBoxRowPieces(code, wx, name, llx, lly, urx, ury);
    CBoxFieldsOfPieces(RecordPieces(CBoxRow(code, wx, name, llx, lly, urx, ury)), code, wx, name, [llx, lly, urx, ury]);
  }

  /** The pieces of a C record with a bounding box: its four fields and the empty piece after the last separator. */
  lemma CBoxRowPieces(code: string, wx: string, name: string, llx: string, lly: string, urx: string, ury: string)
    requires Atom(code) && Atom(wx) && Atom(name) && Atom(llx) && Atom(lly) && Atom(urx) && Atom(ury)
    ensures var pieces := RecordPieces(CBoxRow(code, wx, name, llx, lly, urx, ury));
      && |pieces| == 5
      && pieces[0] == ["C", code] && pieces[1] == ["WX", wx] && pieces[2] == ["N", name]
      && pieces[3] == ["B"] + [llx, lly, urx, ury] && pieces[4] == [""]
  {
    CBoxRowCodePiece(code, wx, name, llx, lly, urx, ury);
    CBoxRowWidthPiece(code, wx, name, llx, lly, urx, ury);
    CBoxRowNamePiece(code, wx, name, llx, lly, urx, ury);
    CBoxRowBoxPiece(code, wx, name, llx, lly, urx, ury);
    CBoxRowLastPiece(code, wx, name, llx, lly, urx, ury);
    KeywordThenBox(llx, lly, urx, ury);
  }

  lemma KeywordThenBox(llx: string, lly: string, urx: string, ury: string)
    ensures ["B", llx, lly, urx, ury] == ["B"] + [llx, lly, urx, ury]
  {
  }

  /** A string of two decimal digits reads as its value. */
  lemma TwoDigits(a: char, b: char)
    requires IsDigit(a) && IsDigit(b)
    ensures LeadingInteger([a, b]) == Some((a as int - '0' as int) * 10 + (b as int - '0' as int))
  {
    var s := [a, b];
    assert !IsNumericSpace(a) && SkipNumericSpace(s) == s;
    assert a != '-' && a != '+';
    assert [b][1..] == [] && DigitRun([b]) == 1;
    assert s[1..] == [b] && DigitRun(s) == 2;
    assert s[..2] == s;
    assert [a][..0] == [] && DigitsValue([a]) == a as int - '0' as int;
    assert s[..1] == [a];
  }

  lemma ExampleBoxAtoms()
    ensures Atom("39") && Atom("222") && Atom("quoteright")
    ensures Atom("53") && Atom("463") && Atom("157") && Atom("718")
  {
  }

  /**
   * The C record of the format's own example, bounding box included: code 39
   * gets width 222 and the name quoteright, and B holds the box's four words,
   * which the width and name tables do not use.
   */
  lemma CBoxRecordExample(st: ParseState)
    ensures var row := CBoxRow("39", "222", "quoteright", "53", "463", "157", "718");
      var r := CRecord(st, row);
      && RecordFields(CFields, row)["B"] == Tokens(["53", "463", "157", "718"])
      && r.Ok?
      && r.value.cidToGid == st.cidToGid
      && r.value.data.widths == st.data.widths[Code(39) := Width(Token("222"))]
      && r.value.data.codeToName == st.data.codeToName[39 := Token("quoteright")]
  {
    ExampleBoxAtoms();
    CBoxRowFields("39", "222", "quoteright", "53", "463", "157", "718");
    ExampleBoxNumbers();
    GlyphByCode(st.data, 39, Token("quoteright"), Width(Token("222")));
  }

  /** The code reads as 39, and the name quoteright is not hexadecimal. */
  lemma ExampleBoxNumbers()
    ensures IntCast(Token("39")) == 39 && !NamesOwnCode(Token("quoteright"), 39)
  {
    TwoDigits('3', '9');
    assert !IsHexDigit("quoteright"[0]);
  }

  // ---------------------------------------------------------------- a U record

  /** A U record line as the format writes it, with code point, width, name and glyph id. */
  function URow(code: string, wx: string, name: string, glyph: string): string {
    "U " + code + " ; WX " + wx + " ; N " + name + " ; G " + glyph + " ;"
  }

  /** A U record row is its four padded field pieces, each followed by a separator. */
  lemma URowShape(code: string, wx: string, name: string, glyph: string)
    ensures URow(code, wx, name, glyph) ==
      (("U" + " " + code) + " ") + [';'] +
      ((" " + ("WX" + " " + wx) + " ") + [';'] +
      ((" " + ("N" + " " + name) + " ") + [';'] +
      ((" " + ("G" + " " + glyph) + " ") + [';'] + "")))
  {
  }

  /** A U record row has no trim character at either end. */
  lemma URowTrimmed(code: string, wx: string, name: string, glyph: string)
    ensures Trim(URow(code, wx, name, glyph)) == URow(code, wx, name, glyph)
  {
    var row := URow(code, wx, name, glyph);
    assert row[0] == 'U' && row[|row| - 1] == ';';
    TrimLeftNoop(row);
    TrimRightNoop(row);
  }

  /** The keywords of a U record hold no separator. */
  lemma UKeywordsUnseparated()
    ensures ';' !in "U" && ';' !in "WX" && ';' !in "N" && ';' !in "G"
  {
  }

  /** A trimmed row made of four separator-free pieces, each followed by a separator, explodes into those pieces and an empty one. */
  lemma ExplodeFour(row: string, b0: string, b1: string, b2: string, b3: string)
    requires ';' !in b0 && ';' !in b1 && ';' !in b2 && ';' !in b3
    requires Trim(row) == row && row == b0 + [';'] + (b1 + [';'] + (b2 + [';'] + (b3 + [';'] + "")))
    ensures var bits := Explode(';', Trim(row));
      |bits| == 5 && bits[0] == b0 && bits[1] == b1 && bits[2] == b2 && bits[3] == b3 && bits[4] == ""
  {
    ExplodeAppend(';', b3, "");
    ExplodeAppend(';', b2, b3 + [';'] + "");
    ExplodeAppend(';', b1, b2 + [';'] + (b3 + [';'] + ""));
    ExplodeAppend(';', b0, b1 + [';'] + (b2 + [';'] + (b3 + [';'] + "")));
  }

  /** The four pieces of a U record between its separators, and the empty piece after the last one. */
  lemma URowBits(code: string, wx: string, name: string, glyph: string)
    requires Atom(code) && Atom(wx) && Atom(name) && Atom(glyph)
    ensures var bits := Explode(';', Trim(URow(code, wx, name, glyph)));
      && |bits| == 5
      && bits[0] == ("U" + " " + code) + " "
      && bits[1] == " " + ("WX" + " " + wx) + " "
      && bits[2] == " " + ("N" + " " + name) + " "
      && bits[3] == " " + ("G" + " " + glyph) + " "
      && bits[4] == ""
  {
    URowTrimmed(code, wx, name, glyph);
    URowShape(code, wx, name, glyph);
    UKeywordsUnseparated();
    NoSeparator("U", code);
    NoSeparator("WX", wx);
    NoSeparator("N", name);
    NoSeparator("G", glyph);
    ExplodeFour(URow(code, wx, name, glyph), ("U" + " " + code) + " ", " " + ("WX" + " " + wx) + " ",
                " " + ("N" + " " + name) + " ", " " + ("G" + " " + glyph) + " ");
  }

  /** The pieces of a U record: its four fields and the empty piece after the last separator. */
  lemma URowPieces(code: string, wx: string, name: string, glyph: string)
    requires Atom(code) && Atom(wx) && Atom(name) && Atom(glyph)
    ensures var pieces := RecordPieces(URow(code, wx, name, glyph));
      && |pieces| == 5
      && pieces[0] == ["U", code] && pieces[1] == ["WX", wx] && pieces[2] == ["N", name]
      && pieces[3] == ["G", glyph] && pieces[4] == [""]
  {
    URowFrontPieces(code, wx, name, glyph);
    URowBackPieces(code, wx, name, glyph);
  }

  lemma URowFrontPieces(code: string, wx: string, name: string, glyph: string)
    requires Atom(code) && Atom(wx) && Atom(name) && Atom(glyph)
    ensures var pieces := RecordPieces(URow(code, wx, name, glyph));
      |pieces| == 5 && pieces[0] == ["U", code] && pieces[1] == ["WX", wx]
  {
    var row := URow(code, wx, name, glyph);
    URowBits(code, wx, name, glyph);
    RowPiece(row, 0, "U", code);
    RowPiece(row, 1, "WX", wx);
  }

  lemma URowBackPieces(code: string, wx: string, name: string, glyph: string)
    requires Atom(code) && Atom(wx) && Atom(name) && Atom(glyph)
    ensures var pieces := RecordPieces(URow(code, wx, name, glyph));
      |pieces| == 5 && pieces[2] == ["N", name] && pieces[3] == ["G", glyph] && pieces[4] == [""]
  {
    URowNamePiece(code, wx, name, glyph);
    URowGlyphPiece(code, wx, name, glyph);
    URowLastPiece(code, wx, name, glyph);
  }

  lemma URowLastPiece(code: string, wx: string, name: string, glyph: string)
    requires Atom(code) && Atom(wx) && Atom(name) && Atom(glyph)
    ensures var pieces := RecordPieces(URow(code, wx, name, glyph));
      |pieces| == 5 && pieces[4] == [""]
  {
    URowBits(code, wx, name, glyph);
    EmptyLastPiece(URow(code, wx, name, glyph), 4);
  }

  lemma URowNamePiece(code: string, wx: string, name: string, glyph: string)
    requires Atom(code) && Atom(wx) && Atom(name) && Atom(glyph)
    ensures var pieces := RecordPieces(URow(code, wx, name, glyph));
      |pieces| == 5 && pieces[2] == ["N", name]
  {
    URowBits(code, wx, name, glyph);
    RowPiece(URow(code, wx, name, glyph), 2, "N", name);
  }

  lemma URowGlyphPiece(code: string, wx: string, name: string, glyph: string)
    requires Atom(code) && Atom(wx) && Atom(name) && Atom(glyph)
    ensures var pieces := RecordPieces(URow(code, wx, name, glyph));
      |pieces| == 5 && pieces[3] == ["G", glyph]
  {
    URowBits(code, wx, name, glyph);
    RowPiece(URow(code, wx, name, glyph), 3, "G", glyph);
  }

  /** The empty text after a record's last separator is a piece with one empty word. */
  lemma EmptyLastPiece(row: string, i: nat)
    requires i < |Explode(';', Trim(row))| && Explode(';', Trim(row))[i] == ""
    ensures i < |RecordPieces(row)| && RecordPieces(row)[i] == [""]
  {
    assert Trim("") == "";
  }

  /** The field table of pieces that define U, WX, N and G once each. */
  lemma UFieldsOfPieces(pieces: seq<seq<string>>, code: string, wx: string, name: string, glyph: string)
    requires |pieces| == 5 && code != [] && wx != [] && name != [] && glyph != []
    requires pieces[0] == ["U", code] && pieces[1] == ["WX", wx] && pieces[2] == ["N", name]
    requires pieces[3] == ["G", glyph] && pieces[4] == [""]
    ensures var dtmp := FieldTableOf(UFields, pieces);
      dtmp["U"] == Token(code) && dtmp["WX"] == Token(wx) && dtmp["N"] == Token(name) && dtmp["G"] == Token(glyph)
  {
    assert Defines(pieces[0], "U") && Defines(pieces[1], "WX") && Defines(pieces[2], "N") && Defines(pieces[3], "G");
    assert forall j :: 1 <= j < 5 ==> !Defines(pieces[j], "U");
    assert forall j :: 2 <= j < 5 ==> !Defines(pieces[j], "WX");
    assert forall j :: 3 <= j < 5 ==> !Defines(pieces[j], "N");
    assert !Defines(pieces[4], "G");
    FieldTableLastDefinition(UFields, pieces, "U", 0);
    FieldTableLastDefinition(UFields, pieces, "WX", 1);
    FieldTableLastDefinition(UFields, pieces, "N", 2);
    FieldTableLastDefinition(UFields, pieces, "G", 3);
  }

  /** A well-formed U record defines exactly its code point, width, name and glyph id. */
  lemma URowFields(code: string, wx: string, name: string, glyph: string)
    requires Atom(code) && Atom(wx) && Atom(name) && Atom(glyph)
    ensures var dtmp := RecordFields(UFields, URow(code, wx, name, glyph));
      dtmp["U"] == Token(code) && dtmp["WX"] == Token(wx) && dtmp["N"] == Token(name) && dtmp["G"] == Token(glyph)
  {
    URowPieces(code, wx, name, glyph);
    UFieldsOfPieces(RecordPieces(URow(code, wx, name, glyph)), code, wx, name, glyph);
  }

  /** A string of three decimal digits reads as its value. */
  lemma ThreeDigits(a: char, b: char, c: char)
    requires IsDigit(a) && IsDigit(b) && IsDigit(c)
    ensures LeadingInteger([a, b, c]) == Some((a as int - '0' as int) * 100 + (b as int - '0' as int) * 10 + (c as int - '0' as int))
  {
    var s := [a, b, c];
    assert !IsNumericSpace(a) && SkipNumericSpace(s) == s;
    assert a != '-' && a != '+';
    ThreeDigitRun(a, b, c);
    assert s[..3] == s;
    ThreeDigitsValue(a, b, c);
  }

  lemma ThreeDigitRun(a: char, b: char, c: char)
    requires IsDigit(a) && IsDigit(b) && IsDigit(c)
    ensures DigitRun([a, b, c]) == 3
  {
    assert [c][1..] == [] && DigitRun([c]) == 1;
    assert [b, c][1..] == [c] && DigitRun([b, c]) == 2;
    assert [a, b, c][1..] == [b, c];
  }

  lemma ThreeDigitsValue(a: char, b: char, c: char)
    requires IsDigit(a) && IsDigit(b) && IsDigit(c)
    ensures DigitsValue([a, b, c]) == (a as int - '0' as int) * 100 + (b as int - '0' as int) * 10 + (c as int - '0' as int)
  {
    assert [a][..0] == [] && DigitsValue([a]) == a as int - '0' as int;
    assert [a, b][..1] == [a] && DigitsValue([a, b]) == (a as int - '0' as int) * 10 + (b as int - '0' as int);
    assert [a, b, c][..2] == [a, b];
  }

  lemma ExampleUAtoms()
    ensures Atom("827") && Atom("0") && Atom("squaresubnosp") && Atom("675")
  {
  }

  /** The code point reads as 827 and the glyph id as 675; the name is not hexadecimal. */
  lemma ExampleUNumbers()
    ensures IntCast(Token("827")) == 827 && GlyphNumber(Token("675")) == Ok(675) && Truthy(Token("675"))
    ensures !NamesOwnCode(Token("squaresubnosp"), 827)
  {
    ThreeDigits('8', '2', '7');
    ThreeDigits('6', '7', '5');
    assert !IsHexDigit("squaresubnosp"[0]);
  }

  /**
   * The U record of the format's own example: slot 827 of the table gets
   * glyph 675, the width 0 is stored under code 827 and the name recorded.
   */
  lemma URecordExample(st: ParseState)
    requires Valid(st) && st.data.isUnicode
    ensures var r := URecord(st, URow("827", "0", "squaresubnosp", "675"));
      && r.Ok?
      && r.value.cidToGid == WriteSlot(st.cidToGid, 827, 675)
      && GlyphAt(r.value.cidToGid, 827) == 675
      && r.value.data.widths == st.data.widths[Code(827) := Width(Token("0"))]
      && r.value.data.codeToName == st.data.codeToName[827 := Token("squaresubnosp")]
  {
    ExampleUAtoms();
    URowFields("827", "0", "squaresubnosp", "675");
    ExampleUNumbers();
    var dtmp := RecordFields(UFields, URow("827", "0", "squaresubnosp", "675"));
    assert UCode(dtmp) == 827 && WritesSlot(dtmp);
    GlyphByCode(st.data, 827, Token("squaresubnosp"), Width(Token("0")));
    WriteSlotSetsOneSlot(st.cidToGid, 827, 675);
  }

  /** A glyph id written as a bare fraction (".5", "-.5") is a number to PHP, and reads as 0. */
  lemma FractionGlyphReadsZero(sign: string, d: char)
    requires sign == "" || sign == "-" || sign == "+"
    requires IsDigit(d)
    ensures GlyphNumber(Token(sign + ['.', d])) == Ok(0)
  {
    var s := sign + ['.', d];
    assert !IsNumericSpace(s[0]);
    assert SkipNumericSpace(s) == s;
    var body := if s[0] == '-' || s[0] == '+' then s[1..] else s;
    assert body == ['.', d];
    assert DigitRun(body) == 0;
    assert LeadingInteger(s).None? && LeadingFraction(s);
  }

  /** Writing slot c stores g modulo 65536 big-endian there and changes no other byte. */
  lemma WriteSlotSetsOneSlot(cid: seq<Byte>, c: nat, g: int)
    requires 2 * c + 1 < |cid|
    ensures var r := WriteSlot(cid, c, g);
      && GlyphAt(r, c) == g % 65536
      && forall j :: 0 <= j < |cid| && j != 2 * c && j != 2 * c + 1 ==> r[j] == cid[j]
  {
    var r := WriteSlot(cid, c, g);
    assert r[2 * c] as int == (g / 256) % 256 && r[2 * c + 1] as int == g % 256;
    BigEndianBytes(g);
  }

  /** chr($g >> 8) and chr($g & 0xFF) read back as one 16-bit value: g modulo 65536. */
  lemma BigEndianBytes(g: int)
    ensures ((g / 256) % 256) * 256 + g % 256 == g % 65536
  {
    var q := g / 256;
    var p := q / 256;
    assert g == 256 * q + g % 256;
    assert q == 256 * p + q % 256;
    assert g == 65536 * p + (q % 256) * 256 + g % 256;
  }

  /** Once MissingWidth is set it stays. */
  predicate KeepsMissingWidth(before: FontData, after: FontData) {
    before.missingWidth.Some? ==> after.missingWidth == before.missingWidth
  }

  /** The $dtmp of a line read as a U record. */
  function UFieldsOf(line: string): (dtmp: FieldTable)
    ensures UFields.Keys <= dtmp.Keys
  {
    RecordFields(UFields, Trim(line))
  }

  /** The line is a U record whose code point is below U+FFFF and whose G is truthy. */
  predicate LineWrites(line: string) {
    LineKey(line) == Some("U") && WritesSlot(UFieldsOf(line))
  }

  /** The line is a U record that writes the table slot of code point k. */
  predicate LineWritesCode(line: string, k: int) {
    LineWrites(line) && UCode(UFieldsOf(line)) == k
  }

  lemma CGlyphFrame(st: ParseState, dtmp: FieldTable)
    requires CFields.Keys <= dtmp.Keys
    ensures var r := CGlyph(st, dtmp);
      r.Ok? ==> r.value.cidToGid == st.cidToGid && KeepsMissingWidth(st.data, r.value.data)
  {
    MissingWidthRule(st.data, IntCast(dtmp["C"]), dtmp["N"], Width(dtmp["WX"]));
  }

  /**
   * A U record with code point U below U+FFFF and a truthy G writes G big-endian
   * into slot U and nowhere else; any other U record leaves the table alone.
   */
  lemma UGlyphFrame(st: ParseState, dtmp: FieldTable)
    requires Valid(st) && st.data.isUnicode && UFields.Keys <= dtmp.Keys
    ensures var r := UGlyph(st, dtmp);
      && (r.Ok? ==> KeepsMissingWidth(st.data, r.value.data))
      && (r.Ok? && WritesSlot(dtmp) ==>
            && GlyphNumber(dtmp["G"]).Ok?
            && r.value.cidToGid == WriteSlot(st.cidToGid, UCode(dtmp), GlyphNumber(dtmp["G"]).value))
      && (r.Ok? && !WritesSlot(dtmp) ==> r.value.cidToGid == st.cidToGid)
  {
    MissingWidthRule(st.data, UCode(dtmp), dtmp["N"], Width(dtmp["WX"]));
  }

  /** Only a U line of a Unicode font writes the table, and then exactly its slot. */
  lemma ApplyKeyedFrame(st: ParseState, key: string, rest: string, row: string)
    requires Valid(st)
    ensures var r := ApplyKeyed(st, key, rest, row);
      var dtmp := RecordFields(UFields, row);
      var writes := key == "U" && st.data.isUnicode && WritesSlot(dtmp);
      && (r.Ok? ==> KeepsMissingWidth(st.data, r.value.data))
      && (r.Ok? && writes ==>
            && GlyphNumber(dtmp["G"]).Ok?
            && r.value.cidToGid == WriteSlot(st.cidToGid, UCode(dtmp), GlyphNumber(dtmp["G"]).value))
      && (r.Ok? && !writes ==> r.value.cidToGid == st.cidToGid)
  {
    OtherKeywordsNotScalar();
    if key == "U" && st.data.isUnicode {
      assert ApplyKeyed(st, key, rest, row) == URecord(st, row);
      UGlyphFrame(st, RecordFields(UFields, row));
    } else {
      KeyedKeepsTable(st, key, rest, row);
    }
  }

  /** Every keyword but the U record of a Unicode font leaves the table alone. */
  lemma KeyedKeepsTable(st: ParseState, key: string, rest: string, row: string)
    requires Valid(st) && !(key == "U" && st.data.isUnicode)
    ensures var r := ApplyKeyed(st, key, rest, row);
      r.Ok? ==> r.value.cidToGid == st.cidToGid && KeepsMissingWidth(st.data, r.value.data)
  {
    if key !in ScalarKeywords && key != "FontBBox" && key == "C" {
      CGlyphFrame(st, RecordFields(CFields, row));
    }
  }

  lemma ApplyLineFrame(st: ParseState, line: string)
    requires Valid(st)
    ensures var r := ApplyLine(st, line);
      var dtmp := UFieldsOf(line);
      var writes := st.data.isUnicode && LineWrites(line);
      && (r.Ok? ==> KeepsMissingWidth(st.data, r.value.data))
      && (r.Ok? && writes ==>
            && GlyphNumber(dtmp["G"]).Ok?
            && r.value.cidToGid == WriteSlot(st.cidToGid, UCode(dtmp), GlyphNumber(dtmp["G"]).value))
      && (r.Ok? && !writes ==> r.value.cidToGid == st.cidToGid)
  {
    if LineKey(line).Some? {
      ApplyLineByKey(st, line);
      ApplyKeyedFrame(st, LineKey(line).value, LineRest(line), Trim(line));
    }
  }

  /** A line that does not write slot k keeps its two bytes. */
  lemma LineKeepsSlot(st: ParseState, line: string, k: nat)
    requires Valid(st) && 2 * k + 1 < |st.cidToGid| && !LineWritesCode(line, k)
    ensures var r := ApplyLine(st, line);
      r.Ok? ==> r.value.cidToGid[2 * k] == st.cidToGid[2 * k] && r.value.cidToGid[2 * k + 1] == st.cidToGid[2 * k + 1]
  {
    ApplyLineFrame(st, line);
    if st.data.isUnicode && LineWrites(line) && ApplyLine(st, line).Ok? {
      var dtmp := UFieldsOf(line);
      WriteSlotSetsOneSlot(st.cidToGid, UCode(dtmp), GlyphNumber(dtmp["G"]).value);
    }
  }

  /** A line that writes slot k stores its G there, modulo 65536. */
  lemma LineSetsSlot(st: ParseState, line: string, k: nat)
    requires Valid(st) && st.data.isUnicode && LineWritesCode(line, k)
    ensures var r := ApplyLine(st, line);
      var dtmp := UFieldsOf(line);
      r.Ok? ==>
        && k < LastCode
        && GlyphNumber(dtmp["G"]).Ok?
        && GlyphAt(r.value.cidToGid, k) == GlyphNumber(dtmp["G"]).value % 65536
  {
    ApplyLineFrame(st, line);
    if ApplyLine(st, line).Ok? {
      var dtmp := UFieldsOf(line);
      WriteSlotSetsOneSlot(st.cidToGid, k, GlyphNumber(dtmp["G"]).value);
    }
  }

  /** A slot that no line of the file writes keeps its two bytes through the whole parse. */
  lemma {:induction false} UnwrittenSlotKept(st: ParseState, lines: seq<string>, k: nat)
    requires Valid(st) && 2 * k + 1 < |st.cidToGid|
    requires forall i :: 0 <= i < |lines| ==> !LineWritesCode(lines[i], k)
    ensures var r := ParseLines(st, lines);
      r.Ok? ==> r.value.cidToGid[2 * k] == st.cidToGid[2 * k] && r.value.cidToGid[2 * k + 1] == st.cidToGid[2 * k + 1]
    decreases |lines|
  {
    if lines != [] {
      ParseLinesStep(st, lines);
      LineKeepsSlot(st, lines[0], k);
      match ApplyLine(st, lines[0])
      case Err(_) =>
      case Ok(st1) =>
        assert forall i :: 0 <= i < |lines[1..]| ==> lines[1..][i] == lines[i + 1];
        UnwrittenSlotKept(st1, lines[1..], k);
    }
  }

  /** A slot decodes the same in two tables that agree on its two bytes. */
  lemma SameBytesSameGlyph(a: seq<Byte>, b: seq<Byte>, k: nat)
    requires 2 * k + 1 < |a| && 2 * k + 1 < |b|
    requires a[2 * k] == b[2 * k] && a[2 * k + 1] == b[2 * k + 1]
    ensures GlyphAt(a, k) == GlyphAt(b, k)
  {
  }

  /** A first line writing slot k that no later line rewrites decides the slot. */
  lemma FirstLineWriteKept(st: ParseState, line: string, rest: seq<string>, k: nat)
    requires Valid(st) && st.data.isUnicode && LineWritesCode(line, k)
    requires forall j :: 0 <= j < |rest| ==> !LineWritesCode(rest[j], k)
    ensures var r := ParseLines(st, [line] + rest);
      var dtmp := UFieldsOf(line);
      r.Ok? ==>
        && k < LastCode
        && GlyphNumber(dtmp["G"]).Ok?
        && GlyphAt(r.value.cidToGid, k) == GlyphNumber(dtmp["G"]).value % 65536
  {
    FirstLineStep(st, line, rest);
    LineSetsSlot(st, line, k);
    match ApplyLine(st, line)
    case Err(_) =>
    case Ok(st1) =>
      TailKeepsGlyph(st1, rest, k);
  }

  /** The parse of a file starting with `line` is that line, then the parse of the rest. */
  lemma FirstLineStep(st: ParseState, line: string, rest: seq<string>)
    requires Valid(st)
    ensures var a := ApplyLine(st, line);
      ParseLines(st, [line] + rest) == if a.Ok? then ParseLines(a.value, rest) else Err(a.error)
  {
    var lines := [line] + rest;
    assert lines[0] == line && lines[1..] == rest;
    ParseLinesStep(st, lines);
  }

  /** The same as UnwrittenSlotKept, read as the decoded glyph id. */
  lemma TailKeepsGlyph(st: ParseState, lines: seq<string>, k: nat)
    requires Valid(st) && 2 * k + 1 < |st.cidToGid|
    requires forall i :: 0 <= i < |lines| ==> !LineWritesCode(lines[i], k)
    ensures var r := ParseLines(st, lines);
      r.Ok? ==> 2 * k + 1 < |r.value.cidToGid| && GlyphAt(r.value.cidToGid, k) == GlyphAt(st.cidToGid, k)
  {
    UnwrittenSlotKept(st, lines, k);
    var r := ParseLines(st, lines);
    if r.Ok? {
      SameBytesSameGlyph(r.value.cidToGid, st.cidToGid, k);
    }
  }

  lemma NoPrefix(before: seq<string>, line: string, after: seq<string>)
    requires before == []
    ensures before + [line] + after == [line] + after
  {
  }

  lemma SplitFirst(before: seq<string>, line: string, after: seq<string>)
    requires before != []
    ensures var lines := before + [line] + after;
      lines[0] == before[0] && lines[1..] == before[1..] + [line] + after
  {
  }

  /** The last U line writing slot k decides it: its G modulo 65536. */
  lemma {:induction false} LastWriteWins(st: ParseState, before: seq<string>, line: string, after: seq<string>, k: nat)
    requires Valid(st) && st.data.isUnicode && LineWritesCode(line, k)
    requires forall j :: 0 <= j < |after| ==> !LineWritesCode(after[j], k)
    ensures var r := ParseLines(st, before + [line] + after);
      var dtmp := UFieldsOf(line);
      r.Ok? ==>
        && k < LastCode
        && GlyphNumber(dtmp["G"]).Ok?
        && GlyphAt(r.value.cidToGid, k) == GlyphNumber(dtmp["G"]).value % 65536
    decreases |before|, 1
  {
    if before == [] {
      NoPrefix(before, line, after);
      FirstLineWriteKept(st, line, after, k);
    } else {
      EarlierLineKeepsWrite(st, before, line, after, k);
    }
  }

  /** A line before the last write of slot k does not change what the parse writes there. */
  lemma {:induction false} EarlierLineKeepsWrite(st: ParseState, before: seq<string>, line: string, after: seq<string>, k: nat)
    requires Valid(st) && st.data.isUnicode && LineWritesCode(line, k) && before != []
    requires forall j :: 0 <= j < |after| ==> !LineWritesCode(after[j], k)
    ensures var r := ParseLines(st, before + [line] + after);
      var dtmp := UFieldsOf(line);
      r.Ok? ==>
        && k < LastCode
        && GlyphNumber(dtmp["G"]).Ok?
        && GlyphAt(r.value.cidToGid, k) == GlyphNumber(dtmp["G"]).value % 65536
    decreases |before|, 0
  {
    SplitFirst(before, line, after);
    ParseLinesStep(st, before + [line] + after);
    var a := ApplyLine(st, before[0]);
    if a.Ok? {
      LastWriteWins(a.value, before[1..], line, after, k);
    }
  }

  /** In a parsed Unicode font, a code point no U line writes maps to glyph 0. */
  lemma UnnamedCodePointUnmapped(lines: seq<string>, k: nat)
    requires k <= LastCode
    requires forall i :: 0 <= i < |lines| ==> !LineWritesCode(lines[i], k)
    ensures var r := ParseLines(InitialState(true), lines);
      r.Ok? ==> GlyphAt(r.value.cidToGid, k) == 0
  {
    var st := InitialState(true);
    UnwrittenSlotKept(st, lines, k);
    assert st.cidToGid[2 * k] == 0 && st.cidToGid[2 * k + 1] == 0;
  }

  /**
   * Over a whole file: the table keeps its length, the slot of U+FFFF is never
   * written, and a MissingWidth once set is never overwritten.
   */
  lemma {:induction false} ParseLinesFrame(st: ParseState, lines: seq<string>)
    requires Valid(st)
    ensures var r := ParseLines(st, lines);
      r.Ok? ==>
        && |r.value.cidToGid| == |st.cidToGid|
        && KeepsMissingWidth(st.data, r.value.data)
        && (st.data.isUnicode ==>
              r.value.cidToGid[2 * LastCode] == st.cidToGid[2 * LastCode]
              && r.value.cidToGid[2 * LastCode + 1] == st.cidToGid[2 * LastCode + 1])
    decreases |lines|
  {
    if st.data.isUnicode {
      UnwrittenSlotKept(st, lines, LastCode);
    }
    if lines != [] {
      ParseLinesStep(st, lines);
      ApplyLineFrame(st, lines[0]);
      match ApplyLine(st, lines[0])
      case Err(_) =>
      case Ok(st1) =>
        ParseLinesFrame(st1, lines[1..]);
    }
  }

  // ---------------------------------------------------------------- metrics file names and the cache gate

  /** The font's data is Unicode exactly when Unicode is wanted and the font is not a core font. */
  lemma MetricsNameUnicode(font: string, unicodeWanted: bool, isCoreFont: bool)
    ensures IsUnicodeMetrics(MetricsName(font, unicodeWanted, isCoreFont)) == (unicodeWanted && !isCoreFont)
  {
    var base := BaseName(font);
    var ext := if !unicodeWanted || isCoreFont then ".afm" else ".ufm";
    var m := base + ext;
    assert m[|m| - 3..] == ext[1..];
    if unicodeWanted && !isCoreFont {
      assert Lower(ext[1..])[0] == 'u';
    } else {
      assert Lower(ext[1..]) == "afm";
    }
  }

  /** An accepted cache entry is loaded and the metrics file is not parsed. */
  lemma AcceptedCacheSkipsParse(fonts: map<string, CacheEntry>, version: int, unicodeWanted: bool,
                                fontcache: string, font: string, isCoreFont: bool, files: FontFiles)
    requires var name := MetricsName(font, unicodeWanted, isCoreFont);
      CacheAccepted(files.cacheFile(CacheDir(fontcache, font) + "/" + name + ".json"), version)
    ensures var r := OpenFontSpec(fonts, version, unicodeWanted, fontcache, font, isCoreFont, files);
      var name := MetricsName(font, unicodeWanted, isCoreFont);
      && r.fonts == fonts[font := files.cacheFile(CacheDir(fontcache, font) + "/" + name + ".json").value]
      && r.parse.None?
  {
  }

  /**
   * A missing or out-of-date cache entry is ignored: a font not loaded yet is
   * parsed from its metrics file when that exists, and nothing happens otherwise.
   */
  lemma RejectedCacheParses(fonts: map<string, CacheEntry>, version: int, unicodeWanted: bool,
                            fontcache: string, font: string, isCoreFont: bool, files: FontFiles)
    requires var name := MetricsName(font, unicodeWanted, isCoreFont);
      !CacheAccepted(files.cacheFile(CacheDir(fontcache, font) + "/" + name + ".json"), version)
    requires font !in fonts
    ensures var r := OpenFontSpec(fonts, version, unicodeWanted, fontcache, font, isCoreFont, files);
      var name := MetricsName(font, unicodeWanted, isCoreFont);
      && r.fonts == fonts
      && r.parse == match files.metricsFile(DirName(font) + "/" + name)
                    case None => None
                    case Some(lines) => Some(ParseLines(InitialState(unicodeWanted && !isCoreFont), lines))
  {
    MetricsNameUnicode(font, unicodeWanted, isCoreFont);
  }

  /** A font already loaded is never parsed again, whatever the cache holds. */
  lemma LoadedFontNotParsed(fonts: map<string, CacheEntry>, version: int, unicodeWanted: bool,
                            fontcache: string, font: string, isCoreFont: bool, files: FontFiles)
    requires font in fonts
    ensures OpenFontSpec(fonts, version, unicodeWanted, fontcache, font, isCoreFont, files).parse.None?
  {
  }

  /** The cache gate only ever adds entries carrying the current version. */
  lemma CachedFontsCurrent(fonts: map<string, CacheEntry>, version: int, font: string, entry: Option<CacheEntry>)
    requires forall f :: f in fonts ==> fonts[f].version == Some(version)
    ensures var r := CachedFonts(fonts, version, font, entry);
      fonts.Keys <= r.Keys && forall f :: f in r ==> r[f].version == Some(version)
  {
  }
}
