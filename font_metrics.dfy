/**
 * The font-metrics loader (openFont in dompdf/dompdf.php): the versioned JSON
 * cache gate and the line parser for AFM/UFM metrics files.
 *
 * The parser is specified line by line on values (ApplyLine, ParseLines over a
 * ParseState) and implemented imperatively (ParseMetrics, ProcessLine,
 * ProcessKeyed, ProcessURecord, DefineFields) over a fixed-length byte array
 * for the CID-to-GID table.
 */
module FontMetrics {
  import opened Common
  import opened PhpStrings

  // ---------------------------------------------------------------- data model

  /** A value of the per-record field table $dtmp: null, one token, or a list of tokens. */
  datatype Field = Null | Token(text: string) | Tokens(items: seq<string>)

  type FieldTable = map<string, Field>

  /** floatval($dtmp['WX']), kept as the field it is computed from. */
  datatype Width = Width(wx: Field)

  /** A key of the width map $data['C']: an integer code or a glyph name. */
  datatype WidthKey = Code(code: int) | Name(name: string)

  /** The value stored for a scalar keyword, or the parts of FontBBox. */
  datatype Meta = Text(text: string) | Parts(parts: seq<string>)

  /** The $data array the parser builds. */
  datatype FontData = FontData(
    isUnicode: bool,
    meta: map<string, Meta>,
    codeToName: map<int, Field>,
    widths: map<WidthKey, Width>,
    missingWidth: Option<Width>)

  /** The TypeErrors PHP 8 raises inside the record handlers. */
  datatype ParseError =
    | IllegalOffsetType        // $data['C'][$n] with an array $n
    | UnsupportedOperandTypes  // $glyph >> 8 with a non-numeric $glyph

  /** $data together with the $cidtogid byte string. */
  datatype ParseState = ParseState(data: FontData, cidToGid: seq<Byte>)

  /** 256 * 256 code points, two bytes each. */
  const CidToGidSize: nat := 256 * 256 * 2

  /** U records with a code point at or above this bound do not touch the table. */
  const LastCode: int := 0xFFFF

  /** The keywords whose trimmed remainder is stored verbatim. */
  const ScalarKeywords: set<string> := {
    "FontName", "FullName", "FamilyName", "PostScriptName", "Weight",
    "ItalicAngle", "IsFixedPitch", "CharacterSet", "UnderlinePosition",
    "UnderlineThickness", "Version", "EncodingScheme", "CapHeight", "XHeight",
    "Ascender", "Descender", "StdHW", "StdVW", "StartCharMetrics",
    "FontHeightOffset" }

  /** The initial fields of a C record and of a U record. */
  const CFields: FieldTable := map["C" := Null, "N" := Null, "WX" := Null, "B" := Tokens([])]
  const UFields: FieldTable := map["G" := Null, "N" := Null, "U" := Null, "WX" := Null]

  /** The table is 131072 bytes for a Unicode font and empty otherwise. */
  predicate Valid(st: ParseState) {
    |st.cidToGid| == if st.data.isUnicode then CidToGidSize else 0
  }

  function InitialState(isUnicode: bool): (st: ParseState)
    ensures Valid(st) && st.data.isUnicode == isUnicode
    ensures forall k :: 0 <= k < |st.cidToGid| ==> st.cidToGid[k] == 0
  {
    ParseState(FontData(isUnicode, map[], map[], map[], None),
               if isUnicode then seq(CidToGidSize, _ => 0) else [])
  }

  // ---------------------------------------------------------------- record fields

  /**
   * One ';'-separated piece of a record, split on spaces: the key and value
   * it defines, if any.
   */
  function FieldOf(words: seq<string>): Option<(string, Field)> {
    if |words| == 0 || |words[0]| == 0 then None
    else if |words| > 2 then Some((words[0], Tokens(words[1..])))
    else if |words| == 2 then Some((words[0], Token(words[1])))
    else None
  }

  predicate Defines(words: seq<string>, k: string) {
    FieldOf(words).Some? && FieldOf(words).value.0 == k
  }

  function Define(m: FieldTable, words: seq<string>): FieldTable {
    match FieldOf(words)
    case None => m
    case Some(kv) => m[kv.0 := kv.1]
  }

  /** The table after processing the pieces in order. */
  function FieldTableOf(init: FieldTable, pieces: seq<seq<string>>): (m: FieldTable)
    ensures init.Keys <= m.Keys
  {
    if pieces == [] then init
    else Define(FieldTableOf(init, pieces[..|pieces| - 1]), pieces[|pieces| - 1])
  }

  /** The pieces of a record row: split on ';', each piece trimmed and split on spaces. */
  function RecordPieces(row: string): (pieces: seq<seq<string>>)
    ensures |pieces| == |Explode(';', Trim(row))|
  {
    var bits := Explode(';', Trim(row));
    seq(|bits|, i requires 0 <= i < |bits| => Explode(' ', Trim(bits[i])))
  }

  /**
   * Every piece of a record has at least one word, no word holds a space, and
   * the words joined with spaces give the trimmed text between separators back.
   */
  lemma RecordPiecesRejoin(row: string)
    ensures var pieces := RecordPieces(row);
      forall i :: 0 <= i < |pieces| ==>
        && |pieces[i]| >= 1
        && (forall j :: 0 <= j < |pieces[i]| ==> ' ' !in pieces[i][j])
        && Implode(' ', pieces[i]) == Trim(Explode(';', Trim(row))[i])
  {
    var bits := Explode(';', Trim(row));
    forall i | 0 <= i < |bits| {
      ImplodeExplode(' ', Trim(bits[i]));
    }
  }

  /** $dtmp for a record row. */
  function RecordFields(init: FieldTable, row: string): (m: FieldTable)
    ensures init.Keys <= m.Keys
  {
    FieldTableOf(init, RecordPieces(row))
  }

  /** A field holds the value given by the last piece that defines it. */
  lemma {:induction false} FieldTableLastDefinition(init: FieldTable, bits: seq<seq<string>>, k: string, i: nat)
    requires i < |bits| && Defines(bits[i], k)
    requires forall j :: i < j < |bits| ==> !Defines(bits[j], k)
    ensures k in FieldTableOf(init, bits)
    ensures FieldTableOf(init, bits)[k] == FieldOf(bits[i]).value.1
  {
    var n := |bits| - 1;
    if i < n {
      FieldTableLastDefinition(init, bits[..n], k, i);
      assert !Defines(bits[n], k);
    }
  }

  /** A field no piece defines keeps its initial value. */
  lemma {:induction false} FieldTableUndefined(init: FieldTable, bits: seq<seq<string>>, k: string)
    requires k in init
    requires forall j :: 0 <= j < |bits| ==> !Defines(bits[j], k)
    ensures FieldTableOf(init, bits)[k] == init[k]
  {
    if bits != [] {
      var n := |bits| - 1;
      FieldTableUndefined(init, bits[..n], k);
      assert !Defines(bits[n], k);
    }
  }

  // ---------------------------------------------------------------- PHP conversions of fields

  /** (int) applied to a field: null is 0, an array is 0 when empty and 1 otherwise. */
  function IntCast(f: Field): (n: int)
    ensures Int64Min <= n <= Int64Max
    ensures f.Null? ==> n == 0
    ensures f.Tokens? ==> (n == 0 <==> f.items == [])
  {
    match f
    case Null => 0
    case Token(s) => StringToInt(s)
    case Tokens(xs) => if xs == [] then 0 else 1
  }

  /** PHP truthiness of a field. */
  predicate Truthy(f: Field) {
    match f
    case Null => false
    case Token(s) => !EmptyString(s)
    case Tokens(xs) => xs != []
  }

  /**
   * The field as the integer operand of >> and &, or the TypeError PHP 8
   * raises for an array or a string that does not start with a number.
   */
  function GlyphNumber(g: Field): (r: Result<int, ParseError>)
    ensures r.Ok? ==> r.value == IntCast(g)
    ensures r.Err? ==> r.error == UnsupportedOperandTypes
    ensures g.Null? ==> r == Ok(0)
    ensures g.Tokens? ==> r.Err?
    ensures g.Token? ==> (r.Ok? <==> LeadingInteger(g.text).Some? || LeadingFraction(g.text))
  {
    match g
    case Null => Ok(0)
    case Tokens(_) => Err(UnsupportedOperandTypes)
    case Token(s) =>
      match LeadingInteger(s)
      case None => if LeadingFraction(s) then Ok(0) else Err(UnsupportedOperandTypes)
      case Some(v) => Ok(ClampInt64(v))
  }

  /** ctype_xdigit($n) && $c == hexdec($n): the name is the code written in hexadecimal. */
  predicate NamesOwnCode(n: Field, c: int) {
    n.Token? && CtypeXdigit(n.text) && c == HexDec(n.text)
  }

  /** The key $data['C'][$n] uses for a string name (decimal integer strings become integers). */
  function NameKey(s: string): WidthKey {
    match IntegerKey(s)
    case Some(i) => Code(i)
    case None => Name(s)
  }

  // ---------------------------------------------------------------- record handling

  /**
   * The width, name and MissingWidth updates a C or U record with code `c`,
   * name `n` and width `w` makes.
   */
  function RegisterGlyph(d: FontData, c: int, n: Field, w: Width): (r: Result<FontData, ParseError>)
    ensures r.Ok? ==> r.value.isUnicode == d.isUnicode && r.value.meta == d.meta
    ensures r.Err? <==> c < 0 && n.Tokens?
    ensures r.Err? ==> r.error == IllegalOffsetType
  {
    var stored :=
      if c >= 0 then
        Ok(d.(codeToName := if NamesOwnCode(n, c) then d.codeToName else d.codeToName[c := n],
              widths := d.widths[Code(c) := w]))
      else
        match n
        case Null => Ok(d)
        case Tokens(_) => Err(IllegalOffsetType)
        case Token(s) => Ok(d.(widths := d.widths[NameKey(s) := w]));
    match stored
    case Err(e) => Err(e)
    case Ok(d1) =>
      Ok(if d1.missingWidth.None? && c == -1 && n == Token(".notdef")
         then d1.(missingWidth := Some(w)) else d1)
  }

  /** chr($glyph >> 8) and chr($glyph & 0xFF). */
  function HighByte(g: int): Byte {
    ((g / 256) % 256) as Byte
  }

  function LowByte(g: int): Byte {
    (g % 256) as Byte
  }

  /** The table with slot `c` set to glyph id `g`, big-endian. */
  function WriteSlot(cid: seq<Byte>, c: nat, g: int): (r: seq<Byte>)
    requires 2 * c + 1 < |cid|
    ensures |r| == |cid|
  {
    cid[2 * c := HighByte(g)][2 * c + 1 := LowByte(g)]
  }

  /** The glyph id slot `k` of the table decodes to. */
  function GlyphAt(cid: seq<Byte>, k: nat): nat
    requires 2 * k + 1 < |cid|
  {
    cid[2 * k] as int * 256 + cid[2 * k + 1] as int
  }

  /** What a C record with fields `dtmp` does to the state. */
  function CGlyph(st: ParseState, dtmp: FieldTable): (r: Result<ParseState, ParseError>)
    requires CFields.Keys <= dtmp.Keys
    ensures r.Ok? ==> r.value.cidToGid == st.cidToGid && r.value.data.isUnicode == st.data.isUnicode
  {
    match RegisterGlyph(st.data, IntCast(dtmp["C"]), dtmp["N"], Width(dtmp["WX"]))
    case Err(e) => Err(e)
    case Ok(d) => Ok(st.(data := d))
  }

  function CRecord(st: ParseState, row: string): (r: Result<ParseState, ParseError>)
    ensures r.Ok? ==> r.value.cidToGid == st.cidToGid && r.value.data.isUnicode == st.data.isUnicode
  {
    CGlyph(st, RecordFields(CFields, row))
  }

  /** The code point of a U record and whether it writes its table slot. */
  function UCode(dtmp: FieldTable): int
    requires UFields.Keys <= dtmp.Keys
  {
    IntCast(dtmp["U"])
  }

  predicate WritesSlot(dtmp: FieldTable)
    requires UFields.Keys <= dtmp.Keys
  {
    0 <= UCode(dtmp) < LastCode && Truthy(dtmp["G"])
  }

  /** What a U record with fields `dtmp` does to the state. */
  function UGlyph(st: ParseState, dtmp: FieldTable): (r: Result<ParseState, ParseError>)
    requires Valid(st) && st.data.isUnicode && UFields.Keys <= dtmp.Keys
    ensures r.Ok? ==> Valid(r.value) && r.value.data.isUnicode
    ensures r.Err? <==> (WritesSlot(dtmp) && GlyphNumber(dtmp["G"]).Err?) || (UCode(dtmp) < 0 && dtmp["N"].Tokens?)
  {
    var c := UCode(dtmp);
    var w := Width(dtmp["WX"]);
    if WritesSlot(dtmp) then
      match GlyphNumber(dtmp["G"])
      case Err(e) => Err(e)
      case Ok(g) =>
        match RegisterGlyph(st.data, c, dtmp["N"], w)
        case Err(e) => Err(e)
        case Ok(d) => Ok(ParseState(d, WriteSlot(st.cidToGid, c, g)))
    else
      match RegisterGlyph(st.data, c, dtmp["N"], w)
      case Err(e) => Err(e)
      case Ok(d) => Ok(st.(data := d))
  }

  /** A U record row: the slot its code point names gets its glyph id, and no other byte changes. */
  function URecord(st: ParseState, row: string): (r: Result<ParseState, ParseError>)
    requires Valid(st) && st.data.isUnicode
    ensures r.Ok? ==> Valid(r.value) && r.value.data.isUnicode
    ensures var dtmp := RecordFields(UFields, row);
      r.Ok? && WritesSlot(dtmp) ==>
        GlyphNumber(dtmp["G"]).Ok? && r.value.cidToGid == WriteSlot(st.cidToGid, UCode(dtmp), GlyphNumber(dtmp["G"]).value)
    ensures var dtmp := RecordFields(UFields, row);
      r.Ok? && !WritesSlot(dtmp) ==> r.value.cidToGid == st.cidToGid
    ensures var dtmp := RecordFields(UFields, row);
      r.Err? <==> (WritesSlot(dtmp) && GlyphNumber(dtmp["G"]).Err?) || (UCode(dtmp) < 0 && dtmp["N"].Tokens?)
  {
    UGlyph(st, RecordFields(UFields, row))
  }

  // ---------------------------------------------------------------- line dispatch

  /** The keyword of a line: the trimmed line up to its first space, if it has one past position 0. */
  function LineKey(line: string): Option<string> {
    var row := Trim(line);
    match StrPos(row, ' ')
    case None => None
    case Some(pos) => if pos == 0 then None else Some(row[..pos])
  }

  /** The trimmed text after the keyword. */
  function LineRest(line: string): string
    requires LineKey(line).Some?
  {
    var row := Trim(line);
    Trim(row[StrPos(row, ' ').value..])
  }

  function SetMeta(st: ParseState, key: string, v: Meta): ParseState {
    st.(data := st.data.(meta := st.data.meta[key := v]))
  }

  /** The loop body for a line with keyword `key`, remainder `rest` and trimmed text `row`. */
  function ApplyKeyed(st: ParseState, key: string, rest: string, row: string): (r: Result<ParseState, ParseError>)
    requires Valid(st)
    ensures r.Ok? ==> Valid(r.value) && r.value.data.isUnicode == st.data.isUnicode
  {
    if key in ScalarKeywords then Ok(SetMeta(st, key, Text(rest)))
    else if key == "FontBBox" then Ok(SetMeta(st, key, Parts(Explode(' ', rest))))
    else if key == "C" then CRecord(st, row)
    else if key == "U" then (if st.data.isUnicode then URecord(st, row) else Ok(st))
    else Ok(st)
  }

  /** One pass of the parser's loop body. */
  function ApplyLine(st: ParseState, line: string): (r: Result<ParseState, ParseError>)
    requires Valid(st)
    ensures r.Ok? ==> Valid(r.value) && r.value.data.isUnicode == st.data.isUnicode
  {
    match LineKey(line)
    case None => Ok(st)
    case Some(key) => ApplyKeyed(st, key, LineRest(line), Trim(line))
  }

  /** The whole loop: the lines in order, stopping at the first TypeError. */
  function ParseLines(st: ParseState, lines: seq<string>): (r: Result<ParseState, ParseError>)
    requires Valid(st)
    ensures r.Ok? ==> Valid(r.value) && r.value.data.isUnicode == st.data.isUnicode
    decreases |lines|
  {
    if lines == [] then Ok(st)
    else
      match ApplyLine(st, lines[0])
      case Err(e) => Err(e)
      case Ok(st1) => ParseLines(st1, lines[1..])
  }

  lemma ParseLinesStep(st: ParseState, lines: seq<string>)
    requires Valid(st) && lines != []
    ensures ParseLines(st, lines) ==
            match ApplyLine(st, lines[0])
            case Err(e) => Err(e)
            case Ok(st1) => ParseLines(st1, lines[1..])
  {
  }

  // ---------------------------------------------------------------- metrics file names and the cache gate

  /** The metrics file name: ".afm" unless Unicode is wanted and the font is not a core font. */
  function MetricsName(font: string, unicodeWanted: bool, isCoreFont: bool): string {
    BaseName(font) + (if !unicodeWanted || isCoreFont then ".afm" else ".ufm")
  }

  /** strtolower(substr($metrics_name, -3)) !== 'afm'. */
  predicate IsUnicodeMetrics(metricsName: string) {
    var tail := if |metricsName| >= 3 then metricsName[|metricsName| - 3..] else metricsName;
    Lower(tail) != "afm"
  }

  /** A decoded cache file: its `_version_` entry, if set, and the rest of its content. */
  datatype CacheEntry = CacheEntry(version: Option<int>, payload: string)

  /** The files openFont reads: a cache file, if it exists, and the lines of a metrics file, if it exists. */
  datatype FontFiles = FontFiles(
    cacheFile: string -> Option<CacheEntry>,
    metricsFile: string -> Option<seq<string>>)

  /** A cache file is reused only if it exists and its version is the current one. */
  predicate CacheAccepted(entry: Option<CacheEntry>, version: int) {
    entry.Some? && entry.value.version == Some(version)
  }

  function CacheDir(fontcache: string, font: string): string {
    if fontcache == "" then DirName(font) else fontcache
  }

  /** What openFont does to $this->fonts and what its parse produces, if it parses. */
  datatype OpenResult = OpenResult(
    fonts: map<string, CacheEntry>,
    parse: Option<Result<ParseState, ParseError>>)

  /** $this->fonts after the cache gate: an accepted cache entry is loaded under the font's name. */
  function CachedFonts(fonts: map<string, CacheEntry>, version: int, font: string,
                       entry: Option<CacheEntry>): map<string, CacheEntry>
  {
    if CacheAccepted(entry, version) then fonts[font := entry.value] else fonts
  }

  /** The parse of the metrics file, done only for a font not loaded yet whose metrics file exists. */
  function MaybeParse(fonts: map<string, CacheEntry>, font: string, metrics: Option<seq<string>>,
                      isUnicode: bool): Option<Result<ParseState, ParseError>>
  {
    if font in fonts then None
    else
      match metrics
      case None => None
      case Some(lines) => Some(ParseLines(InitialState(isUnicode), lines))
  }

  /** openFont: the cache gate, then the parse for a font still not loaded. */
  function OpenFontSpec(fonts: map<string, CacheEntry>, version: int, unicodeWanted: bool,
                        fontcache: string, font: string, isCoreFont: bool, files: FontFiles): (r: OpenResult)
    ensures fonts.Keys <= r.fonts.Keys
    ensures r.parse.Some? ==> font !in r.fonts && font !in fonts
  {
    var metricsName := MetricsName(font, unicodeWanted, isCoreFont);
    var fonts1 := CachedFonts(fonts, version, font,
                              files.cacheFile(CacheDir(fontcache, font) + "/" + metricsName + ".json"));
    OpenResult(fonts1, MaybeParse(fonts1, font, files.metricsFile(DirName(font) + "/" + metricsName),
                                  IsUnicodeMetrics(metricsName)))
  }

  // ---------------------------------------------------------------- the imperative parser

  /** The parse outcome openFont's caller sees. */
  datatype FontOutcome = NotParsed | Parsed(data: FontData) | ParseFailed(error: ParseError)

  /** The foreach over the pieces of a record: defines each field in turn. */
  method DefineFields(init: FieldTable, pieces: seq<seq<string>>) returns (dtmp: FieldTable)
    ensures dtmp == FieldTableOf(init, pieces)
  {
    dtmp := init;
    var i := 0;
    while i < |pieces|
      invariant 0 <= i <= |pieces|
      invariant dtmp == FieldTableOf(init, pieces[..i])
    {
      var words := pieces[i];
      if |words| != 0 && |words[0]| != 0 {
        if |words| > 2 {
          dtmp := dtmp[words[0] := Tokens(words[1..])];
        } else if |words| == 2 {
          dtmp := dtmp[words[0] := Token(words[1])];
        }
      }
      assert pieces[..i + 1][..i] == pieces[..i];
      i := i + 1;
    }
    assert pieces[..|pieces|] == pieces;
  }

  /** $cidtogid[$c * 2] and $cidtogid[$c * 2 + 1]: the glyph id big-endian in place. */
  method WriteGlyphSlot(cid: array<Byte>, c: nat, g: int)
    requires 2 * c + 1 < cid.Length
    modifies cid
    ensures cid[..] == WriteSlot(old(cid[..]), c, g)
  {
    cid[2 * c] := HighByte(g);
    cid[2 * c + 1] := LowByte(g);
  }

  /** A U record: writes its table slot in place, then registers the glyph. */
  method ProcessURecord(data: FontData, cid: array<Byte>, row: string) returns (r: Result<FontData, ParseError>)
    requires Valid(ParseState(data, cid[..])) && data.isUnicode
    modifies cid
    ensures match URecord(ParseState(data, old(cid[..])), row)
            case Ok(st) => r == Ok(st.data) && cid[..] == st.cidToGid
            case Err(e) => r == Err(e)
  {
    var dtmp := DefineFields(UFields, RecordPieces(row));
    assert URecord(ParseState(data, old(cid[..])), row) == UGlyph(ParseState(data, old(cid[..])), dtmp);
    r := ProcessUFields(data, cid, dtmp);
  }

  /** The U record's fields: the slot write in place, then the glyph registration. */
  method ProcessUFields(data: FontData, cid: array<Byte>, dtmp: FieldTable) returns (r: Result<FontData, ParseError>)
    requires Valid(ParseState(data, cid[..])) && data.isUnicode && UFields.Keys <= dtmp.Keys
    modifies cid
    ensures match UGlyph(ParseState(data, old(cid[..])), dtmp)
            case Ok(st) => r == Ok(st.data) && cid[..] == st.cidToGid
            case Err(e) => r == Err(e)
  {
    var c := IntCast(dtmp["U"]);
    if c >= 0 && c < LastCode && Truthy(dtmp["G"]) {
      var g := GlyphNumber(dtmp["G"]);
      if g.Err? {
        return Err(g.error);
      }
      WriteGlyphSlot(cid, c, g.value);
    }
    r := RegisterGlyph(data, c, dtmp["N"], Width(dtmp["WX"]));
  }

  /** The dispatch on the keyword of a line. */
  method ProcessKeyed(data: FontData, cid: array<Byte>, key: string, rest: string, row: string)
    returns (r: Result<FontData, ParseError>)
    requires Valid(ParseState(data, cid[..]))
    modifies cid
    ensures match ApplyKeyed(ParseState(data, old(cid[..])), key, rest, row)
            case Ok(st) => r == Ok(st.data) && cid[..] == st.cidToGid
            case Err(e) => r == Err(e)
  {
    if key in ScalarKeywords {
      r := Ok(data.(meta := data.meta[key := Text(rest)]));
    } else if key == "FontBBox" {
      r := Ok(data.(meta := data.meta[key := Parts(Explode(' ', rest))]));
    } else if key == "C" {
      var dtmp := DefineFields(CFields, RecordPieces(row));
      r := RegisterGlyph(data, IntCast(dtmp["C"]), dtmp["N"], Width(dtmp["WX"]));
    } else if key == "U" {
      if !data.isUnicode {
        return Ok(data);
      }
      r := ProcessURecord(data, cid, row);
    } else {
      // KPX and every other keyword are dropped
      r := Ok(data);
    }
  }

  /** One line: updates $data and writes the table in place. */
  method ProcessLine(data: FontData, cid: array<Byte>, line: string) returns (r: Result<FontData, ParseError>)
    requires Valid(ParseState(data, cid[..]))
    modifies cid
    ensures match ApplyLine(ParseState(data, old(cid[..])), line)
            case Ok(st) => r == Ok(st.data) && cid[..] == st.cidToGid
            case Err(e) => r == Err(e)
  {
    var row := Trim(line);
    var pos := StrPos(row, ' ');
    if pos.None? || pos.value == 0 {
      return Ok(data);
    }
    var key := row[..pos.value];
    var rest := Trim(row[pos.value..]);
    assert LineKey(line) == Some(key) && LineRest(line) == rest;
    r := ProcessKeyed(data, cid, key, rest, row);
  }

  /** The parser's loop over the lines of a metrics file. */
  method ParseMetrics(lines: seq<string>, isUnicode: bool) returns (r: Result<FontData, ParseError>, cidtogid: array<Byte>)
    ensures fresh(cidtogid)
    ensures match ParseLines(InitialState(isUnicode), lines)
            case Ok(st) => r == Ok(st.data) && cidtogid[..] == st.cidToGid
            case Err(e) => r == Err(e)
  {
    var data := InitialState(isUnicode).data;
    if isUnicode {
      cidtogid := new Byte[CidToGidSize](_ => 0);
    } else {
      cidtogid := new Byte[0];
    }
    ghost var spec := ParseLines(InitialState(isUnicode), lines);
    assert ParseState(data, cidtogid[..]) == InitialState(isUnicode);
    assert lines[0..] == lines;
    assert spec == ParseLines(ParseState(data, cidtogid[..]), lines[0..]);
    var i := 0;
    while i < |lines|
      invariant 0 <= i <= |lines|
      invariant Valid(ParseState(data, cidtogid[..]))
      invariant spec == ParseLines(ParseState(data, cidtogid[..]), lines[i..])
    {
      ghost var st := ParseState(data, cidtogid[..]);
      ParseLinesStep(st, lines[i..]);
      assert lines[i..][0] == lines[i] && lines[i..][1..] == lines[i + 1..];
      var res := ProcessLine(data, cidtogid, lines[i]);
      if res.Err? {
        return Err(res.error), cidtogid;
      }
      data := res.value;
      assert spec == ParseLines(ParseState(data, cidtogid[..]), lines[i + 1..]);
      i := i + 1;
    }
    r := Ok(data);
  }

  /** The outcome and table a caller sees report the parse, if one was made. */
  ghost predicate Reports(parse: Option<Result<ParseState, ParseError>>, outcome: FontOutcome, cid: array<Byte>)
    reads cid
  {
    match parse
    case None => outcome == NotParsed
    case Some(Ok(st)) => outcome == Parsed(st.data) && cid[..] == st.cidToGid
    case Some(Err(e)) => outcome == ParseFailed(e)
  }

  /** The parse of the metrics file, run only for a font not loaded yet whose metrics file exists. */
  method ParseUnlessLoaded(fonts: map<string, CacheEntry>, font: string, metrics: Option<seq<string>>, isUnicode: bool)
    returns (outcome: FontOutcome, cidtogid: array<Byte>)
    ensures fresh(cidtogid) && Reports(MaybeParse(fonts, font, metrics, isUnicode), outcome, cidtogid)
  {
    outcome := NotParsed;
    cidtogid := new Byte[0];
    if font !in fonts && metrics.Some? {
      ghost var pr := ParseLines(InitialState(isUnicode), metrics.value);
      var r;
      r, cidtogid := ParseMetrics(metrics.value, isUnicode);
      if r.Ok? {
        outcome := Parsed(r.value);
        assert pr.Ok? && outcome == Parsed(pr.value.data) && cidtogid[..] == pr.value.cidToGid;
      } else {
        outcome := ParseFailed(r.error);
        assert pr.Err? && outcome == ParseFailed(pr.error);
      }
    }
  }

  /** The font loader: owns $this->fonts and the settings openFont reads. */
  class FontLoader {
    var fonts: map<string, CacheEntry>
    const fontcacheVersion: int
    const isUnicode: bool
    const fontcache: string

    /** Every loaded entry carries the current cache version. */
    ghost predicate Valid()
      reads this
    {
      forall f :: f in fonts ==> fonts[f].version == Some(fontcacheVersion)
    }

    constructor (version: int, unicode: bool, cacheDir: string)
      ensures Valid() && fonts == map[]
      ensures fontcacheVersion == version && isUnicode == unicode && fontcache == cacheDir
    {
      fonts := map[];
      fontcacheVersion := version;
      isUnicode := unicode;
      fontcache := cacheDir;
    }

    /**
     * openFont($font): reuses an up-to-date cache entry, and otherwise parses the
     * metrics file if it exists. The parse result is handed back, not stored.
     */
    method OpenFont(font: string, isCoreFont: bool, files: FontFiles) returns (outcome: FontOutcome, cidtogid: array<Byte>)
      requires Valid()
      modifies this
      ensures Valid() && fresh(cidtogid)
      ensures var spec := OpenFontSpec(old(fonts), fontcacheVersion, isUnicode, fontcache, font, isCoreFont, files);
        fonts == spec.fonts && Reports(spec.parse, outcome, cidtogid)
    {
      var metricsName := MetricsName(font, isUnicode, isCoreFont);
      var entry := files.cacheFile(CacheDir(fontcache, font) + "/" + metricsName + ".json");
      if entry.Some? {
        if entry.value.version.None? || entry.value.version.value != fontcacheVersion {
          // out of date: regenerate
        } else {
          fonts := fonts[font := entry.value];
        }
      }
      assert fonts == CachedFonts(old(fonts), fontcacheVersion, font, entry);
      outcome, cidtogid := ParseUnlessLoaded(fonts, font, files.metricsFile(DirName(font) + "/" + metricsName),
                                             IsUnicodeMetrics(metricsName));
    }
  }
}
