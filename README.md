# dompdf font metrics loading and image URL resolution, modelled in Dafny

This project models two routines of dompdf (`dompdf/dompdf.php`):

- **`openFont($font)`** loads the metrics of a font. It picks the metrics file
  name (`.afm`, or `.ufm` for a Unicode font that is not a core font), reuses
  a JSON cache file when its `_version_` is the current one, and otherwise
  parses the AFM/UFM metrics file line by line. Each line goes through a
  keyword switch: scalar keywords, `FontBBox`, `C` records, `U` records and
  `KPX`. A Unicode font also gets a 131072-byte CID-to-GID table that
  `U` records write big-endian glyph ids into.
- **`resolve_url($url, $protocol, $host, $base_path, $options)`** turns an
  image reference into a local file. It builds the full URL and checks it
  against the allowed protocols and their rules (data: URIs skip this
  check). It then uses `file://` images in place, serves other URLs from the
  static cache, or downloads or decodes them into a temporary file that it
  caches. The image must be readable, non-empty and of a known type. An SVG
  image has its `<image>` references resolved in turn: a self-reference, or
  a reference that comes back with a message, rejects it. On any
  `ImageException` the routine removes the temporary file and returns the
  broken image with the configured error message. It caches the broken
  image under the full URL.

Modules:

- `Common`: `Option`, `Result` and a `Byte` type.
- `PhpStrings`: the PHP built-ins the routines rely on, with PHP 8
  semantics where it matters: `trim`, `explode`/`implode`, `strpos`,
  `strtolower`, `empty()`, `ctype_xdigit`, `hexdec`, `(int)` on strings,
  array-key normalisation of decimal strings, `basename`/`dirname`.
- `FontMetrics`: openFont. Each loop step is specified by a function on
  values (`ApplyLine`, `ParseLines`, `OpenFontSpec`). The imperative methods
  (`ParseMetrics` and `ProcessLine` over an `array<Byte>` CID-to-GID table,
  and `FontLoader.OpenFont` on the `fonts` map field) are proved equal to
  those functions.
- `ImageResolution`: resolve_url. The same pattern: `Resolve`, `Try`, `Scan`
  and `VisitUrls` specify it over a `World` (the static cache and the file
  operations done so far). The `ImageCache` class and its methods implement
  it and are proved equal to those functions.
- `FontMetricsProperties` and `ImageResolutionProperties`: the lemmas.

Other PHP code that the routines call becomes a parameter, and the model
assumes nothing about it:

- In openFont: the content of the JSON cache file and of the metrics file
  (`FontFiles`).
- In resolve_url: `Helpers::build_url`, `explode_url`, `parse_data_uri`,
  `getFileContent` and `dompdf_getimagesize`; `tempnam`, `file_put_contents`,
  `is_readable` and `filesize`; and the start-element events of the XML
  parser (`Host`).

The `Helpers` class and the `Options` class are not part of this model.

## Model

| member | source | states |
|---|---|---|
| `PhpStrings.Trim` | dompdf/dompdf.php:195 | the trimmed line is no longer than the line and neither starts nor ends with a trim character |
| `PhpStrings.TrimIsInfix` | dompdf/dompdf.php:195 | trim removes exactly a run of trim characters at each end and keeps the middle of the line |
| `PhpStrings.TrimIdempotent` | dompdf/dompdf.php:231 | trimming the already trimmed row again (as the C and U records do) changes nothing |
| `PhpStrings.TrimEndsCommute` | dompdf/dompdf.php:195 | trimming the left end and the right end can be done in either order |
| `PhpStrings.TrimOfTrimRight` | dompdf/dompdf.php:222 | trimming the remainder of a right-trimmed row is trimming the original remainder |
| `PhpStrings.Explode` | dompdf/dompdf.php:231 | explode yields at least one piece, and no piece holds the separator |
| `PhpStrings.ImplodeExplode` | dompdf/dompdf.php:231 | joining the pieces of explode with the separator gives the string back |
| `PhpStrings.ExplodeImplode` | dompdf/dompdf.php:235 | exploding a join of separator-free pieces gives the pieces back |
| `PhpStrings.ExplodeAppend` | dompdf/dompdf.php:231 | a separator-free prefix followed by the separator is the first piece, and the rest explodes on its own |
| `PhpStrings.StrPos` | dompdf/dompdf.php:196 | no result exactly when the character is absent; otherwise the index of its first occurrence |
| `PhpStrings.HexDec` | dompdf/dompdf.php:257 | a string without any hexadecimal digit reads as 0 |
| `PhpStrings.HexDecToHex` | dompdf/dompdf.php:257 | hexdec of the hexadecimal form of a code is the code |
| `PhpStrings.Lower` | dompdf/dompdf.php:17 | strtolower keeps the length, leaves no capital ASCII letter and changes no other character |
| `PhpStrings.LowerIdempotent` | dompdf/dompdf.php:17 | strtolower is idempotent: lower-casing the already lower-cased protocol again changes nothing |
| `PhpStrings.StringToInt` | dompdf/dompdf.php:252 | `LeadingInteger`: `(int)` of a string is a 64-bit integer, and 0 when the string has no leading integer |
| `PhpStrings.StringToIntOfDecimal` | dompdf/dompdf.php:252 | `(int)` of the decimal form of a 64-bit integer is that integer |
| `PhpStrings.IntegerKeyIff` | dompdf/dompdf.php:262 | a glyph name is stored as an integer array key exactly when it is the canonical decimal form of that integer |
| `PhpStrings.BaseName` | dompdf/dompdf.php:140 | the base name of a font path, taken after its trailing slashes are stripped, holds no slash |
| `PhpStrings.DirName` | dompdf/dompdf.php:141 | the directory of a non-empty path is non-empty, and is either `/` or ends in something other than a slash |
| `PhpStrings.TrailingSlashIgnored` | dompdf/dompdf.php:140-141 | a trailing slash changes neither the base name nor the directory of a non-empty path |
| `PhpStrings.DirNameBaseName` | dompdf/dompdf.php:140-141 | for a path whose last slash is single and neither at the front nor at the end, directory, slash and base name give the path back |
| `PhpStrings.DoubledSlashDropped` | dompdf/dompdf.php:140-141 | all the slashes before the last component are dropped: `d//b` has directory `d` and base name `b` |
| `FontMetrics.InitialState` | dompdf/dompdf.php:185-190 | the initial data has the font's Unicode flag, and a Unicode font's table starts as 131072 zero bytes |
| `FontMetrics.FieldTableLastDefinition` | dompdf/dompdf.php:234-250 | a record field holds the value of the last piece that defines it |
| `FontMetrics.FieldTableUndefined` | dompdf/dompdf.php:232 | a record field that no piece defines keeps its initial value |
| `FontMetrics.GlyphNumber` | dompdf/dompdf.php:305-307 | the glyph id operand of `>>` and `&` is `(int)` of the field when PHP accepts it: a missing field is 0, and a string is accepted exactly when it starts with an integer (`LeadingInteger`) or a bare fraction (`LeadingFraction`); an array, or any other string, raises Unsupported operand types |
| `FontMetrics.RegisterGlyph` | dompdf/dompdf.php:256-267 | a glyph registration changes neither the Unicode flag nor the scalar metrics, and raises Illegal offset type exactly when the code is negative and the name is an array |
| `FontMetrics.FieldTableOf` | dompdf/dompdf.php:234-250 | folding a record's pieces into its field table keeps every field the table starts with; see `FieldTableLastDefinition` and `FieldTableUndefined` for the values |
| `FontMetrics.RecordPiecesRejoin` | dompdf/dompdf.php:231-235 | `RecordPieces`: every piece of a record has a word, no word holds a space, and the words joined by spaces give back the trimmed text between two separators |
| `FontMetrics.IntCast` | dompdf/dompdf.php:252 | `(int)` of a record field, the C code here and the U code point alike, is a 64-bit integer: 0 for a missing field, and for a list 0 exactly when it is empty |
| `FontMetrics.CGlyph` | dompdf/dompdf.php:252-267 | the glyph step of a C record never touches the table and keeps the Unicode flag |
| `FontMetrics.CRecord` | dompdf/dompdf.php:229-268 | a C record never touches the table and keeps the Unicode flag |
| `FontMetrics.UGlyph` | dompdf/dompdf.php:298-320 | a U record keeps the state valid (the table at its size) and the font Unicode; it raises exactly when it writes its slot (`WritesSlot`: code point in [0, 0xFFFF) and a `Truthy` G) and G is not a number to PHP, or when the code point is negative and the name is an array |
| `FontMetrics.URecord` | dompdf/dompdf.php:277-320 | a U record row writes the glyph id into the slot its code point names exactly when the code point is in [0, 0xFFFF) and G is truthy, and otherwise leaves the table unchanged; the table keeps its size and the font stays Unicode; the row raises exactly when the U record's fields do |
| `FontMetrics.ApplyKeyed` | dompdf/dompdf.php:201-330 | every keyword keeps the state valid and the Unicode flag |
| `FontMetrics.ApplyLine` | dompdf/dompdf.php:195-331 | every line keeps the state valid and the Unicode flag |
| `FontMetrics.ParseLines` | dompdf/dompdf.php:194-331 | the whole parse keeps the table's size and the Unicode flag |
| `FontMetrics.OpenFontSpec` | dompdf/dompdf.php:165-192 | the cache gate never drops a loaded font, and the metrics file is parsed only for a font neither loaded before nor by the gate |
| `FontMetrics.DefineFields` | dompdf/dompdf.php:234-250 | the record's foreach defines the fields piece by piece, giving the record's field table |
| `FontMetrics.WriteGlyphSlot` | dompdf/dompdf.php:305-307 | the two in-place byte writes give the table with the slot written |
| `FontMetrics.ProcessURecord` | dompdf/dompdf.php:272-322 | a U record changes the data and the table bytes in place as the U record function says, or raises its TypeError |
| `FontMetrics.ProcessUFields` | dompdf/dompdf.php:298-320 | the U record's fields change the data and the table bytes in place as the U record function on those fields says, or raise its TypeError |
| `FontMetrics.ProcessKeyed` | dompdf/dompdf.php:201-330 | the keyword switch changes the data and the table as the dispatch function says |
| `FontMetrics.ProcessLine` | dompdf/dompdf.php:195-332 | one line changes the data and the table as the line function says, or raises its TypeError |
| `FontMetrics.ParseMetrics` | dompdf/dompdf.php:178-333 | the parser returns the data and a fresh table equal to the parse of all lines, or the first TypeError |
| `FontMetrics.ParseUnlessLoaded` | dompdf/dompdf.php:175-192 | the parse runs only for a font not loaded yet whose metrics file exists; the outcome and a fresh table report that parse |
| `FontMetrics.FontLoader.OpenFont` | dompdf/dompdf.php:137-334 | the fonts map becomes the cache gate's result and every entry stays at the current cache version; the returned outcome and fresh table report the parse exactly when the gate leaves the font unloaded and its metrics file exists |
| `FontMetricsProperties.LineKeyIsFirstWord` | dompdf/dompdf.php:195-200 | `LineKey`: a line has a keyword exactly when its trimmed text has a space; the keyword is the non-empty text before the first space (`LineRest` is the text after it, see `KeywordLine`) |
| `FontMetricsProperties.KeywordLine` | dompdf/dompdf.php:195-200 | `LineKey`, `LineRest`: for a keyword followed by a space and a value, the keyword is that word and the remainder is the trimmed value |
| `FontMetricsProperties.ScalarLineStored` | dompdf/dompdf.php:202-223 | each of the twenty scalar keywords stores its trimmed value, and nothing else changes |
| `FontMetricsProperties.FontBBoxLineStored` | dompdf/dompdf.php:225-227 | FontBBox stores its value split on spaces |
| `FontMetricsProperties.UnlistedKeywordKeepsState` | dompdf/dompdf.php:324-330 | KPX and every keyword the switch does not list leave the state unchanged |
| `FontMetricsProperties.DroppedLinesKeepState` | dompdf/dompdf.php:196-198 | a line without a keyword (no space, or one only at the start) or with an unlisted keyword changes nothing |
| `FontMetricsProperties.URecordsIgnoredWithoutUnicode` | dompdf/dompdf.php:272-275 | U records are ignored when the metrics file is not a Unicode one |
| `FontMetricsProperties.GlyphByCode` | dompdf/dompdf.php:256-260 | `NamesOwnCode` (`CtypeXdigit` and `HexDec`): a non-negative code always stores its width under the code, and records the name unless the name is the code in hexadecimal |
| `FontMetricsProperties.HexNamedGlyphKeepsNames` | dompdf/dompdf.php:257-259 | a glyph named by its own code in hexadecimal adds no name entry |
| `FontMetricsProperties.GlyphByName` | dompdf/dompdf.php:261-263 | `NameKey`: a negative code stores the width under the (key-normalised) name and records no name |
| `FontMetricsProperties.GlyphByListName` | dompdf/dompdf.php:261-262 | a negative code whose name field has several words raises Illegal offset type |
| `FontMetricsProperties.GlyphWithoutName` | dompdf/dompdf.php:261 | a negative code without a name changes nothing |
| `FontMetricsProperties.MissingWidthRule` | dompdf/dompdf.php:265-267 | MissingWidth is set once, by the first record with code -1 named .notdef |
| `FontMetricsProperties.CRecordWithoutCode` | dompdf/dompdf.php:232-260 | a C record with no C field counts as code 0 and stores its width there |
| `FontMetricsProperties.TrimPadded` | dompdf/dompdf.php:235 | a record piece padded with spaces trims to its content |
| `FontMetricsProperties.ExplodePair` | dompdf/dompdf.php:235 | a field piece splits into its key and its value |
| `FontMetricsProperties.CRowPieces` | dompdf/dompdf.php:230-235 | a C record of code, width and name, each field padded by spaces between `;` separators, splits into its three fields and a trailing empty piece |
| `FontMetricsProperties.CRowFields` | dompdf/dompdf.php:230-250 | `RecordFields`: such a record defines exactly its code, width and name, and its bounding box stays the empty list |
| `FontMetricsProperties.CRecordExample` | dompdf/dompdf.php:230-260 | `C 65 ; WX 722 ; N A ;` gives code 65 width 722 and the name A, since A is not 65 in hexadecimal |
| `FontMetricsProperties.CBoxRowFields` | dompdf/dompdf.php:230-250 | a C record with a four-word bounding box defines its code, width and name, and B holds the list of the four words |
| `FontMetricsProperties.CBoxRecordExample` | dompdf/dompdf.php:229-260 | the format's own row `C 39 ; WX 222 ; N quoteright ; B 53 463 157 718 ;` gives B the list 53, 463, 157, 718, and code 39 width 222 and the name quoteright, with the table untouched |
| `FontMetricsProperties.URowFields` | dompdf/dompdf.php:277-296 | `RecordFields`: a well-formed U record row defines exactly its code point, width, name and glyph id |
| `FontMetricsProperties.ThreeDigits` | dompdf/dompdf.php:298 | `(int)` of a three-digit string is its decimal value |
| `FontMetricsProperties.URecordExample` | dompdf/dompdf.php:271-320 | `U 827 ; WX 0 ; N squaresubnosp ; G 675 ;` puts glyph 675 into slot 827 of the table, stores width 0 under code 827 and records the name |
| `FontMetricsProperties.FractionGlyphReadsZero` | dompdf/dompdf.php:305-307 | a glyph id written as a bare fraction, with or without a sign (`.5`, `-.5`), is a number to PHP and reads as 0, not a TypeError |
| `FontMetrics.WriteSlot` | dompdf/dompdf.php:305-307 | writing a glyph id keeps the table's size |
| `FontMetricsProperties.WriteSlotSetsOneSlot` | dompdf/dompdf.php:305-308 | `WriteSlot`: writing a glyph id stores it big-endian modulo 65536 in its two bytes and changes no other byte |
| `FontMetricsProperties.CGlyphFrame` | dompdf/dompdf.php:252-267 | a C record does not touch the table and keeps a MissingWidth already set |
| `FontMetricsProperties.UGlyphFrame` | dompdf/dompdf.php:298-320 | `WritesSlot`, `Truthy`: a U record with code point in [0, 0xFFFF) and a truthy G writes G's integer value big-endian into exactly that slot; any other U record leaves the table as it was; a MissingWidth already set stays |
| `FontMetricsProperties.ApplyKeyedFrame` | dompdf/dompdf.php:201-330 | only a U record of a Unicode font writes the table, exactly as the U record says; every other keyword leaves it as it was; a MissingWidth already set stays |
| `FontMetricsProperties.KeyedKeepsTable` | dompdf/dompdf.php:201-330 | every keyword but a U record of a Unicode font leaves the table as it was and keeps a MissingWidth already set |
| `FontMetricsProperties.ApplyLineFrame` | dompdf/dompdf.php:195-331 | the same for any line |
| `FontMetricsProperties.LineKeepsSlot` | dompdf/dompdf.php:194-332 | a line that does not write code point k keeps the two bytes of slot k |
| `FontMetricsProperties.LineSetsSlot` | dompdf/dompdf.php:305-307 | a line that writes code point k leaves slot k holding its glyph id modulo 65536 |
| `FontMetricsProperties.UnwrittenSlotKept` | dompdf/dompdf.php:194-332 | over the whole parse, a slot that no line writes keeps its two bytes |
| `FontMetricsProperties.LastWriteWins` | dompdf/dompdf.php:194-332 | when several lines write code point k, the slot ends with the glyph id of the last of them, modulo 65536 |
| `FontMetricsProperties.UnnamedCodePointUnmapped` | dompdf/dompdf.php:187-332 | after a parse from the initial table, a code point (0xFFFF included) that no U line writes maps to glyph 0 |
| `FontMetricsProperties.ParseLinesFrame` | dompdf/dompdf.php:194-331 | the whole parse keeps the table's size, a MissingWidth once set, and the bytes of code point 0xFFFF, which no line writes |
| `FontMetricsProperties.MetricsNameUnicode` | dompdf/dompdf.php:156-185 | `MetricsName`, `IsUnicodeMetrics`: the metrics file is a Unicode one exactly when Unicode is on and the font is not a core font |
| `FontMetricsProperties.AcceptedCacheSkipsParse` | dompdf/dompdf.php:165-175 | `CacheDir`: a current cache file is loaded under the font's name and nothing is parsed |
| `FontMetricsProperties.RejectedCacheParses` | dompdf/dompdf.php:165-192 | `CacheAccepted`, `MaybeParse`: a missing or outdated cache file leaves the fonts map alone and the metrics file, if present, is parsed from the initial state |
| `FontMetricsProperties.LoadedFontNotParsed` | dompdf/dompdf.php:175 | a font already loaded is never parsed again |
| `FontMetricsProperties.CachedFontsCurrent` | dompdf/dompdf.php:168-172 | `CachedFonts`: the cache gate drops no font and only ever stores entries at the current version |
| `ImageResolution.RunRules` | dompdf/dompdf.php:25-30 | a refusal is a rule failure; a pass keeps the last rule's message, or the incoming one when there is no rule |
| `ImageResolution.Gate` | dompdf/dompdf.php:20-31 | a pass outside data: URIs means the protocol is allowed; a refusal is an unsupported protocol or a failing rule |
| `ImageResolution.CheckPolicy` | dompdf/dompdf.php:20-31 | the allow-list loop returns the gate's verdict: the first failing rule, or the last rule's message |
| `ImageResolution.Materialize` | dompdf/dompdf.php:33-64 | the file operations only grow and no cached URL is lost; outside file:// the local copy is the one cached under the full URL |
| `ImageResolution.Inspect` | dompdf/dompdf.php:66-75 | an accepted file is readable, has a non-zero size and a known type |
| `ImageResolution.Fallback` | dompdf/dompdf.php:114-122 | the catch block returns the broken image with the error message, logs at most the removal of the temporary file, and caches the broken image under the full URL (or the empty key) |
| `ImageResolution.Resolve` | dompdf/dompdf.php:2-126 | a resolution only appends file operations and never drops a cached URL |
| `ImageResolution.Try` | dompdf/dompdf.php:9-113 | the same for the try block |
| `ImageResolution.Scan` | dompdf/dompdf.php:105-111 | the same for the scan of an SVG document |
| `ImageResolution.VisitUrls` | dompdf/dompdf.php:88-99 | the same for the references of one element |
| `ImageResolution.ImageCache.ResolveUrl` | dompdf/dompdf.php:2-126 | the result, the new cache and the file operations are those of the resolve function on the old state |
| `ImageResolution.ImageCache.TryResolve` | dompdf/dompdf.php:9-113 | the try block ends, and changes the state, as the try function says |
| `ImageResolution.ImageCache.FetchToLocal` | dompdf/dompdf.php:33-64 | the local copy and the new cache and log are those of the materialize function |
| `ImageResolution.ImageCache.ScanSvg` | dompdf/dompdf.php:77-110 | the parser feeds the start elements in order and stops at the first exception, as the scan function says |
| `ImageResolution.ImageCache.HandleStartElement` | dompdf/dompdf.php:81-98 | the element handler visits the references in order, as the visit function says |
| `ImageResolutionProperties.RunRulesVerdict` | dompdf/dompdf.php:25-30 | if every rule passes, the last rule's message is kept; otherwise the first failing rule's message is the error |
| `ImageResolutionProperties.GatePasses` | dompdf/dompdf.php:20-31 | `StartsWith`: the gate passes exactly when the URL is a data: URI, or its protocol is allowed and all its rules pass |
| `ImageResolutionProperties.FirstFailing` | dompdf/dompdf.php:25-30 | when a rule fails there is a first failing rule |
| `ImageResolutionProperties.UnparsableUrlFallsBack` | dompdf/dompdf.php:12-14 | an unbuildable URL gives the broken image with the error message, cached under the empty key, with no file operation |
| `ImageResolutionProperties.DeniedUrlNotFetched` | dompdf/dompdf.php:20-31 | a URL the policy refuses is never fetched; the broken image is cached for it |
| `ImageResolutionProperties.MissingImageRemovesTempfile` | dompdf/dompdf.php:38-56 | the temporary file made for an image that is not found is removed again |
| `ImageResolutionProperties.SuccessMeetsChecks` | dompdf/dompdf.php:66-75 | a returned image passed the gate with the returned message, is readable, non-empty, has a non-zero size and a known type |
| `ImageResolutionProperties.FileUrlUsedInPlace` | dompdf/dompdf.php:33-34 | a file:// image is used in place whatever the cache holds, and nothing is fetched or cached |
| `ImageResolutionProperties.CachedCopyReused` | dompdf/dompdf.php:35-36 | a cached URL is served from its copy with no file operation |
| `ImageResolutionProperties.FreshFetchCached` | dompdf/dompdf.php:37-64 | a first fetch makes a temporary file, writes the image to it and caches it; a data: URI is decoded, not downloaded |
| `ImageResolutionProperties.MaterializeCaches` | dompdf/dompdf.php:33-64 | outside file://, the copy used is the one cached afterwards; a cache hit changes nothing; the cache changes at the full URL only |
| `ImageResolutionProperties.RepeatServedFromCache` | dompdf/dompdf.php:35-36 | a non-SVG image resolved once is served again with the same result and no state change |
| `ImageResolutionProperties.NonSvgSuccess` | dompdf/dompdf.php:33-75 | a non-SVG success returns the local copy with the gate's message and its sniffed type, in the state the fetch left |
| `ImageResolutionProperties.FailureCachedAsBroken` | dompdf/dompdf.php:122 | a URL that failed past the gate is served from the broken image afterwards, never fetched again |
| `ImageResolutionProperties.ThrewWithFullUrl` | dompdf/dompdf.php:16-113 | every exception after the URL is built carries the full URL, so the catch block caches under it |
| `ImageResolutionProperties.RepeatAfterFailure` | dompdf/dompdf.php:35-36 | resolving a failed URL again returns the broken image with the gate's message, not the error message |
| `ImageResolutionProperties.AttributeValueIsLast` | dompdf/dompdf.php:83 | `AttributeValue`: after lower-casing the attribute names, the value of the last one with the name is kept; none when there is none |
| `ImageResolutionProperties.ImageReferencesOrder` | dompdf/dompdf.php:80-87 | `ImageReferences`, `EmptyString`: an image element contributes its xlink:href and then its href, empty when missing; other elements contribute nothing |
| `ImageResolutionProperties.ScanAppend` | dompdf/dompdf.php:103-109 | scanning the start elements in two parts, the second from the state the first left, is scanning them all at once |
| `ImageResolutionProperties.SelfReferenceRejected` | dompdf/dompdf.php:89-92 | a reference back to the document itself is rejected, whatever nesting budget is left |
| `ImageResolutionProperties.DeniedReferenceRejected` | dompdf/dompdf.php:94-97 | `EmptyValue`: a reference the policy refuses rejects the SVG when an error message is configured |
| `ImageResolutionProperties.ResolveFuel` | dompdf/dompdf.php:94 | a resolution that does not run out of nesting budget is unchanged by one more level |
| `ImageResolutionProperties.ResolveFuelMonotone` | dompdf/dompdf.php:94 | and unchanged by any larger budget |

## Left out

- Output of `addMessage` and `Helpers::record_warnings`: logging only, with no effect on the results.
- The width of a glyph is kept as the `WX` field it comes from, because `floatval` (floating point) is not modelled.
- `StringToInt`, `GlyphNumber`: `(int)` of a string in exponent or decimal-fraction form reads just the leading integer (`"1e3"` gives 1, not 1000), and a glyph id `G` used as an operand of `>>` and `&` is read the same way. A `G` that starts with a fraction and no integer part (`".5"`, `"-.5"`) reads as 0, as in PHP, but `".5e3"` also reads as 0 where PHP gives 500. PHP's float conversion is not modelled.
- `BaseName`, `DirName`: only `/` separates path components (PHP on Windows also takes `\`), and `dirname`'s `levels` argument is not modelled, since openFont does not pass it.
- `HexDec`, `NamesOwnCode`: PHP's `hexdec` gives a float when the value is above PHP_INT_MAX, whatever the number of digits, and `$c != hexdec($n)` then compares `$c` with it as floats. The model keeps the exact value and compares exact integers. The two differ only for codes at or near PHP_INT_MAX: `C 99999999999999999999 ; N 8000000000000000 ;` records no name in PHP, because the code saturates to PHP_INT_MAX and the name's value is 2^63 as a float; the model records it.
- The JSON cache file is given already decoded as `CacheEntry`, with an integer `_version_` or none. `json_decode` and the loose `!=` against a non-integer version are not modelled.
- The list of core fonts (`self::$coreFonts`) is an input telling whether the font is a core one.
- openFont's source ends with the data it parsed unused. `FontLoader.OpenFont` returns the parse as its outcome and does not invent a store into `fonts`.
- Files, the network, `tempnam` and the XML parser are functions supplied by the caller. `tempnam` is passed the number of file operations done so far, so a new name can differ from earlier ones. The file system oracles do not reflect the model's own writes and removals; the log records them.
- Exceptions other than `ImageException` (from the helpers or the closures) are not modelled.
- `Resolve`: the nesting of SVG references is bounded by a fuel parameter. The PHP recursion is unbounded, and a cycle between two SVG documents never ends there. `ResolveFuel` and `ResolveFuelMonotone` show that the bound changes no result that does not run out of it.
- The allow-list is a map keyed by protocol strings. PHP's integer normalisation of array keys is not applied to protocols.
- `Helpers::getFileContent` is modelled as returning the image or nothing. Its response headers are not used.
