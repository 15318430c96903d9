/**
 * The PHP string built-ins that the two routines rely on, written out as
 * functions on `seq<char>`: trim, explode, strpos, strtolower, ctype_xdigit,
 * hexdec, the (int) cast, the conversion of a string array key, empty()
 * truthiness, basename and dirname.
 */
module PhpStrings {
  import opened Common

  const Int64Min: int := -0x8000_0000_0000_0000
  const Int64Max: int := 0x7FFF_FFFF_FFFF_FFFF

  // ---------------------------------------------------------------- trim

  /** The characters trim() strips by default: space, tab, LF, CR, NUL, vertical tab. */
  predicate IsTrimChar(c: char) {
    c == ' ' || c == '\t' || c == '\n' || c == '\r' || c == 0 as char || c == 11 as char
  }

  function TrimLeft(s: string): (r: string)
    ensures |r| <= |s| && r == s[|s| - |r|..]
    ensures r != [] ==> !IsTrimChar(r[0])
    ensures forall i :: 0 <= i < |s| - |r| ==> IsTrimChar(s[i])
  {
    if s != [] && IsTrimChar(s[0]) then TrimLeft(s[1..]) else s
  }

  function TrimRight(s: string): (r: string)
    ensures |r| <= |s| && r == s[..|r|]
    ensures r != [] ==> !IsTrimChar(r[|r| - 1])
    ensures forall i :: |r| <= i < |s| ==> IsTrimChar(s[i])
  {
    if s != [] && IsTrimChar(s[|s| - 1]) then TrimRight(s[..|s| - 1]) else s
  }

  /** PHP trim($s): `s` without its leading and trailing trim characters. */
  function Trim(s: string): (r: string)
    ensures |r| <= |s|
    ensures r != [] ==> !IsTrimChar(r[0]) && !IsTrimChar(r[|r| - 1])
  {
    TrimRight(TrimLeft(s))
  }

  /**
   * Trimming removes exactly a run of trim characters at the front and one at
   * the back, and keeps the middle as it is.
   */
  lemma TrimIsInfix(s: string)
    ensures var k := |s| - |TrimLeft(s)|;
      && k + |Trim(s)| <= |s|
      && Trim(s) == s[k..k + |Trim(s)|]
      && (forall i :: 0 <= i < k ==> IsTrimChar(s[i]))
      && (forall i :: k + |Trim(s)| <= i < |s| ==> IsTrimChar(s[i]))
  {
    var l := TrimLeft(s);
    var r := TrimRight(l);
    var k := |s| - |l|;
    assert l == s[k..];
    assert r == l[..|r|];
    forall i | k + |r| <= i < |s| ensures IsTrimChar(s[i]) {
      assert s[i] == l[i - k];
    }
  }

  lemma TrimRightNoop(s: string)
    requires s != [] ==> !IsTrimChar(s[|s| - 1])
    ensures TrimRight(s) == s
  {
  }

  lemma TrimLeftNoop(s: string)
    requires s != [] ==> !IsTrimChar(s[0])
    ensures TrimLeft(s) == s
  {
  }

  /** Trimming twice is trimming once. */
  lemma TrimIdempotent(s: string)
    ensures Trim(Trim(s)) == Trim(s)
  {
    var t := Trim(s);
    TrimLeftNoop(t);
    TrimRightNoop(t);
  }

  /** Stripping the right end of `x + y` stops inside `y` when `y` has a character to keep. */
  lemma {:induction false} TrimRightAppend(x: string, y: string)
    requires TrimRight(y) != []
    ensures TrimRight(x + y) == x + TrimRight(y)
    decreases |y|
  {
    var xy := x + y;
    assert xy[..|xy| - 1] == x + y[..|y| - 1];
    if IsTrimChar(y[|y| - 1]) {
      TrimRightAppend(x, y[..|y| - 1]);
    }
  }

  /** Stripping the left end of `x + y` skips all of `x` when `x` holds only trim characters. */
  lemma {:induction false} TrimLeftAppend(x: string, y: string)
    requires forall i :: 0 <= i < |x| ==> IsTrimChar(x[i])
    ensures TrimLeft(x + y) == TrimLeft(y)
    decreases |x|
  {
    if x != [] {
      assert (x + y)[1..] == x[1..] + y;
      TrimLeftAppend(x[1..], y);
    } else {
      assert x + y == y;
    }
  }

  /** A string made only of trim characters is stripped away entirely from the left. */
  lemma {:induction false} TrimLeftAllTrim(s: string)
    requires forall i :: 0 <= i < |s| ==> IsTrimChar(s[i])
    ensures TrimLeft(s) == []
  {
    TrimLeftAppend(s, []);
    assert s + [] == s;
  }

  /** The two ends can be stripped in either order. */
  lemma {:induction false} TrimEndsCommute(s: string)
    ensures TrimLeft(TrimRight(s)) == TrimRight(TrimLeft(s))
    decreases |s|
  {
    if s != [] && IsTrimChar(s[0]) {
      TrimEndsCommute(s[1..]);
      if TrimRight(s[1..]) == [] {
        TrimLeadingThenEmpty(s);
      } else {
        TrimLeadingThenKept(s);
      }
    } else if s != [] {
      TrimLeftNoop(TrimRight(s));
    }
  }

  lemma TrimLeadingThenKept(s: string)
    requires s != [] && IsTrimChar(s[0]) && TrimRight(s[1..]) != []
    ensures TrimLeft(TrimRight(s)) == TrimLeft(TrimRight(s[1..]))
    ensures TrimLeft(s) == TrimLeft(s[1..])
  {
    var t := s[1..];
    assert s == [s[0]] + t;
    TrimRightAppend([s[0]], t);
    TrimLeftAppend([s[0]], TrimRight(t));
  }

  lemma TrimLeadingThenEmpty(s: string)
    requires s != [] && IsTrimChar(s[0]) && TrimRight(s[1..]) == []
    ensures TrimRight(s) == [] && TrimLeft(s) == []
  {
    var t := s[1..];
    forall i | 0 <= i < |s| ensures IsTrimChar(s[i]) {
      if i > 0 { assert s[i] == t[i - 1]; }
    }
    TrimLeftAllTrim(s);
  }

  /** A string with a character trim() keeps ends where its last such character is. */
  lemma TrimRightKeeps(s: string)
    requires Trim(s) != []
    ensures TrimRight(s) != []
  {
    var l := TrimLeft(s);
    var k := |s| - |l|;
    assert l == s[k..];
    assert !IsTrimChar(l[0]);
  }

  /** Trimming a right-trimmed string is trimming the string. */
  lemma TrimOfTrimRight(s: string)
    ensures Trim(TrimRight(s)) == Trim(s)
  {
    TrimEndsCommute(s);
    var t := TrimLeft(s);
    var r := TrimRight(t);
    TrimRightNoop(r);
  }

  // ---------------------------------------------------------------- explode

  /** PHP explode($d, $s) for a one-character separator: the pieces between separators. */
  function Explode(d: char, s: string): (parts: seq<string>)
    ensures |parts| >= 1
    ensures forall i :: 0 <= i < |parts| ==> d !in parts[i]
  {
    if s == [] then [[]]
    else
      var rest := Explode(d, s[1..]);
      if s[0] == d then [[]] + rest else [[s[0]] + rest[0]] + rest[1..]
  }

  /** PHP implode($d, $parts): the pieces glued together with the separator. */
  function Implode(d: char, parts: seq<string>): string
    requires |parts| >= 1
  {
    if |parts| == 1 then parts[0] else parts[0] + [d] + Implode(d, parts[1..])
  }

  /** Gluing the pieces back together gives the original string. */
  lemma {:induction false} ImplodeExplode(d: char, s: string)
    ensures Implode(d, Explode(d, s)) == s
  {
    if s != [] {
      var rest := Explode(d, s[1..]);
      ImplodeExplode(d, s[1..]);
      if s[0] == d {
        assert Explode(d, s) == [[]] + rest;
        assert Explode(d, s)[1..] == rest;
      } else {
        var p := Explode(d, s);
        assert p == [[s[0]] + rest[0]] + rest[1..];
        if |rest| == 1 {
          assert p == [[s[0]] + rest[0]];
        } else {
          assert p[1..] == rest[1..];
          assert Implode(d, rest) == rest[0] + [d] + Implode(d, rest[1..]);
        }
      }
    }
  }

  /** Splitting a glued sequence of separator-free pieces gives the pieces back. */
  lemma {:induction false} ExplodeImplode(d: char, parts: seq<string>)
    requires |parts| >= 1
    requires forall i :: 0 <= i < |parts| ==> d !in parts[i]
    ensures Explode(d, Implode(d, parts)) == parts
  {
    if |parts| == 1 {
      ExplodeOfPiece(d, parts[0]);
    } else {
      ExplodeImplode(d, parts[1..]);
      ExplodeAppend(d, parts[0], Implode(d, parts[1..]));
      assert [parts[0]] + parts[1..] == parts;
    }
  }

  lemma {:induction false} ExplodeOfPiece(d: char, p: string)
    requires d !in p
    ensures Explode(d, p) == [p]
  {
    if p != [] {
      ExplodeOfPiece(d, p[1..]);
      assert [p[0]] + p[1..] == p;
    }
  }

  lemma {:induction false} ExplodeAppend(d: char, p: string, rest: string)
    requires d !in p
    ensures Explode(d, p + [d] + rest) == [p] + Explode(d, rest)
  {
    if p == [] {
      assert p + [d] + rest == [d] + rest;
      assert ([d] + rest)[1..] == rest;
    } else {
      ExplodeAppend(d, p[1..], rest);
      assert (p + [d] + rest)[1..] == p[1..] + [d] + rest;
      assert [p[0]] + p[1..] == p;
    }
  }

  // ---------------------------------------------------------------- strpos

  /** PHP strpos($s, $c) for a one-character needle: the first index of `c`, if any. */
  function StrPos(s: string, c: char): (r: Option<nat>)
    ensures r.None? <==> c !in s
    ensures r.Some? ==> r.value < |s| && s[r.value] == c && c !in s[..r.value]
  {
    if s == [] then None
    else if s[0] == c then Some(0)
    else
      match StrPos(s[1..], c)
      case None => None
      case Some(i) =>
        assert s[..i + 1] == [s[0]] + s[1..][..i];
        Some(i + 1)
  }

  // ---------------------------------------------------------------- case, prefixes, truthiness

  predicate IsUpper(c: char) {
    'A' <= c <= 'Z'
  }

  function LowerChar(c: char): char {
    if IsUpper(c) then (c as int + 32) as char else c
  }

  /**
   * PHP strtolower($s) on ASCII letters: no capital letter is left, and
   * every other character stays where it was.
   */
  function Lower(s: string): (r: string)
    ensures |r| == |s|
    ensures forall i :: 0 <= i < |r| ==> !IsUpper(r[i])
    ensures forall i :: 0 <= i < |s| && !IsUpper(s[i]) ==> r[i] == s[i]
  {
    seq(|s|, i requires 0 <= i < |s| => LowerChar(s[i]))
  }

  /** Lower-casing a lower-cased string changes nothing. */
  lemma LowerIdempotent(s: string)
    ensures Lower(Lower(s)) == Lower(s)
  {
  }

  /** strpos($s, $p) === 0. */
  predicate StartsWith(s: string, p: string) {
    |p| <= |s| && s[..|p|] == p
  }

  /** PHP empty() on a string: "" and "0" are empty. */
  predicate EmptyString(s: string) {
    s == "" || s == "0"
  }

  /** PHP empty() on a value that is null or a string. */
  predicate EmptyValue(v: Option<string>) {
    v.None? || EmptyString(v.value)
  }

  // ---------------------------------------------------------------- hex digits

  predicate IsHexDigit(c: char) {
    ('0' <= c <= '9') || ('a' <= c <= 'f') || ('A' <= c <= 'F')
  }

  function HexDigitValue(c: char): (v: nat)
    requires IsHexDigit(c)
    ensures v < 16
  {
    if '0' <= c <= '9' then c as int - '0' as int
    else if 'a' <= c <= 'f' then c as int - 'a' as int + 10
    else c as int - 'A' as int + 10
  }

  /** PHP ctype_xdigit($s) on a string: non-empty and only hexadecimal digits. */
  predicate CtypeXdigit(s: string) {
    |s| > 0 && forall i :: 0 <= i < |s| ==> IsHexDigit(s[i])
  }

  /** PHP hexdec($s): the value of the hexadecimal digits of `s`; other characters are skipped. */
  function HexDec(s: string): (r: nat)
    ensures (forall i :: 0 <= i < |s| ==> !IsHexDigit(s[i])) ==> r == 0
  {
    if s == [] then 0
    else if IsHexDigit(s[|s| - 1]) then HexDec(s[..|s| - 1]) * 16 + HexDigitValue(s[|s| - 1])
    else HexDec(s[..|s| - 1])
  }

  function HexDigitChar(v: nat): (c: char)
    requires v < 16
    ensures IsHexDigit(c) && HexDigitValue(c) == v
  {
    if v < 10 then (v + '0' as int) as char else (v - 10 + 'a' as int) as char
  }

  /** PHP dechex($n): the lower-case hexadecimal rendering of `n`, without leading zeros. */
  function ToHex(n: nat): (s: string)
    ensures CtypeXdigit(s)
  {
    if n < 16 then [HexDigitChar(n)] else ToHex(n / 16) + [HexDigitChar(n % 16)]
  }

  /** hexdec undoes dechex. */
  lemma {:induction false} HexDecToHex(n: nat)
    ensures HexDec(ToHex(n)) == n
  {
    var s := ToHex(n);
    if n < 16 {
      assert s[..0] == [];
    } else {
      HexDecToHex(n / 16);
      assert s[..|s| - 1] == ToHex(n / 16);
    }
  }

  // ---------------------------------------------------------------- (int) and decimal strings

  predicate IsDigit(c: char) {
    '0' <= c <= '9'
  }

  /** The white space that PHP's numeric-string rules skip at the front: space, \t, \n, \r, \v, \f. */
  predicate IsNumericSpace(c: char) {
    c == ' ' || c == '\t' || c == '\n' || c == '\r' || c == 11 as char || c == 12 as char
  }

  function SkipNumericSpace(s: string): (r: string)
    ensures |r| <= |s| && r == s[|s| - |r|..]
    ensures r != [] ==> !IsNumericSpace(r[0])
  {
    if s != [] && IsNumericSpace(s[0]) then SkipNumericSpace(s[1..]) else s
  }

  /** The number of leading decimal digits of `s`. */
  function DigitRun(s: string): (n: nat)
    ensures n <= |s|
    ensures forall i :: 0 <= i < n ==> IsDigit(s[i])
    ensures n < |s| ==> !IsDigit(s[n])
  {
    if s != [] && IsDigit(s[0]) then 1 + DigitRun(s[1..]) else 0
  }

  /** The value of a string of decimal digits. */
  function DigitsValue(s: string): nat
    requires forall i :: 0 <= i < |s| ==> IsDigit(s[i])
  {
    if s == [] then 0
    else
      assert IsDigit(s[|s| - 1]);
      DigitsValue(s[..|s| - 1]) * 10 + (s[|s| - 1] as int - '0' as int)
  }

  /** Saturation at the bounds of a 64-bit PHP integer. */
  function ClampInt64(n: int): (r: int)
    ensures Int64Min <= r <= Int64Max
    ensures Int64Min <= n <= Int64Max ==> r == n
  {
    if n < Int64Min then Int64Min else if n > Int64Max then Int64Max else n
  }

  /** The sign and digits at the front of `s` after white space, if there are any digits. */
  function LeadingInteger(s: string): Option<int> {
    var t := SkipNumericSpace(s);
    var negative := t != [] && t[0] == '-';
    var body := if t != [] && (t[0] == '-' || t[0] == '+') then t[1..] else t;
    var n := DigitRun(body);
    if n == 0 then None
    else
      var v: int := DigitsValue(body[..n]);
      Some(if negative then -v else v)
  }

  /**
   * The string, after white space and an optional sign, starts with a
   * fraction with no integer part (".5"): PHP still reads it as a number.
   */
  predicate LeadingFraction(s: string) {
    var t := SkipNumericSpace(s);
    var body := if t != [] && (t[0] == '-' || t[0] == '+') then t[1..] else t;
    |body| >= 2 && body[0] == '.' && IsDigit(body[1])
  }

  /**
   * PHP (int) applied to a string: the leading integer (after white space
   * and an optional sign), 0 when there is none, saturated to 64 bits.
   */
  function StringToInt(s: string): (r: int)
    ensures Int64Min <= r <= Int64Max
    ensures LeadingInteger(s).None? ==> r == 0
  {
    match LeadingInteger(s)
    case None => 0
    case Some(v) => ClampInt64(v)
  }

  function NatToDecimal(n: nat): (s: string)
    ensures |s| >= 1 && forall i :: 0 <= i < |s| ==> IsDigit(s[i])
    ensures n > 0 ==> s[0] != '0'
    ensures n == 0 ==> s == "0"
  {
    if n < 10 then [(n + '0' as int) as char]
    else NatToDecimal(n / 10) + [(n % 10 + '0' as int) as char]
  }

  /** The canonical decimal rendering of an integer, as PHP prints it. */
  function IntToDecimal(n: int): (s: string)
    ensures |s| >= 1
  {
    if n < 0 then "-" + NatToDecimal(-n) else NatToDecimal(n)
  }

  lemma {:induction false} DigitsValueOfDecimal(n: nat)
    ensures DigitsValue(NatToDecimal(n)) == n
  {
    var s := NatToDecimal(n);
    if n < 10 {
      assert s[..0] == [];
    } else {
      DigitsValueOfDecimal(n / 10);
      assert s[..|s| - 1] == NatToDecimal(n / 10);
    }
  }

  /** The (int) cast reads back every 64-bit integer from its decimal rendering. */
  lemma StringToIntOfDecimal(n: int)
    requires Int64Min <= n <= Int64Max
    ensures StringToInt(IntToDecimal(n)) == n
  {
    var s := IntToDecimal(n);
    var m: nat := if n < 0 then -n else n;
    var d := NatToDecimal(m);
    DigitsValueOfDecimal(m);
    assert !IsNumericSpace(s[0]);
    assert SkipNumericSpace(s) == s;
    var body := if n < 0 then s[1..] else s;
    assert body == d;
    assert DigitRun(d) == |d|;
    assert d[..|d|] == d;
  }

  /** The digits of a candidate integer key: the string without a leading '-'. */
  function KeyDigits(s: string): string {
    if s != [] && s[0] == '-' then s[1..] else s
  }

  /** The canonical form of an integer: "0" or an optional "-" and digits not starting with 0. */
  predicate IsCanonicalDecimal(s: string) {
    && |KeyDigits(s)| >= 1
    && (forall i :: 0 <= i < |KeyDigits(s)| ==> IsDigit(KeyDigits(s)[i]))
    && (KeyDigits(s)[0] == '0' ==> s == "0")
  }

  /**
   * The integer a string array key stands for: PHP stores a key that is the
   * canonical decimal form of a 64-bit integer as that integer.
   */
  function IntegerKey(s: string): (r: Option<int>)
    ensures r.Some? ==> Int64Min <= r.value <= Int64Max
  {
    if !IsCanonicalDecimal(s) then None
    else
      var v: int := DigitsValue(KeyDigits(s));
      var n := if s[0] == '-' then -v else v;
      if Int64Min <= n <= Int64Max then Some(n) else None
  }

  lemma {:induction false} DecimalOfDigitsValue(s: string)
    requires |s| >= 1 && forall i :: 0 <= i < |s| ==> IsDigit(s[i])
    requires s[0] == '0' ==> |s| == 1
    ensures NatToDecimal(DigitsValue(s)) == s
  {
    var v := DigitsValue(s);
    var last := s[|s| - 1] as int - '0' as int;
    if |s| == 1 {
      assert s[..0] == [];
    } else {
      var init := s[..|s| - 1];
      DecimalOfDigitsValue(init);
      DigitsValuePositive(init);
      assert v / 10 == DigitsValue(init) && v % 10 == last;
      assert s == init + [s[|s| - 1]];
    }
  }

  lemma {:induction false} DigitsValuePositive(s: string)
    requires |s| >= 1 && forall i :: 0 <= i < |s| ==> IsDigit(s[i])
    requires s[0] != '0'
    ensures DigitsValue(s) > 0
  {
    if |s| > 1 {
      DigitsValuePositive(s[..|s| - 1]);
    }
  }

  /** A string key is stored as integer `n` exactly when it is the decimal rendering of `n`. */
  lemma IntegerKeyIff(s: string, n: int)
    requires Int64Min <= n <= Int64Max
    ensures IntegerKey(s) == Some(n) <==> s == IntToDecimal(n)
  {
    if IntegerKey(s) == Some(n) {
      var negative := s[0] == '-';
      var digits := KeyDigits(s);
      DecimalOfDigitsValue(digits);
      if negative {
        DigitsValuePositive(digits);
        assert s == "-" + digits;
      }
    }
    if s == IntToDecimal(n) {
      var m: nat := if n < 0 then -n else n;
      DigitsValueOfDecimal(m);
      if n < 0 {
        assert s[1..] == NatToDecimal(m);
      }
    }
  }

  // ---------------------------------------------------------------- paths

  /** The index of the last '/' in `s`, if any. */
  function LastSlash(s: string): (r: Option<nat>)
    ensures r.Some? ==> r.value < |s| && s[r.value] == '/' && '/' !in s[r.value + 1..]
    ensures r.None? ==> '/' !in s
  {
    if s == [] then None
    else if s[|s| - 1] == '/' then Some(|s| - 1)
    else
      match LastSlash(s[..|s| - 1])
      case None => None
      case Some(i) =>
        assert s[i + 1..] == s[..|s| - 1][i + 1..] + [s[|s| - 1]];
        Some(i)
  }

  /** $s without its trailing '/' characters. */
  function StripSlashes(s: string): (r: string)
    ensures |r| <= |s| && r == s[..|r|]
    ensures r == [] || r[|r| - 1] != '/'
    ensures forall i :: |r| <= i < |s| ==> s[i] == '/'
  {
    if s != [] && s[|s| - 1] == '/' then StripSlashes(s[..|s| - 1]) else s
  }

  /** PHP basename($s): the last component, trailing slashes ignored. */
  function BaseName(s: string): (r: string)
    ensures '/' !in r
  {
    var t := StripSlashes(s);
    match LastSlash(t)
    case None => t
    case Some(i) => t[i + 1..]
  }

  /**
   * PHP dirname($s): the path without its last component and the slashes
   * around it; "/" when only the root is left, "." when there is no '/'.
   */
  function DirName(s: string): (r: string)
    ensures s != [] ==> r != []
    ensures r == [] || r == "/" || r[|r| - 1] != '/'
  {
    if s == [] then ""
    else
      var t := StripSlashes(s);
      if t == [] then "/"
      else
        match LastSlash(t)
        case None => "."
        case Some(i) =>
          var u := StripSlashes(t[..i]);
          if u == [] then "/" else u
  }

  /** Trailing slashes change neither the base name nor the directory. */
  lemma {:induction false} StripSlashesAppend(s: string)
    ensures StripSlashes(s + "/") == StripSlashes(s)
  {
    assert (s + "/")[..|s + "/"| - 1] == s;
  }

  lemma TrailingSlashIgnored(s: string)
    ensures BaseName(s + "/") == BaseName(s)
    ensures s != [] ==> DirName(s + "/") == DirName(s)
  {
    StripSlashesAppend(s);
  }

  lemma SplitAt(s: string, i: nat)
    requires i < |s|
    ensures s[..i] + [s[i]] + s[i + 1..] == s
  {
  }

  /** Without trailing slashes, dirname and basename split the path at its last '/'. */
  lemma DirNameAt(s: string)
    requires s != [] && s[|s| - 1] != '/' && LastSlash(s).Some?
    requires StripSlashes(s[..LastSlash(s).value]) != []
    ensures DirName(s) == StripSlashes(s[..LastSlash(s).value])
    ensures BaseName(s) == s[LastSlash(s).value + 1..]
  {
    NoTrailingSlashKept(s);
    BaseNameAt(s);
  }

  lemma NoTrailingSlashKept(s: string)
    requires s != [] && s[|s| - 1] != '/'
    ensures StripSlashes(s) == s
  {
  }

  lemma BaseNameAt(s: string)
    requires s != [] && s[|s| - 1] != '/' && LastSlash(s).Some?
    ensures BaseName(s) == s[LastSlash(s).value + 1..]
  {
    NoTrailingSlashKept(s);
  }

  /** A path with no trailing or doubled slash is its directory, a slash and its base name. */
  lemma DirNameBaseName(s: string)
    requires LastSlash(s).Some? && LastSlash(s).value > 0
    requires s[|s| - 1] != '/' && s[LastSlash(s).value - 1] != '/'
    ensures DirName(s) + "/" + BaseName(s) == s
  {
    var i := LastSlash(s).value;
    assert StripSlashes(s[..i]) == s[..i];
    DirNameAt(s);
    assert [s[i]] == "/";
    SplitAt(s, i);
  }

  /** The last '/' of a path is the one its slash-free last component follows. */
  lemma {:induction false} LastSlashBefore(p: string, b: string)
    requires p != [] && p[|p| - 1] == '/' && '/' !in b
    ensures LastSlash(p + b) == Some(|p| - 1)
    decreases |b|
  {
    if b != [] {
      assert (p + b)[..|p + b| - 1] == p + b[..|b| - 1];
      LastSlashBefore(p, b[..|b| - 1]);
    } else {
      assert p + b == p;
    }
  }

  /** The slashes before the base name are dropped from the directory. */
  lemma DoubledSlashDropped(d: string, b: string)
    requires d != [] && d[|d| - 1] != '/' && b != [] && '/' !in b
    ensures DirName(d + "//" + b) == d && BaseName(d + "//" + b) == b
  {
    var s := d + "//" + b;
    assert s[|s| - 1] == b[|b| - 1];
    LastSlashBefore(d + "//", b);
    assert s[..|d| + 1] == d + "/";
    StripSlashesAppend(d);
    assert StripSlashes(d) == d;
    DirNameAt(s);
    assert s[|d| + 2..] == b;
  }
}
