/**
 * String helpers shared by the Python back-ends and the browser scripts:
 * the two whitespace classes, strip/trim, splitting and joining, decimal
 * rendering and parsing, upper/lower case, and the Vietnamese letter tables
 * used by the two product-code generators.
 *
 * The alphabet is deliberately restricted: case mapping covers ASCII and the
 * Vietnamese vowels with their tone marks (plus Đ/đ); canonical decomposition
 * (NFD) covers the same Vietnamese vowels. Every other character is left as
 * it is by these functions.
 */
module Text {
  import opened Wrappers

  // ---------------------------------------------------------------------------
  // Whitespace

  /** Python's str.isspace() for one character. */
  predicate IsPySpace(c: char) {
    c == ' ' || '\t' <= c <= '\r' || '\U{001C}' <= c <= '\U{001F}' ||
    c == '\U{0085}' || c == '\U{00A0}' || c == '\U{1680}' ||
    '\U{2000}' <= c <= '\U{200A}' || c == '\U{2028}' || c == '\U{2029}' ||
    c == '\U{202F}' || c == '\U{205F}' || c == '\U{3000}'
  }

  /** JavaScript's WhiteSpace and LineTerminator classes (String.prototype.trim, regex \s). */
  predicate IsJsSpace(c: char) {
    c == ' ' || '\t' <= c <= '\r' || c == '\U{00A0}' || c == '\U{1680}' ||
    '\U{2000}' <= c <= '\U{200A}' || c == '\U{2028}' || c == '\U{2029}' ||
    c == '\U{202F}' || c == '\U{205F}' || c == '\U{3000}' || c == '\U{FEFF}'
  }

  /** Drops the leading characters that satisfy isSpace. */
  function TrimStart(s: string, isSpace: char -> bool): (r: string)
    ensures |r| <= |s| && r == s[|s| - |r|..]
    ensures r != [] ==> !isSpace(r[0])
    ensures forall i | 0 <= i < |s| - |r| :: isSpace(s[i])
    decreases |s|
  {
    if s == [] || !isSpace(s[0]) then s
    else
      var r := TrimStart(s[1..], isSpace);
      assert s[1..][|s| - 1 - |r|..] == s[|s| - |r|..];
      assert forall i | 1 <= i < |s| - |r| :: s[i] == s[1..][i - 1];
      r
  }

  /** Drops the trailing characters that satisfy isSpace. */
  function TrimEnd(s: string, isSpace: char -> bool): (r: string)
    ensures |r| <= |s| && r == s[..|r|]
    ensures r != [] ==> !isSpace(r[|r| - 1])
    ensures forall i | |r| <= i < |s| :: isSpace(s[i])
    decreases |s|
  {
    if s == [] || !isSpace(s[|s| - 1]) then s else TrimEnd(s[..|s| - 1], isSpace)
  }

  function Trim(s: string, isSpace: char -> bool): string {
    TrimEnd(TrimStart(s, isSpace), isSpace)
  }

  /** Python's str.strip() with no argument. */
  function PyStrip(s: string): string {
    Trim(s, IsPySpace)
  }

  /** JavaScript's String.prototype.trim(). */
  function JsTrim(s: string): string {
    Trim(s, IsJsSpace)
  }

  /** A trimmed string neither starts nor ends with a space. */
  lemma TrimShape(s: string, isSpace: char -> bool)
    ensures var r := Trim(s, isSpace);
      |r| <= |s| && (r != [] ==> !isSpace(r[0]) && !isSpace(r[|r| - 1]))
  {
    var t := TrimStart(s, isSpace);
    var r := TrimEnd(t, isSpace);
    assert r == t[..|r|];
    if r != [] {
      assert r[0] == t[0];
    }
  }

  /** Trimming a string whose ends are not spaces gives it back unchanged. */
  lemma TrimKeeps(s: string, isSpace: char -> bool)
    requires s != [] ==> !isSpace(s[0]) && !isSpace(s[|s| - 1])
    ensures Trim(s, isSpace) == s
  {
  }

  /** Whether every character of s satisfies p. */
  predicate All(s: string, p: char -> bool) {
    forall i | 0 <= i < |s| :: p(s[i])
  }

  /** Keeps the characters of s that satisfy p, in order. */
  function Filter(s: string, p: char -> bool): (r: string)
    ensures |r| <= |s|
    ensures All(r, p)
    decreases |s|
  {
    if s == [] then [] else (if p(s[0]) then [s[0]] else []) + Filter(s[1..], p)
  }

  lemma {:induction false} FilterKeepsAll(s: string, p: char -> bool)
    requires All(s, p)
    ensures Filter(s, p) == s
    decreases |s|
  {
    if s != [] {
      FilterKeepsAll(s[1..], p);
    }
  }

  /** Filter distributes over concatenation. */
  lemma {:induction false} FilterAppend(s: string, t: string, p: char -> bool)
    ensures Filter(s + t, p) == Filter(s, p) + Filter(t, p)
    decreases |s|
  {
    if s != [] {
      var head := if p(s[0]) then [s[0]] else [];
      assert (s + t)[0] == s[0];
      assert (s + t)[1..] == s[1..] + t;
      FilterAppend(s[1..], t, p);
      calc {
        Filter(s + t, p);
        head + Filter(s[1..] + t, p);
        head + (Filter(s[1..], p) + Filter(t, p));
        (head + Filter(s[1..], p)) + Filter(t, p);
        Filter(s, p) + Filter(t, p);
      }
    } else {
      assert s + t == t;
    }
  }

  // ---------------------------------------------------------------------------
  // Splitting and joining

  /** Joins parts with sep between consecutive parts. */
  function Join(parts: seq<string>, sep: string): (r: string)
    decreases |parts|
  {
    if parts == [] then []
    else if |parts| == 1 then parts[0]
    else parts[0] + sep + Join(parts[1..], sep)
  }

  /** Index of the first character of s satisfying p, or |s| when there is none. */
  function FirstIndex(s: string, p: char -> bool): (i: nat)
    ensures i <= |s|
    ensures i < |s| ==> p(s[i])
    ensures forall j | 0 <= j < i :: !p(s[j])
    decreases |s|
  {
    if s == [] then 0 else if p(s[0]) then 0 else 1 + FirstIndex(s[1..], p)
  }

  /** Python's s.split(sep) for a one-character separator. */
  function SplitOnChar(s: string, sep: char): (parts: seq<string>)
    ensures |parts| >= 1
    ensures forall i | 0 <= i < |parts| :: sep !in parts[i]
    decreases |s|
  {
    var i := FirstIndex(s, c => c == sep);
    if i == |s| then [s] else [s[..i]] + SplitOnChar(s[i + 1..], sep)
  }

  /** Joining the pieces of a split with the separator gives back the original string. */
  lemma {:induction false} SplitJoin(s: string, sep: char)
    ensures Join(SplitOnChar(s, sep), [sep]) == s
    decreases |s|
  {
    var i := FirstIndex(s, c => c == sep);
    if i < |s| {
      var rest := SplitOnChar(s[i + 1..], sep);
      assert SplitOnChar(s, sep) == [s[..i]] + rest;
      SplitJoin(s[i + 1..], sep);
      assert ([s[..i]] + rest)[1..] == rest;
      assert Join([s[..i]] + rest, [sep]) == s[..i] + [sep] + Join(rest, [sep]);
      assert s == s[..i] + [sep] + s[i + 1..];
    }
  }

  /** Splitting a join of separator-free parts at the separator gives the parts back. */
  lemma {:induction false} JoinSplit(parts: seq<string>, sep: char)
    requires |parts| >= 1
    requires forall i | 0 <= i < |parts| :: sep !in parts[i]
    ensures SplitOnChar(Join(parts, [sep]), sep) == parts
    decreases |parts|
  {
    var s := Join(parts, [sep]);
    var i := FirstIndex(s, c => c == sep);
    if |parts| == 1 {
      assert s == parts[0];
    } else {
      var p0 := parts[0];
      var rest := Join(parts[1..], [sep]);
      assert s == p0 + [sep] + rest;
      assert s[|p0|] == sep;
      assert forall j | 0 <= j < |p0| :: s[j] == p0[j];
      assert i == |p0|;
      assert s[..i] == p0;
      assert s[i + 1..] == rest;
      JoinSplit(parts[1..], sep);
      assert [p0] + parts[1..] == parts;
    }
  }

  /** JavaScript's s.split(/\s+/): pieces separated by maximal runs of separators. */
  function SplitOnRuns(s: string, isSep: char -> bool): (parts: seq<string>)
    ensures |parts| >= 1
    decreases |s|
  {
    var i := FirstIndex(s, isSep);
    if i == |s| then [s] else [s[..i]] + SplitOnRuns(TrimStart(s[i + 1..], isSep), isSep)
  }

  // ---------------------------------------------------------------------------
  // Decimal numbers

  predicate IsDigit(c: char) {
    '0' <= c <= '9'
  }

  /** Decimal rendering of a natural number, as str(n) in Python and String(n) in JavaScript. */
  function NatToString(n: nat): (s: string)
    ensures |s| >= 1 && All(s, IsDigit)
    ensures n >= 10 ==> s[0] != '0'
    decreases n
  {
    var d := [(48 + n % 10) as char];
    if n < 10 then d else NatToString(n / 10) + d
  }

  /** Value of a non-empty string of decimal digits. */
  function DigitsValue(s: string): (n: nat)
    requires All(s, IsDigit)
    decreases |s|
  {
    if s == [] then 0 else DigitsValue(s[..|s| - 1]) * 10 + (s[|s| - 1] as int - 48)
  }

  lemma {:induction false} DigitsOfNat(n: nat)
    ensures DigitsValue(NatToString(n)) == n
    decreases n
  {
    if n >= 10 {
      DigitsOfNat(n / 10);
      var s := NatToString(n);
      assert s[..|s| - 1] == NatToString(n / 10);
    }
  }

  /**
   * Python's int(s) on the accepted shape: an optional sign followed by
   * at least one ASCII digit.
   */
  function ParseInt(s: string): (r: Option<int>)
    ensures r.Some? ==> |s| >= 1
  {
    if |s| >= 2 && (s[0] == '-' || s[0] == '+') && All(s[1..], IsDigit) then
      var magnitude: int := DigitsValue(s[1..]);
      Some(if s[0] == '-' then -magnitude else magnitude)
    else if |s| >= 1 && All(s, IsDigit) then Some(DigitsValue(s))
    else None
  }

  /** Rendering a natural number and parsing it back gives the number. */
  lemma ParseIntOfNat(n: nat)
    ensures ParseInt(NatToString(n)) == Some(n)
  {
    DigitsOfNat(n);
  }

  // ---------------------------------------------------------------------------
  // Case mapping

  /**
   * Upper-case mapping of one character (Python str.upper, JavaScript
   * toUpperCase) on the modelled alphabet: ASCII letters, Vietnamese vowels
   * with their marks, and đ.
   */
  function UpperChar(c: char): char {
    if 'a' <= c <= 'z' then (c as int - 32) as char
    else match c
      case 'đ' => 'Đ'
      case 'á' => 'Á'
      case 'à' => 'À'
      case 'ã' => 'Ã'
      case 'ạ' => 'Ạ'
      case 'ả' => 'Ả'
      case 'ă' => 'Ă'
      case 'ắ' => 'Ắ'
      case 'ằ' => 'Ằ'
      case 'ẵ' => 'Ẵ'
      case 'ặ' => 'Ặ'
      case 'ẳ' => 'Ẳ'
      case 'â' => 'Â'
      case 'ấ' => 'Ấ'
      case 'ầ' => 'Ầ'
      case 'ẫ' => 'Ẫ'
      case 'ậ' => 'Ậ'
      case 'ẩ' => 'Ẩ'
      case 'é' => 'É'
      case 'è' => 'È'
      case 'ẽ' => 'Ẽ'
      case 'ẹ' => 'Ẹ'
      case 'ẻ' => 'Ẻ'
      case 'ê' => 'Ê'
      case 'ế' => 'Ế'
      case 'ề' => 'Ề'
      case 'ễ' => 'Ễ'
      case 'ệ' => 'Ệ'
      case 'ể' => 'Ể'
      case 'í' => 'Í'
      case 'ì' => 'Ì'
      case 'ĩ' => 'Ĩ'
      case 'ị' => 'Ị'
      case 'ỉ' => 'Ỉ'
      case 'ó' => 'Ó'
      case 'ò' => 'Ò'
      case 'õ' => 'Õ'
      case 'ọ' => 'Ọ'
      case 'ỏ' => 'Ỏ'
      case 'ô' => 'Ô'
      case 'ố' => 'Ố'
      case 'ồ' => 'Ồ'
      case 'ỗ' => 'Ỗ'
      case 'ộ' => 'Ộ'
      case 'ổ' => 'Ổ'
      case 'ơ' => 'Ơ'
      case 'ớ' => 'Ớ'
      case 'ờ' => 'Ờ'
      case 'ỡ' => 'Ỡ'
      case 'ợ' => 'Ợ'
      case 'ở' => 'Ở'
      case 'ú' => 'Ú'
      case 'ù' => 'Ù'
      case 'ũ' => 'Ũ'
      case 'ụ' => 'Ụ'
      case 'ủ' => 'Ủ'
      case 'ư' => 'Ư'
      case 'ứ' => 'Ứ'
      case 'ừ' => 'Ừ'
      case 'ữ' => 'Ữ'
      case 'ự' => 'Ự'
      case 'ử' => 'Ử'
      case 'ý' => 'Ý'
      case 'ỳ' => 'Ỳ'
      case 'ỹ' => 'Ỹ'
      case 'ỵ' => 'Ỵ'
      case 'ỷ' => 'Ỷ'
      case _ => c
  }

  function Upper(s: string): (r: string)
    ensures |r| == |s| && forall i | 0 <= i < |s| :: r[i] == UpperChar(s[i])
  {
    seq(|s|, i requires 0 <= i < |s| => UpperChar(s[i]))
  }

  /** Lower-case mapping of one ASCII character; other characters are left unchanged. */
  function LowerChar(c: char): char {
    if 'A' <= c <= 'Z' then (c as int + 32) as char else c
  }

  function Lower(s: string): (r: string)
    ensures |r| == |s| && forall i | 0 <= i < |s| :: r[i] == LowerChar(s[i])
  {
    seq(|s|, i requires 0 <= i < |s| => LowerChar(s[i]))
  }

  predicate IsUpperOrDigit(c: char) {
    'A' <= c <= 'Z' || '0' <= c <= '9'
  }

  /** Upper-casing leaves A-Z and 0-9 unchanged. */
  lemma UpperKeeps(s: string)
    requires All(s, IsUpperOrDigit)
    ensures Upper(s) == s
  {
  }

  // ---------------------------------------------------------------------------
  // Vietnamese capitals and their base letters

  /** Number of entries in the capital-to-base-letter table of the Python code generator. */
  const CapitalCount: nat := 67

  /** Entry i of that table, in the order the table is written: (capital, base letter). */
  function CapitalEntry(i: nat): (char, char)
    requires i < CapitalCount
  {
    match i
      case 0 => ('Á', 'A')
      case 1 => ('À', 'A')
      case 2 => ('Ã', 'A')
      case 3 => ('Ạ', 'A')
      case 4 => ('Ả', 'A')
      case 5 => ('Ă', 'A')
      case 6 => ('Ắ', 'A')
      case 7 => ('Ằ', 'A')
      case 8 => ('Ẵ', 'A')
      case 9 => ('Ặ', 'A')
      case 10 => ('Ẳ', 'A')
      case 11 => ('Â', 'A')
      case 12 => ('Ấ', 'A')
      case 13 => ('Ầ', 'A')
      case 14 => ('Ẫ', 'A')
      case 15 => ('Ậ', 'A')
      case 16 => ('Ẩ', 'A')
      case 17 => ('É', 'E')
      case 18 => ('È', 'E')
      case 19 => ('Ẽ', 'E')
      case 20 => ('Ẹ', 'E')
      case 21 => ('Ẻ', 'E')
      case 22 => ('Ê', 'E')
      case 23 => ('Ế', 'E')
      case 24 => ('Ề', 'E')
      case 25 => ('Ễ', 'E')
      case 26 => ('Ệ', 'E')
      case 27 => ('Ể', 'E')
      case 28 => ('Í', 'I')
      case 29 => ('Ì', 'I')
      case 30 => ('Ĩ', 'I')
      case 31 => ('Ị', 'I')
      case 32 => ('Ỉ', 'I')
      case 33 => ('Ó', 'O')
      case 34 => ('Ò', 'O')
      case 35 => ('Õ', 'O')
      case 36 => ('Ọ', 'O')
      case 37 => ('Ỏ', 'O')
      case 38 => ('Ô', 'O')
      case 39 => ('Ố', 'O')
      case 40 => ('Ồ', 'O')
      case 41 => ('Ỗ', 'O')
      case 42 => ('Ộ', 'O')
      case 43 => ('Ổ', 'O')
      case 44 => ('Ơ', 'O')
      case 45 => ('Ớ', 'O')
      case 46 => ('Ờ', 'O')
      case 47 => ('Ỡ', 'O')
      case 48 => ('Ợ', 'O')
      case 49 => ('Ở', 'O')
      case 50 => ('Ú', 'U')
      case 51 => ('Ù', 'U')
      case 52 => ('Ũ', 'U')
      case 53 => ('Ụ', 'U')
      case 54 => ('Ủ', 'U')
      case 55 => ('Ư', 'U')
      case 56 => ('Ứ', 'U')
      case 57 => ('Ừ', 'U')
      case 58 => ('Ữ', 'U')
      case 59 => ('Ự', 'U')
      case 60 => ('Ử', 'U')
      case 61 => ('Ý', 'Y')
      case 62 => ('Ỳ', 'Y')
      case 63 => ('Ỹ', 'Y')
      case 64 => ('Ỵ', 'Y')
      case 65 => ('Ỷ', 'Y')
      case _ => ('Đ', 'D')
  }

  /** Position of c among the table's capitals, or CapitalCount when c is not one of them. */
  function CapitalIndex(c: char): (i: nat)
    ensures i <= CapitalCount
  {
    match c
      case 'Á' => 0
      case 'À' => 1
      case 'Ã' => 2
      case 'Ạ' => 3
      case 'Ả' => 4
      case 'Ă' => 5
      case 'Ắ' => 6
      case 'Ằ' => 7
      case 'Ẵ' => 8
      case 'Ặ' => 9
      case 'Ẳ' => 10
      case 'Â' => 11
      case 'Ấ' => 12
      case 'Ầ' => 13
      case 'Ẫ' => 14
      case 'Ậ' => 15
      case 'Ẩ' => 16
      case 'É' => 17
      case 'È' => 18
      case 'Ẽ' => 19
      case 'Ẹ' => 20
      case 'Ẻ' => 21
      case 'Ê' => 22
      case 'Ế' => 23
      case 'Ề' => 24
      case 'Ễ' => 25
      case 'Ệ' => 26
      case 'Ể' => 27
      case 'Í' => 28
      case 'Ì' => 29
      case 'Ĩ' => 30
      case 'Ị' => 31
      case 'Ỉ' => 32
      case 'Ó' => 33
      case 'Ò' => 34
      case 'Õ' => 35
      case 'Ọ' => 36
      case 'Ỏ' => 37
      case 'Ô' => 38
      case 'Ố' => 39
      case 'Ồ' => 40
      case 'Ỗ' => 41
      case 'Ộ' => 42
      case 'Ổ' => 43
      case 'Ơ' => 44
      case 'Ớ' => 45
      case 'Ờ' => 46
      case 'Ỡ' => 47
      case 'Ợ' => 48
      case 'Ở' => 49
      case 'Ú' => 50
      case 'Ù' => 51
      case 'Ũ' => 52
      case 'Ụ' => 53
      case 'Ủ' => 54
      case 'Ư' => 55
      case 'Ứ' => 56
      case 'Ừ' => 57
      case 'Ữ' => 58
      case 'Ự' => 59
      case 'Ử' => 60
      case 'Ý' => 61
      case 'Ỳ' => 62
      case 'Ỹ' => 63
      case 'Ỵ' => 64
      case 'Ỷ' => 65
      case 'Đ' => 66
      case _ => CapitalCount
  }

  /** The base letter of a Vietnamese capital; every other character is left unchanged. */
  function BaseOfCapital(c: char): char {
    var i := CapitalIndex(c);
    if i < CapitalCount then CapitalEntry(i).1 else c
  }

  /** The table's capitals are pairwise distinct, and CapitalIndex finds each of them. */
  lemma CapitalIndexOfEntry()
    ensures forall i | 0 <= i < CapitalCount :: CapitalIndex(CapitalEntry(i).0) == i
  {
    forall i | 0 <= i < CapitalCount
      ensures CapitalIndex(CapitalEntry(i).0) == i
    {
      CapitalIndexOfEntryFrom(i);
    }
  }

  /** The same, a few entries at a time. */
  lemma CapitalIndexOfEntryFrom(i: nat)
    requires i < CapitalCount
    ensures CapitalIndex(CapitalEntry(i).0) == i
  {
    if i < 4 {
      CapitalIndexOfEntryBetween0(i);
    } else if i < 8 {
      CapitalIndexOfEntryBetween4(i);
    } else if i < 12 {
      CapitalIndexOfEntryBetween8(i);
    } else if i < 16 {
      CapitalIndexOfEntryBetween12(i);
    } else if i < 20 {
      CapitalIndexOfEntryBetween16(i);
    } else if i < 24 {
      CapitalIndexOfEntryBetween20(i);
    } else if i < 28 {
      CapitalIndexOfEntryBetween24(i);
    } else if i < 32 {
      CapitalIndexOfEntryBetween28(i);
    } else if i < 36 {
      CapitalIndexOfEntryBetween32(i);
    } else if i < 40 {
      CapitalIndexOfEntryBetween36(i);
    } else if i < 44 {
      CapitalIndexOfEntryBetween40(i);
    } else if i < 48 {
      CapitalIndexOfEntryBetween44(i);
    } else if i < 52 {
      CapitalIndexOfEntryBetween48(i);
    } else if i < 56 {
      CapitalIndexOfEntryBetween52(i);
    } else if i < 60 {
      CapitalIndexOfEntryBetween56(i);
    } else if i < 64 {
      CapitalIndexOfEntryBetween60(i);
    } else {
      CapitalIndexOfEntryBetween64(i);
    }
  }

  lemma CapitalIndexOfEntryBetween0(i: nat)
    requires i < 4
    ensures CapitalIndex(CapitalEntry(i).0) == i
  {
  }

  lemma CapitalIndexOfEntryBetween4(i: nat)
    requires 4 <= i < 8
    ensures CapitalIndex(CapitalEntry(i).0) == i
  {
  }

  lemma CapitalIndexOfEntryBetween8(i: nat)
    requires 8 <= i < 12
    ensures CapitalIndex(CapitalEntry(i).0) == i
  {
  }

  lemma CapitalIndexOfEntryBetween12(i: nat)
    requires 12 <= i < 16
    ensures CapitalIndex(CapitalEntry(i).0) == i
  {
  }

  lemma CapitalIndexOfEntryBetween16(i: nat)
    requires 16 <= i < 20
    ensures CapitalIndex(CapitalEntry(i).0) == i
  {
  }

  lemma CapitalIndexOfEntryBetween20(i: nat)
    requires 20 <= i < 24
    ensures CapitalIndex(CapitalEntry(i).0) == i
  {
  }

  lemma CapitalIndexOfEntryBetween24(i: nat)
    requires 24 <= i < 28
    ensures CapitalIndex(CapitalEntry(i).0) == i
  {
  }

  lemma CapitalIndexOfEntryBetween28(i: nat)
    requires 28 <= i < 32
    ensures CapitalIndex(CapitalEntry(i).0) == i
  {
  }

  lemma CapitalIndexOfEntryBetween32(i: nat)
    requires 32 <= i < 36
    ensures CapitalIndex(CapitalEntry(i).0) == i
  {
  }

  lemma CapitalIndexOfEntryBetween36(i: nat)
    requires 36 <= i < 40
    ensures CapitalIndex(CapitalEntry(i).0) == i
  {
  }

  lemma CapitalIndexOfEntryBetween40(i: nat)
    requires 40 <= i < 44
    ensures CapitalIndex(CapitalEntry(i).0) == i
  {
  }

  lemma CapitalIndexOfEntryBetween44(i: nat)
    requires 44 <= i < 48
    ensures CapitalIndex(CapitalEntry(i).0) == i
  {
  }

  lemma CapitalIndexOfEntryBetween48(i: nat)
    requires 48 <= i < 52
    ensures CapitalIndex(CapitalEntry(i).0) == i
  {
  }

  lemma CapitalIndexOfEntryBetween52(i: nat)
    requires 52 <= i < 56
    ensures CapitalIndex(CapitalEntry(i).0) == i
  {
  }

  lemma CapitalIndexOfEntryBetween56(i: nat)
    requires 56 <= i < 60
    ensures CapitalIndex(CapitalEntry(i).0) == i
  {
  }

  lemma CapitalIndexOfEntryBetween60(i: nat)
    requires 60 <= i < 64
    ensures CapitalIndex(CapitalEntry(i).0) == i
  {
  }

  lemma CapitalIndexOfEntryBetween64(i: nat)
    requires 64 <= i < 67
    ensures CapitalIndex(CapitalEntry(i).0) == i
  {
  }

  /** CapitalIndex only reports a position whose capital is c itself. */
  lemma EntryOfCapitalIndex(c: char)
    requires CapitalIndex(c) < CapitalCount
    ensures CapitalEntry(CapitalIndex(c)).0 == c
  {
  }

  /** Every capital is outside ASCII and every base letter is an ASCII capital. */
  lemma CapitalEntryShape()
    ensures forall i | 0 <= i < CapitalCount ::
      CapitalEntry(i).0 as int >= 128 && 'A' <= CapitalEntry(i).1 <= 'Z'
  {
  }

  // ---------------------------------------------------------------------------
  // Canonical decomposition

  /** The combining marks that occur in decomposed Vietnamese vowels. */
  datatype Mark = Grave | Acute | Tilde | HookAbove | DotBelow | Breve | Circumflex | Horn

  function MarkChar(m: Mark): (c: char)
    ensures '\U{0300}' <= c <= '\U{036F}'
  {
    match m
    case Grave => '\U{0300}'
    case Acute => '\U{0301}'
    case Circumflex => '\U{0302}'
    case Tilde => '\U{0303}'
    case Breve => '\U{0306}'
    case HookAbove => '\U{0309}'
    case Horn => '\U{031B}'
    case DotBelow => '\U{0323}'
  }

  function MarkString(ms: seq<Mark>): (s: string)
    ensures |s| == |ms| && forall j | 0 <= j < |ms| :: s[j] == MarkChar(ms[j])
  {
    seq(|ms|, j requires 0 <= j < |ms| => MarkChar(ms[j]))
  }

  /**
   * Canonical decomposition of a Vietnamese vowel: its ASCII base letter and
   * its combining marks in canonical order. Every other character (including
   * Đ and đ, which have no decomposition) is its own base with no marks.
   */
  function Decompose(c: char): (char, seq<Mark>) {
    match c
      case 'Á' => ('A', [Acute])
      case 'á' => ('a', [Acute])
      case 'À' => ('A', [Grave])
      case 'à' => ('a', [Grave])
      case 'Ã' => ('A', [Tilde])
      case 'ã' => ('a', [Tilde])
      case 'Ạ' => ('A', [DotBelow])
      case 'ạ' => ('a', [DotBelow])
      case 'Ả' => ('A', [HookAbove])
      case 'ả' => ('a', [HookAbove])
      case 'Ă' => ('A', [Breve])
      case 'ă' => ('a', [Breve])
      case 'Ắ' => ('A', [Breve, Acute])
      case 'ắ' => ('a', [Breve, Acute])
      case 'Ằ' => ('A', [Breve, Grave])
      case 'ằ' => ('a', [Breve, Grave])
      case 'Ẵ' => ('A', [Breve, Tilde])
      case 'ẵ' => ('a', [Breve, Tilde])
      case 'Ặ' => ('A', [DotBelow, Breve])
      case 'ặ' => ('a', [DotBelow, Breve])
      case 'Ẳ' => ('A', [Breve, HookAbove])
      case 'ẳ' => ('a', [Breve, HookAbove])
      case 'Â' => ('A', [Circumflex])
      case 'â' => ('a', [Circumflex])
      case 'Ấ' => ('A', [Circumflex, Acute])
      case 'ấ' => ('a', [Circumflex, Acute])
      case 'Ầ' => ('A', [Circumflex, Grave])
      case 'ầ' => ('a', [Circumflex, Grave])
      case 'Ẫ' => ('A', [Circumflex, Tilde])
      case 'ẫ' => ('a', [Circumflex, Tilde])
      case 'Ậ' => ('A', [DotBelow, Circumflex])
      case 'ậ' => ('a', [DotBelow, Circumflex])
      case 'Ẩ' => ('A', [Circumflex, HookAbove])
      case 'ẩ' => ('a', [Circumflex, HookAbove])
      case 'É' => ('E', [Acute])
      case 'é' => ('e', [Acute])
      case 'È' => ('E', [Grave])
      case 'è' => ('e', [Grave])
      case 'Ẽ' => ('E', [Tilde])
      case 'ẽ' => ('e', [Tilde])
      case 'Ẹ' => ('E', [DotBelow])
      case 'ẹ' => ('e', [DotBelow])
      case 'Ẻ' => ('E', [HookAbove])
      case 'ẻ' => ('e', [HookAbove])
      case 'Ê' => ('E', [Circumflex])
      case 'ê' => ('e', [Circumflex])
      case 'Ế' => ('E', [Circumflex, Acute])
      case 'ế' => ('e', [Circumflex, Acute])
      case 'Ề' => ('E', [Circumflex, Grave])
      case 'ề' => ('e', [Circumflex, Grave])
      case 'Ễ' => ('E', [Circumflex, Tilde])
      case 'ễ' => ('e', [Circumflex, Tilde])
      case 'Ệ' => ('E', [DotBelow, Circumflex])
      case 'ệ' => ('e', [DotBelow, Circumflex])
      case 'Ể' => ('E', [Circumflex, HookAbove])
      case 'ể' => ('e', [Circumflex, HookAbove])
      case 'Í' => ('I', [Acute])
      case 'í' => ('i', [Acute])
      case 'Ì' => ('I', [Grave])
      case 'ì' => ('i', [Grave])
      case 'Ĩ' => ('I', [Tilde])
      case 'ĩ' => ('i', [Tilde])
      case 'Ị' => ('I', [DotBelow])
      case 'ị' => ('i', [DotBelow])
      case 'Ỉ' => ('I', [HookAbove])
      case 'ỉ' => ('i', [HookAbove])
      case 'Ó' => ('O', [Acute])
      case 'ó' => ('o', [Acute])
      case 'Ò' => ('O', [Grave])
      case 'ò' => ('o', [Grave])
      case 'Õ' => ('O', [Tilde])
      case 'õ' => ('o', [Tilde])
      case 'Ọ' => ('O', [DotBelow])
      case 'ọ' => ('o', [DotBelow])
      case 'Ỏ' => ('O', [HookAbove])
      case 'ỏ' => ('o', [HookAbove])
      case 'Ô' => ('O', [Circumflex])
      case 'ô' => ('o', [Circumflex])
      case 'Ố' => ('O', [Circumflex, Acute])
      case 'ố' => ('o', [Circumflex, Acute])
      case 'Ồ' => ('O', [Circumflex, Grave])
      case 'ồ' => ('o', [Circumflex, Grave])
      case 'Ỗ' => ('O', [Circumflex, Tilde])
      case 'ỗ' => ('o', [Circumflex, Tilde])
      case 'Ộ' => ('O', [DotBelow, Circumflex])
      case 'ộ' => ('o', [DotBelow, Circumflex])
      case 'Ổ' => ('O', [Circumflex, HookAbove])
      case 'ổ' => ('o', [Circumflex, HookAbove])
      case 'Ơ' => ('O', [Horn])
      case 'ơ' => ('o', [Horn])
      case 'Ớ' => ('O', [Horn, Acute])
      case 'ớ' => ('o', [Horn, Acute])
      case 'Ờ' => ('O', [Horn, Grave])
      case 'ờ' => ('o', [Horn, Grave])
      case 'Ỡ' => ('O', [Horn, Tilde])
      case 'ỡ' => ('o', [Horn, Tilde])
      case 'Ợ' => ('O', [Horn, DotBelow])
      case 'ợ' => ('o', [Horn, DotBelow])
      case 'Ở' => ('O', [Horn, HookAbove])
      case 'ở' => ('o', [Horn, HookAbove])
      case 'Ú' => ('U', [Acute])
      case 'ú' => ('u', [Acute])
      case 'Ù' => ('U', [Grave])
      case 'ù' => ('u', [Grave])
      case 'Ũ' => ('U', [Tilde])
      case 'ũ' => ('u', [Tilde])
      case 'Ụ' => ('U', [DotBelow])
      case 'ụ' => ('u', [DotBelow])
      case 'Ủ' => ('U', [HookAbove])
      case 'ủ' => ('u', [HookAbove])
      case 'Ư' => ('U', [Horn])
      case 'ư' => ('u', [Horn])
      case 'Ứ' => ('U', [Horn, Acute])
      case 'ứ' => ('u', [Horn, Acute])
      case 'Ừ' => ('U', [Horn, Grave])
      case 'ừ' => ('u', [Horn, Grave])
      case 'Ữ' => ('U', [Horn, Tilde])
      case 'ữ' => ('u', [Horn, Tilde])
      case 'Ự' => ('U', [Horn, DotBelow])
      case 'ự' => ('u', [Horn, DotBelow])
      case 'Ử' => ('U', [Horn, HookAbove])
      case 'ử' => ('u', [Horn, HookAbove])
      case 'Ý' => ('Y', [Acute])
      case 'ý' => ('y', [Acute])
      case 'Ỳ' => ('Y', [Grave])
      case 'ỳ' => ('y', [Grave])
      case 'Ỹ' => ('Y', [Tilde])
      case 'ỹ' => ('y', [Tilde])
      case 'Ỵ' => ('Y', [DotBelow])
      case 'ỵ' => ('y', [DotBelow])
      case 'Ỷ' => ('Y', [HookAbove])
      case 'ỷ' => ('y', [HookAbove])
      case _ => (c, [])
  }

  /** A decomposed character keeps its base outside the combining-mark block. */
  lemma DecomposeBase(c: char)
    ensures Decompose(c).0 == c || 'A' <= Decompose(c).0 <= 'z'
  {
  }

  predicate IsCombiningMark(c: char) {
    '\U{0300}' <= c <= '\U{036F}'
  }

  /** NFD of one character on the modelled alphabet. */
  function Nfd(c: char): (s: string)
    ensures |s| >= 1 && forall j | 1 <= j < |s| :: IsCombiningMark(s[j])
  {
    [Decompose(c).0] + MarkString(Decompose(c).1)
  }

  /** NFD of a string: the decompositions of its characters, in order. */
  function NfdString(s: string): string
    decreases |s|
  {
    if s == [] then [] else Nfd(s[0]) + NfdString(s[1..])
  }
}
