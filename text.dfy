/** String helpers shared by the screens: the Kotlin `String` operations
    (`trim`, `isBlank`, `startsWith`, `take`, `replace`, `split`, `joinToString`,
    `padStart`, integer-to-text) and the Python `str.split`/`str.join` used by the
    services. Whitespace and digits are the ASCII ones; case and accents
    cover ASCII and the Latin-1 letters; see README "Left out". */
module Text {

  /** Kotlin `isWhitespace` on ASCII: the space, U+0009..U+000D and the
      separators U+001C..U+001F (`Character.isWhitespace`). */
  predicate IsWhitespace(c: char) {
    c == ' ' || c == '\t' || c == '\n' || c == '\U{000B}' || c == '\U{000C}' || c == '\r'
    || c == '\U{001C}' || c == '\U{001D}' || c == '\U{001E}' || c == '\U{001F}'
  }

  predicate IsDigit(c: char) {
    '0' <= c <= '9'
  }

  /** Kotlin `isBlank`: empty or whitespace only. */
  predicate IsBlank(s: string) {
    forall i :: 0 <= i < |s| ==> IsWhitespace(s[i])
  }

  predicate AllDigits(s: string) {
    forall i :: 0 <= i < |s| ==> IsDigit(s[i])
  }

  predicate StartsWith(s: string, p: string) {
    |p| <= |s| && s[..|p|] == p
  }

  predicate EndsWith(s: string, p: string) {
    |p| <= |s| && s[|s| - |p|..] == p
  }

  predicate ContainsChar(s: string, c: char) {
    exists i :: 0 <= i < |s| && s[i] == c
  }

  /** The text without its trailing whitespace. */
  function TrimEndWs(s: string): string
    decreases |s|
  {
    if s != [] && IsWhitespace(s[|s| - 1]) then TrimEndWs(s[..|s| - 1]) else s
  }

  /** Kotlin/Java `trim()`: leading whitespace off, then trailing. */
  function Trim(s: string): string
    decreases |s|
  {
    if s != [] && IsWhitespace(s[0]) then Trim(s[1..]) else TrimEndWs(s)
  }

  /** `s[i..i + n]` has only whitespace on both sides and no whitespace at
      its ends. */
  predicate SolidCut(s: string, i: nat, n: nat) {
    i + n <= |s|
    && (forall k :: 0 <= k < i ==> IsWhitespace(s[k]))
    && (forall k :: i + n <= k < |s| ==> IsWhitespace(s[k]))
    && (n == 0 || (!IsWhitespace(s[i]) && !IsWhitespace(s[i + n - 1])))
  }

  lemma {:induction false} TrimEndCut(s: string)
    ensures var r := TrimEndWs(s);
      && |r| <= |s| && r == s[..|r|]
      && (forall k :: |r| <= k < |s| ==> IsWhitespace(s[k]))
      && (r != [] ==> !IsWhitespace(r[|r| - 1]))
    decreases |s|
  {
    if s != [] && IsWhitespace(s[|s| - 1]) {
      TrimEndCut(s[..|s| - 1]);
    }
  }

  /** What `trim` promises: it cuts off whitespace only, and all of it. */
  lemma {:induction false} TrimCut(s: string) returns (i: nat)
    ensures SolidCut(s, i, |Trim(s)|) && Trim(s) == s[i..i + |Trim(s)|]
    decreases |s|
  {
    if s != [] && IsWhitespace(s[0]) {
      var j := TrimCut(s[1..]);
      i := j + 1;
      assert s[1..][j..j + |Trim(s)|] == s[i..i + |Trim(s)|];
    } else {
      i := 0;
      TrimEndCut(s);
    }
  }

  /** There is only one solid cut (up to where an empty one sits). */
  lemma SolidCutsAgree(s: string, i: nat, n: nat, j: nat, m: nat)
    requires SolidCut(s, i, n) && SolidCut(s, j, m)
    ensures n == m && (n > 0 ==> i == j)
  {
  }

  /** Any solid cut of `s` is its trim. */
  lemma TrimUnique(s: string, i: nat, n: nat)
    requires SolidCut(s, i, n)
    ensures Trim(s) == s[i..i + n]
  {
    var j := TrimCut(s);
    SolidCutsAgree(s, i, n, j, |Trim(s)|);
  }

  /** Text that starts and ends with a non-blank character is its own trim. */
  lemma TrimOfSolid(r: string)
    requires r != [] && !IsWhitespace(r[0]) && !IsWhitespace(r[|r| - 1])
    ensures Trim(r) == r
  {
    TrimUnique(r, 0, |r|);
  }

  /** Trimming twice is trimming once. */
  lemma TrimIdempotent(s: string)
    ensures Trim(Trim(s)) == Trim(s)
  {
    var i := TrimCut(s);
    var t := Trim(s);
    if t != [] {
      assert t[0] == s[i] && t[|t| - 1] == s[i + |t| - 1];
      TrimOfSolid(t);
    } else {
      TrimUnique(t, 0, 0);
    }
  }

  /** A string is blank exactly when trimming leaves nothing. */
  lemma BlankIffTrimEmpty(s: string)
    ensures IsBlank(s) <==> Trim(s) == []
  {
    var i := TrimCut(s);
    if IsBlank(s) {
      TrimUnique(s, 0, 0);
    }
  }

  /** Kotlin `take(n)`: the first min(n, length) characters. */
  function Take(s: string, n: nat): (r: string)
    ensures |r| == if n < |s| then n else |s|
    ensures r == s[..|r|]
  {
    if n < |s| then s[..n] else s
  }

  /** Kotlin `replace(a, b)` on characters. */
  function ReplaceChar(s: string, a: char, b: char): (r: string)
    ensures |r| == |s|
    ensures forall i :: 0 <= i < |s| ==> r[i] == (if s[i] == a then b else s[i])
    decreases |s|
  {
    if s == [] then [] else [if s[0] == a then b else s[0]] + ReplaceChar(s[1..], a, b)
  }

  /** Kotlin `split(sep)` / Python `str.split(sep)`: every piece, empty ones included;
      never an empty list. */
  function Split(s: string, sep: char): (r: seq<string>)
    ensures |r| >= 1
    decreases |s|
  {
    if s == [] then [""]
    else if s[0] == sep then [""] + Split(s[1..], sep)
    else
      var rest := Split(s[1..], sep);
      [[s[0]] + rest[0]] + rest[1..]
  }

  /** Kotlin `joinToString(sep)` / Python `sep.join(parts)`. */
  function Join(parts: seq<string>, sep: char): string
    decreases |parts|
  {
    if parts == [] then ""
    else if |parts| == 1 then parts[0]
    else parts[0] + [sep] + Join(parts[1..], sep)
  }

  /** Splitting a text whose first piece has no separator. */
  lemma {:induction false} SplitPrefix(a: string, t: string, sep: char)
    requires !ContainsChar(a, sep)
    ensures Split(a + t, sep) == [a + Split(t, sep)[0]] + Split(t, sep)[1..]
    decreases |a|
  {
    if a != [] {
      assert (a + t)[1..] == a[1..] + t;
      assert (a + t)[0] == a[0];
      forall i | 0 <= i < |a[1..]| ensures a[1..][i] != sep {
        assert a[1..][i] == a[i + 1];
      }
      SplitPrefix(a[1..], t, sep);
      assert [a[0]] + (a[1..] + Split(t, sep)[0]) == a + Split(t, sep)[0];
    } else {
      assert a + t == t;
      var r := Split(t, sep);
      assert a + r[0] == r[0];
      assert r == [r[0]] + r[1..];
    }
  }

  /** Splitting a join gives the parts back, provided no part holds the
      separator and the list is not empty. */
  lemma {:induction false} SplitJoin(parts: seq<string>, sep: char)
    requires parts != []
    requires forall i :: 0 <= i < |parts| ==> !ContainsChar(parts[i], sep)
    ensures Split(Join(parts, sep), sep) == parts
    decreases |parts|
  {
    if |parts| == 1 {
      SplitPrefix(parts[0], "", sep);
      assert parts[0] + "" == parts[0];
    } else {
      var t := [sep] + Join(parts[1..], sep);
      assert Join(parts, sep) == parts[0] + t;
      SplitPrefix(parts[0], t, sep);
      SplitJoin(parts[1..], sep);
      assert t[1..] == Join(parts[1..], sep);
      assert Split(t, sep) == [""] + parts[1..];
      assert parts[0] + "" == parts[0];
      assert parts == [parts[0]] + parts[1..];
    }
  }

  /** Joining a split gives the text back. */
  lemma {:induction false} JoinSplit(s: string, sep: char)
    ensures Join(Split(s, sep), sep) == s
    decreases |s|
  {
    if s != [] {
      JoinSplit(s[1..], sep);
      var rest := Split(s[1..], sep);
      if s[0] == sep {
        assert Split(s, sep) == [""] + rest;
        assert ([""] + rest)[1..] == rest;
      } else {
        assert Split(s, sep) == [[s[0]] + rest[0]] + rest[1..];
        if |rest| == 1 {
          assert [rest[0]] == rest;
        } else {
          assert ([[s[0]] + rest[0]] + rest[1..])[1..] == rest[1..];
          assert Join(rest, sep) == rest[0] + [sep] + Join(rest[1..], sep);
        }
      }
    }
  }

  /** Kotlin `split(sep, limit = 2)`: cut at the first separator only. */
  function SplitFirst(s: string, sep: char): (r: seq<string>)
    ensures |r| == 1 <==> !ContainsChar(s, sep)
    ensures |r| == 1 ==> r[0] == s
    ensures |r| == 2 ==> !ContainsChar(r[0], sep) && r[0] + [sep] + r[1] == s
    ensures 1 <= |r| <= 2
    decreases |s|
  {
    if s == [] then [s]
    else if s[0] == sep then ["", s[1..]]
    else
      var rest := SplitFirst(s[1..], sep);
      if |rest| == 1 then
        assert forall i | 1 <= i < |s| :: s[i] == s[1..][i - 1];
        [s]
      else
        assert ContainsChar(s, sep) by {
          var i :| 0 <= i < |s[1..]| && s[1..][i] == sep;
          assert s[i + 1] == sep;
        }
        assert forall i | 1 <= i < |[s[0]] + rest[0]| :: ([s[0]] + rest[0])[i] == rest[0][i - 1];
        assert [s[0]] + rest[0] + [sep] + rest[1] == [s[0]] + (rest[0] + [sep] + rest[1]);
        [[s[0]] + rest[0], rest[1]]
  }

  function DigitChar(d: nat): char
    requires d < 10
  {
    "0123456789"[d]
  }

  /** Decimal text of a natural number, without leading zeros. */
  function NatToString(n: nat): (r: string)
    ensures |r| >= 1 && AllDigits(r)
    ensures |r| > 1 ==> r[0] != '0'
    decreases n
  {
    if n < 10 then [DigitChar(n)]
    else
      var p := NatToString(n / 10);
      p + [DigitChar(n % 10)]
  }

  /** Kotlin `"$n"` for an `Int`. */
  function IntToString(n: int): string
  {
    if n < 0 then "-" + NatToString(-n) else NatToString(n)
  }

  function DigitValue(c: char): nat
    requires IsDigit(c)
  {
    (c as int - '0' as int) as nat
  }

  /** Value of a string of decimal digits (the inverse of NatToString). */
  function DigitsValue(s: string): nat
    requires AllDigits(s)
    decreases |s|
  {
    if s == [] then 0 else DigitsValue(s[..|s| - 1]) * 10 + DigitValue(s[|s| - 1])
  }

  /** NatToString is the decimal form: reading its digits back gives n. */
  lemma {:induction false} NatToStringValue(n: nat)
    ensures DigitsValue(NatToString(n)) == n
    decreases n
  {
    if n >= 10 {
      NatToStringValue(n / 10);
      var r := NatToString(n);
      assert r[..|r| - 1] == NatToString(n / 10);
    }
  }

  /** Kotlin `padStart(2, '0')`. */
  function PadStart2(s: string): (r: string)
    ensures |s| >= 2 ==> r == s
    ensures |s| < 2 ==> |r| == 2 && r[2 - |s|..] == s && (forall i :: 0 <= i < 2 - |s| ==> r[i] == '0')
  {
    if |s| >= 2 then s else seq(2 - |s|, _ => '0') + s
  }

  predicate OccursAt(s: string, sub: string, k: nat) {
    k + |sub| <= |s| && s[k..k + |sub|] == sub
  }

  /** Kotlin `indexOf(sub, from)`: the first position >= from where `sub` starts. */
  function IndexOfFrom(s: string, sub: string, from: nat): (r: int)
    ensures -1 <= r <= |s|
    ensures r >= 0 ==> from <= r && OccursAt(s, sub, r)
    ensures r >= 0 ==> forall k: nat :: from <= k < r ==> !OccursAt(s, sub, k)
    ensures r == -1 ==> forall k: nat :: from <= k ==> !OccursAt(s, sub, k)
    decreases |s| - from
  {
    if from + |sub| > |s| then -1
    else if s[from..from + |sub|] == sub then from
    else IndexOfFrom(s, sub, from + 1)
  }

  /** Kotlin `indexOfAny(chars, from)`. */
  function IndexOfAnyFrom(s: string, chars: set<char>, from: nat): (r: int)
    ensures r == -1 || (from <= r < |s| && s[r] in chars)
    ensures r >= 0 ==> forall k :: from <= k < r ==> s[k] !in chars
    ensures r == -1 ==> forall k :: from <= k < |s| ==> s[k] !in chars
    decreases |s| - from
  {
    if from >= |s| then -1
    else if s[from] in chars then from
    else IndexOfAnyFrom(s, chars, from + 1)
  }

  /** Kotlin `trim(c)`: strip one character from both ends, repeatedly. */
  function TrimCharStart(s: string, c: char): (r: string)
    ensures |r| <= |s| && r == s[|s| - |r|..]
    ensures r == [] || r[0] != c
    decreases |s|
  {
    if s != [] && s[0] == c then TrimCharStart(s[1..], c) else s
  }

  function TrimCharEnd(s: string, c: char): (r: string)
    ensures |r| <= |s| && r == s[..|r|]
    ensures r == [] || r[|r| - 1] != c
    decreases |s|
  {
    if s != [] && s[|s| - 1] == c then TrimCharEnd(s[..|s| - 1], c) else s
  }

  function TrimChar(s: string, c: char): string
  {
    TrimCharEnd(TrimCharStart(s, c), c)
  }

  /** The text with `f` applied to every character. */
  function MapChars(s: string, f: char -> char): (r: string)
    ensures |r| == |s| && forall i :: 0 <= i < |s| ==> r[i] == f(s[i])
  {
    seq(|s|, i requires 0 <= i < |s| => f(s[i]))
  }

  lemma MapCharsSlice(s: string, f: char -> char, i: nat, j: nat)
    requires i <= j <= |s|
    ensures MapChars(s, f)[i..j] == MapChars(s[i..j], f)
  {
    var a, b := MapChars(s, f)[i..j], MapChars(s[i..j], f);
    forall k | 0 <= k < j - i ensures a[k] == b[k] {
      assert a[k] == MapChars(s, f)[i + k];
    }
  }

  /** A map that keeps whitespace where it is keeps a solid cut... */
  lemma MapCharsKeepsCut(s: string, f: char -> char, i: nat, n: nat)
    requires forall c :: IsWhitespace(f(c)) <==> IsWhitespace(c)
    requires SolidCut(s, i, n)
    ensures SolidCut(MapChars(s, f), i, n)
  {
  }

  /** ... so the trim of the mapped text is the mapped cut... */
  lemma TrimMapCut(s: string, f: char -> char, i: nat, n: nat)
    requires forall c :: IsWhitespace(f(c)) <==> IsWhitespace(c)
    requires SolidCut(s, i, n)
    ensures Trim(MapChars(s, f)) == MapChars(s[i..i + n], f)
  {
    MapCharsKeepsCut(s, f, i, n);
    TrimUnique(MapChars(s, f), i, n);
    MapCharsSlice(s, f, i, i + n);
  }

  /** ... and mapping commutes with `trim`. */
  lemma TrimMapChars(s: string, f: char -> char)
    requires forall c :: IsWhitespace(f(c)) <==> IsWhitespace(c)
    ensures Trim(MapChars(s, f)) == MapChars(Trim(s), f)
  {
    var i := TrimCut(s);
    TrimMapCut(s, f, i, |Trim(s)|);
  }

  /** `lowercase()` on ASCII and Latin-1: each capital letter moves 32 code
      points up (U+00D7, the multiplication sign, is not a letter). */
  function LowerChar(c: char): char
  {
    if 'A' <= c <= 'Z' || ('\U{00C0}' <= c <= '\U{00DE}' && c != '\U{00D7}') then (c as int + 32) as char
    else c
  }

  /** Kotlin `lowercase()`. */
  function Lowercase(s: string): string {
    MapChars(s, LowerChar)
  }

  /** NFD decomposition followed by removal of the combining marks, on
      Latin-1: an accented letter keeps its base letter; letters without a
      decomposition (Æ, Ð, Ø, Þ, ß and their lower-case forms) stay. */
  function StripMarkChar(c: char): char
  {
    if c < '\U{00C0}' || c > '\U{00FF}' then c
    else if 'À' <= c <= 'Å' then 'A' else if c == 'Ç' then 'C' else if 'È' <= c <= 'Ë' then 'E'
    else if 'Ì' <= c <= 'Ï' then 'I' else if c == 'Ñ' then 'N' else if 'Ò' <= c <= 'Ö' then 'O'
    else if 'Ù' <= c <= 'Ü' then 'U' else if c == 'Ý' then 'Y'
    else if 'à' <= c <= 'å' then 'a' else if c == 'ç' then 'c' else if 'è' <= c <= 'ë' then 'e'
    else if 'ì' <= c <= 'ï' then 'i' else if c == 'ñ' then 'n' else if 'ò' <= c <= 'ö' then 'o'
    else if 'ù' <= c <= 'ü' then 'u' else if c == 'ý' || c == 'ÿ' then 'y'
    else c
  }

  /** `Normalizer.normalize(s, NFD)` followed by removal of the combining marks. */
  function StripMarks(s: string): string {
    MapChars(s, StripMarkChar)
  }

  /** Kotlin `isLowerCase` on ASCII and the Latin-1 letters. */
  predicate IsLowerCase(c: char) {
    'a' <= c <= 'z' || ('\U{00DF}' <= c <= '\U{00FF}' && c != '\U{00F7}')
  }

  /** Kotlin `titlecase()` of a lower-case letter of the modelled alphabet. */
  function UpperChar(c: char): char
  {
    if 'a' <= c <= 'z' || ('\U{00E0}' <= c <= '\U{00FE}' && c != '\U{00F7}') then (c as int - 32) as char
    else if c == 'ÿ' then '\U{0178}'
    else c
  }

}
