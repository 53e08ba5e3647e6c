/** The few `str` operations the core relies on: `lower()`, `in`, `rfind`, `split(",")`,
    `",".join`, `str(int)` and `int(str)`, over Dafny strings (`seq<char>`). */
module Strings {
  import opened Wrappers

  predicate IsUpper(c: char) { 'A' <= c <= 'Z' }

  function LowerChar(c: char): char {
    if IsUpper(c) then (c as int + 32) as char else c
  }

  /** `s.lower()` for ASCII letters; every other character is kept. */
  function Lower(s: string): (r: string)
    ensures |r| == |s|
    ensures forall k :: 0 <= k < |s| ==> r[k] == LowerChar(s[k])
  {
    seq(|s|, k requires 0 <= k < |s| => LowerChar(s[k]))
  }

  predicate IsLower(s: string) {
    forall k :: 0 <= k < |s| ==> !IsUpper(s[k])
  }

  lemma LowerIsLower(s: string)
    ensures IsLower(Lower(s))
    ensures Lower(Lower(s)) == Lower(s)
  {
  }

  /** Lower-casing commutes with slicing, so it may be done before or after cutting a string. */
  lemma LowerSlice(s: string, i: nat, j: nat)
    requires i <= j <= |s|
    ensures Lower(s)[i..j] == Lower(s[i..j])
  {
  }

  /** `s.rfind(c)`: the last position of `c`, or -1. */
  function LastIndexOf(s: string, c: char): (i: int)
    ensures -1 <= i < |s|
    ensures i >= 0 ==> s[i] == c
    decreases |s|
  {
    if |s| == 0 then -1
    else if s[|s| - 1] == c then |s| - 1
    else LastIndexOf(s[..|s| - 1], c)
  }

  /** Appending text without `c` does not move the last `c`. */
  lemma {:induction false} LastIndexOfAppend(a: string, b: string, c: char)
    requires c !in b
    ensures LastIndexOf(a + b, c) == LastIndexOf(a, c)
    decreases |b|
  {
    if |b| > 0 {
      var s := a + b;
      assert s[|s| - 1] == b[|b| - 1];
      assert s[..|s| - 1] == a + b[..|b| - 1];
      LastIndexOfAppend(a, b[..|b| - 1], c);
    } else {
      assert a + b == a;
    }
  }

  /** No `c` follows the last `c`, and -1 means there is none at all. */
  lemma {:induction false} LastIndexOfIsLast(s: string, c: char)
    ensures c !in s[LastIndexOf(s, c) + 1..]
    ensures LastIndexOf(s, c) < 0 <==> c !in s
    decreases |s|
  {
    if |s| > 0 && s[|s| - 1] != c {
      var t := s[..|s| - 1];
      LastIndexOfIsLast(t, c);
      var i := LastIndexOf(t, c);
      assert s[i + 1..] == t[i + 1..] + [s[|s| - 1]];
      assert s == t + [s[|s| - 1]];
    }
  }

  /** Lower-casing moves no character that is not an ASCII letter, so the last `c` of a
      string is where it was before lower-casing. */
  lemma {:induction false} LastIndexOfLower(s: string, c: char)
    requires !IsUpper(c) && !('a' <= c <= 'z')
    ensures LastIndexOf(Lower(s), c) == LastIndexOf(s, c)
    decreases |s|
  {
    if |s| > 0 {
      var t := s[..|s| - 1];
      LowerSlice(s, 0, |s| - 1);
      assert Lower(s)[..|s| - 1] == Lower(t);
      LastIndexOfLower(t, c);
    }
  }

  /** `s.find(c)`: the first position of `c`, or -1. */
  function IndexOf(s: string, c: char): (i: int)
    ensures -1 <= i < |s|
    ensures i >= 0 ==> s[i] == c
    ensures forall k :: 0 <= k < |s| && (i < 0 || k < i) ==> s[k] != c
    decreases |s|
  {
    if |s| == 0 then -1
    else if s[0] == c then 0
    else
      var j := IndexOf(s[1..], c);
      if j < 0 then -1 else j + 1
  }

  lemma IndexOfAfter(x: string, c: char, y: string)
    requires c !in x
    ensures IndexOf(x + [c] + y, c) == |x|
  {
    var s := x + [c] + y;
    assert s[|x|] == c;
  }

  /** `s.split(sep)`: the pieces between separators, empty pieces included. */
  function Split(s: string, sep: char): (parts: seq<string>)
    ensures |parts| >= 1
    ensures forall k :: 0 <= k < |parts| ==> sep !in parts[k]
    decreases |s|
  {
    var i := IndexOf(s, sep);
    if i < 0 then [s]
    else
      var head, rest := s[..i], Split(s[i + 1..], sep);
      assert sep !in head by {
        forall k | 0 <= k < |head| ensures head[k] != sep { assert head[k] == s[k]; }
      }
      [head] + rest
  }

  /** `sep.join(parts)`. */
  function Join(parts: seq<string>, sep: char): string
    decreases |parts|
  {
    if |parts| == 0 then ""
    else if |parts| == 1 then parts[0]
    else parts[0] + [sep] + Join(parts[1..], sep)
  }

  /** `sep.join(parts)` for a separator of any length, such as `", "`. */
  function JoinWith(parts: seq<string>, sep: string): string
    decreases |parts|
  {
    if |parts| == 0 then ""
    else if |parts| == 1 then parts[0]
    else parts[0] + sep + JoinWith(parts[1..], sep)
  }

  /** Splitting loses nothing: joining the pieces gives back the original text. */
  lemma {:induction false} JoinSplit(s: string, sep: char)
    ensures Join(Split(s, sep), sep) == s
    decreases |s|
  {
    var i := IndexOf(s, sep);
    if i >= 0 {
      var head, tail := s[..i], s[i + 1..];
      JoinSplit(tail, sep);
      var rest := Split(tail, sep);
      SplitAt(s, sep);
      JoinCons(head, rest, sep);
      Around(s, i);
    }
  }

  /** A string is what comes before position `i`, the character there, and what follows. */
  lemma Around(s: string, i: int)
    requires 0 <= i < |s|
    ensures s == s[..i] + [s[i]] + s[i + 1..]
  {
  }

  /** Splitting at the first separator: the piece before it, then the split of the rest. */
  lemma SplitAt(s: string, sep: char)
    requires IndexOf(s, sep) >= 0
    ensures Split(s, sep) == [s[..IndexOf(s, sep)]] + Split(s[IndexOf(s, sep) + 1..], sep)
  {
  }

  /** Joining a first piece onto a non-empty list puts one separator between them. */
  lemma JoinCons(head: string, rest: seq<string>, sep: char)
    requires |rest| >= 1
    ensures Join([head] + rest, sep) == head + [sep] + Join(rest, sep)
  {
    assert ([head] + rest)[1..] == rest;
  }

  /** Joining separator-free pieces and splitting again gives the same pieces. */
  lemma {:induction false} SplitJoin(parts: seq<string>, sep: char)
    requires |parts| >= 1
    requires forall k :: 0 <= k < |parts| ==> sep !in parts[k]
    ensures Split(Join(parts, sep), sep) == parts
    decreases |parts|
  {
    if |parts| == 1 {
      assert IndexOf(parts[0], sep) < 0;
    } else {
      var rest := parts[1..];
      var s := Join(parts, sep);
      assert s == parts[0] + [sep] + Join(rest, sep);
      IndexOfAfter(parts[0], sep, Join(rest, sep));
      assert s[..|parts[0]|] == parts[0];
      assert s[|parts[0]| + 1..] == Join(rest, sep);
      SplitJoin(rest, sep);
      assert parts == [parts[0]] + rest;
    }
  }

  predicate IsDigit(c: char) { '0' <= c <= '9' }

  predicate AllDigits(s: string) {
    forall k :: 0 <= k < |s| ==> IsDigit(s[k])
  }

  function DigitChar(d: nat): char
    requires d < 10
  {
    ('0' as int + d) as char
  }

  /** `str(n)` for a non-negative integer: decimal digits, no leading zeros. */
  function NatToString(n: nat): (s: string)
    ensures |s| >= 1 && AllDigits(s)
    decreases n
  {
    if n < 10 then [DigitChar(n)] else NatToString(n / 10) + [DigitChar(n % 10)]
  }

  /** `str(i)`. */
  function IntToString(i: int): string {
    if i < 0 then "-" + NatToString(-i) else NatToString(i)
  }

  function ParseDigits(s: string): nat
    requires AllDigits(s)
    decreases |s|
  {
    if |s| == 0 then 0
    else ParseDigits(s[..|s| - 1]) * 10 + (s[|s| - 1] as int - '0' as int)
  }

  /** The characters `int` strips from both ends: the ASCII whitespace `\t\n\v\f\r` and
      space, and the characters beyond ASCII that `str.isspace()` accepts (which `int` first
      maps to a space). The ASCII separators U+001C to U+001F, although `str.isspace()`
      accepts them, are kept and make the parse fail. */
  predicate IntSpace(c: char) {
    c == ' ' || '\t' <= c <= '\r' || c == '\U{85}' || c == '\U{a0}'
    || c == '\U{1680}' || '\U{2000}' <= c <= '\U{200a}' || c == '\U{2028}' || c == '\U{2029}'
    || c == '\U{202f}' || c == '\U{205f}' || c == '\U{3000}'
  }

  predicate AllSpace(s: string) {
    forall k :: 0 <= k < |s| ==> IntSpace(s[k])
  }

  function TrimStart(s: string): (t: string)
    ensures |t| <= |s| && t == s[|s| - |t|..]
    decreases |s|
  {
    if |s| > 0 && IntSpace(s[0]) then TrimStart(s[1..]) else s
  }

  function TrimEnd(s: string): (t: string)
    ensures |t| <= |s| && t == s[..|t|]
    decreases |s|
  {
    if |s| > 0 && IntSpace(s[|s| - 1]) then TrimEnd(s[..|s| - 1]) else s
  }

  /** `s.strip()`. */
  function Strip(s: string): string {
    TrimEnd(TrimStart(s))
  }

  /** Decimal digits with single underscores between them, the digit part `int` accepts in
      base 10. */
  predicate Numeral(s: string) {
    |s| > 0 && IsDigit(s[0]) && IsDigit(s[|s| - 1])
    && (forall k :: 0 <= k < |s| ==> IsDigit(s[k]) || s[k] == '_')
    && (forall k :: 0 <= k < |s| - 1 ==> s[k] == '_' ==> s[k + 1] != '_')
  }

  /** The digits of a numeral, its underscores removed. */
  function DropUnderscores(s: string): (t: string)
    ensures |t| <= |s|
    ensures (forall k :: 0 <= k < |s| ==> IsDigit(s[k]) || s[k] == '_') ==> AllDigits(t)
    decreases |s|
  {
    if |s| == 0 then ""
    else if s[|s| - 1] == '_' then DropUnderscores(s[..|s| - 1])
    else DropUnderscores(s[..|s| - 1]) + [s[|s| - 1]]
  }

  function NumeralValue(s: string): nat
    requires Numeral(s)
  {
    ParseDigits(DropUnderscores(s))
  }

  /** `int` on text already stripped: an optional sign and a numeral. */
  function ParseStripped(t: string): Option<int> {
    if |t| > 0 && (t[0] == '-' || t[0] == '+') then
      if Numeral(t[1..]) then
        var n: int := NumeralValue(t[1..]);
        Some(if t[0] == '-' then -n else n)
      else None
    else if Numeral(t) then Some(NumeralValue(t))
    else None
  }

  /** `int(s)` in base 10: surrounding whitespace is stripped, then an optional sign and a
      numeral; anything else is the `ValueError` that `int` raises, here `None`. Decimal
      digits outside ASCII are not recognised. */
  function ParseInt(s: string): Option<int> {
    ParseStripped(Strip(s))
  }

  lemma {:induction false} ParseNatToString(n: nat)
    ensures ParseDigits(NatToString(n)) == n
    decreases n
  {
    if n >= 10 {
      var prefix := NatToString(n / 10);
      var s := prefix + [DigitChar(n % 10)];
      assert s[..|s| - 1] == prefix;
      ParseNatToString(n / 10);
    }
  }

  lemma {:induction false} DropNoUnderscores(s: string)
    requires AllDigits(s)
    ensures DropUnderscores(s) == s
    decreases |s|
  {
    if |s| > 0 {
      DropNoUnderscores(s[..|s| - 1]);
      assert s == s[..|s| - 1] + [s[|s| - 1]];
    }
  }

  lemma {:induction false} DropAppend(a: string, b: string)
    ensures DropUnderscores(a + b) == DropUnderscores(a) + DropUnderscores(b)
    decreases |b|
  {
    if |b| > 0 {
      var b' := b[..|b| - 1];
      assert (a + b)[..|a + b| - 1] == a + b';
      DropAppend(a, b');
    } else {
      assert a + b == a;
    }
  }

  lemma DigitsNumeral(s: string)
    requires |s| > 0 && AllDigits(s)
    ensures Numeral(s)
  {
  }

  lemma PlainChar(c: char)
    requires IsDigit(c) || c == '-' || c == '+' || c == '_'
    ensures !IntSpace(c)
  {
  }

  /** Text that neither starts nor ends with whitespace is its own `strip()`. */
  lemma StripPlain(s: string)
    requires |s| > 0 && !IntSpace(s[0]) && !IntSpace(s[|s| - 1])
    ensures Strip(s) == s
  {
  }

  /** Text without surrounding whitespace is parsed as it stands. */
  lemma ParsePlain(s: string)
    requires |s| > 0 && !IntSpace(s[0]) && !IntSpace(s[|s| - 1])
    ensures ParseInt(s) == ParseStripped(s)
  {
    StripPlain(s);
  }

  lemma {:induction false} TrimStartSpaces(ws: string, s: string)
    requires AllSpace(ws)
    requires |s| == 0 || !IntSpace(s[0])
    ensures TrimStart(ws + s) == s
    decreases |ws|
  {
    if |ws| > 0 {
      assert (ws + s)[1..] == ws[1..] + s;
      TrimStartSpaces(ws[1..], s);
    } else {
      assert ws + s == s;
    }
  }

  lemma {:induction false} TrimEndSpaces(s: string, ws: string)
    requires AllSpace(ws)
    requires |s| == 0 || !IntSpace(s[|s| - 1])
    ensures TrimEnd(s + ws) == s
    decreases |ws|
  {
    if |ws| > 0 {
      assert (s + ws)[..|s + ws| - 1] == s + ws[..|ws| - 1];
      TrimEndSpaces(s, ws[..|ws| - 1]);
    } else {
      assert s + ws == s;
    }
  }

  /** `int` ignores whitespace around the number: `int(" 8000\n") == int("8000")`. */
  lemma ParseIntPadded(ws1: string, s: string, ws2: string)
    requires AllSpace(ws1) && AllSpace(ws2)
    requires |s| > 0 && !IntSpace(s[0]) && !IntSpace(s[|s| - 1])
    ensures ParseInt(ws1 + s + ws2) == ParseInt(s)
  {
    assert ws1 + s + ws2 == ws1 + (s + ws2);
    TrimStartSpaces(ws1, s + ws2);
    TrimEndSpaces(s, ws2);
    StripPlain(s);
    assert Strip(ws1 + s + ws2) == s;
  }

  lemma NumeralsJoin(a: string, b: string)
    requires Numeral(a) && Numeral(b)
    ensures Numeral(a + b) && Numeral(a + "_" + b)
    ensures DropUnderscores(a + "_" + b) == DropUnderscores(a + b)
  {
    var ab, aub := a + b, a + "_" + b;
    forall k | 0 <= k < |ab| - 1 && ab[k] == '_' ensures ab[k + 1] != '_' {
      if k < |a| - 1 { assert ab[k] == a[k] && ab[k + 1] == a[k + 1]; }
      else if k >= |a| { assert ab[k] == b[k - |a|] && ab[k + 1] == b[k + 1 - |a|]; }
    }
    forall k | 0 <= k < |aub| - 1 && aub[k] == '_' ensures aub[k + 1] != '_' {
      if k < |a| - 1 { assert aub[k] == a[k] && aub[k + 1] == a[k + 1]; }
      else if k == |a| { assert aub[k + 1] == b[0]; }
      else { assert aub[k] == b[k - |a| - 1] && aub[k + 1] == b[k - |a|]; }
    }
    DropAppend(a + "_", b);
    DropAppend(a, "_");
    DropAppend(a, b);
    assert DropUnderscores("_") == "";
    assert DropUnderscores(a + "_") == DropUnderscores(a);
  }

  /** `int` reads a single underscore between digits as nothing: `int("8_000") == int("8000")`. */
  lemma ParseIntUnderscore(a: string, b: string)
    requires Numeral(a) && Numeral(b)
    ensures ParseInt(a + "_" + b) == ParseInt(a + b)
  {
    NumeralsJoin(a, b);
    var ab, aub := a + b, a + "_" + b;
    assert ab[0] == a[0] && ab[|ab| - 1] == b[|b| - 1];
    assert aub[0] == a[0] && aub[|aub| - 1] == b[|b| - 1];
    StripPlain(ab);
    StripPlain(aub);
  }

  /** `int` refuses text that is empty or nothing but whitespace. */
  lemma ParseIntRejectsBlank()
    ensures ParseInt("") == None && ParseInt(" \t") == None
  {
    TrimStartSpaces(" \t", "");
    assert " \t" + "" == " \t";
  }

  /** `int` refuses a number with a leading, trailing or doubled underscore, signed or not. */
  lemma ParseIntRejectsUnderscores(s: string, k: nat)
    requires |s| > 0 && !IntSpace(s[0]) && !IntSpace(s[|s| - 1])
    requires s[0] == '_' || s[|s| - 1] == '_' || (k + 1 < |s| && s[k] == '_' && s[k + 1] == '_')
    ensures ParseInt(s) == None
  {
    ParsePlain(s);
    if |s| > 1 && (s[0] == '-' || s[0] == '+') {
      var digits := s[1..];
      assert digits[|digits| - 1] == s[|s| - 1];
      if k > 0 && k + 1 < |s| {
        assert digits[k - 1] == s[k] && digits[k] == s[k + 1];
      }
    }
  }

  /** `int` refuses a lone sign and whitespace between the sign and the digits. */
  lemma ParseIntRejectsSign()
    ensures ParseInt("+") == None && ParseInt("- 8") == None
  {
    PlainChar('8');
    PlainChar('+');
    PlainChar('-');
    ParsePlain("+");
    ParsePlain("- 8");
    assert "- 8"[1..] == " 8";
  }

  /** `int` refuses a number with one of the separators U+001C to U+001F at either end:
      unlike the whitespace around it, they are not stripped. */
  lemma ParseIntRejectsSeparators(s: string)
    requires |s| > 0 && !IntSpace(s[0]) && !IntSpace(s[|s| - 1])
    requires '\U{1c}' <= s[0] <= '\U{1f}' || '\U{1c}' <= s[|s| - 1] <= '\U{1f}'
    ensures ParseInt(s) == None
  {
    ParsePlain(s);
    if |s| > 1 && (s[0] == '-' || s[0] == '+') {
      assert s[1..][|s| - 2] == s[|s| - 1];
    }
  }

  /** `int` on sign-free digits is their decimal value. */
  lemma ParseDigitsOnly(t: string)
    requires |t| > 0 && AllDigits(t)
    ensures ParseStripped(t) == Some(ParseDigits(t))
  {
    DigitsNumeral(t);
    DropNoUnderscores(t);
  }

  /** `int` on a minus sign and digits is the negated decimal value. */
  lemma ParseNegativeDigits(s: string)
    requires |s| > 1 && s[0] == '-' && AllDigits(s[1..])
    ensures ParseStripped(s) == Some(-(ParseDigits(s[1..]) as int))
  {
    DigitsNumeral(s[1..]);
    DropNoUnderscores(s[1..]);
  }

  /** `int(str(i)) == i`. */
  lemma ParseIntToString(i: int)
    ensures ParseInt(IntToString(i)) == Some(i)
  {
    var s := IntToString(i);
    var digits := NatToString(if i < 0 then -i else i);
    ParseNatToString(if i < 0 then -i else i);
    PlainChar(s[0]);
    PlainChar(s[|s| - 1]);
    StripPlain(s);
    if i < 0 {
      assert s[1..] == digits;
      ParseNegativeDigits(s);
    } else {
      ParseDigitsOnly(digits);
    }
  }
}
