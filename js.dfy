/**
 * The JavaScript string and number built-ins the build helper relies on:
 * `split` on one character, `join`, `includes`, `trim`, `slice(1)`,
 * `parseInt` without a radix, and the decimal rendering of integers.
 */
module JsText {
  import opened Wrappers

  // ---------------------------------------------------------------------------
  // concatenation
  // ---------------------------------------------------------------------------

  lemma DropPrefix<T>(a: seq<T>, b: seq<T>)
    ensures (a + b)[|a|..] == b
  {
  }

  lemma Assoc<T>(a: seq<T>, b: seq<T>, c: seq<T>)
    ensures a + b + c == a + (b + c)
  {
  }

  // ---------------------------------------------------------------------------
  // split / join
  // ---------------------------------------------------------------------------

  /** `parts.join(sep)`; an empty array joins to the empty string. */
  function Join(parts: seq<string>, sep: string): string
  {
    if |parts| == 0 then ""
    else if |parts| == 1 then parts[0]
    else parts[0] + sep + Join(parts[1..], sep)
  }

  lemma JoinConsHead(x: string, y: string, rest: seq<string>, sep: string)
    ensures Join([x + y] + rest, sep) == x + Join([y] + rest, sep)
  {
    if |rest| > 0 {
      assert ([x + y] + rest)[1..] == rest;
      assert ([y] + rest)[1..] == rest;
    }
  }

  /**
   * `s.split(sep)` for a one-character separator: never empty, no piece
   * contains the separator, and joining the pieces gives back `s`.
   */
  function Split(s: string, sep: char): (r: seq<string>)
    ensures |r| >= 1
    ensures forall i :: 0 <= i < |r| ==> sep !in r[i]
    ensures Join(r, [sep]) == s
  {
    if |s| == 0 then [""]
    else
      var rest := Split(s[1..], sep);
      if s[0] == sep then
        assert ([""] + rest)[1..] == rest;
        [""] + rest
      else
        JoinConsHead([s[0]], rest[0], rest[1..], [sep]);
        assert [rest[0]] + rest[1..] == rest;
        [[s[0]] + rest[0]] + rest[1..]
  }

  lemma {:induction false} SplitNoSeparator(s: string, sep: char)
    requires sep !in s
    ensures Split(s, sep) == [s]
  {
    if |s| > 0 {
      SplitNoSeparator(s[1..], sep);
    }
  }

  lemma {:induction false} SplitAfterPiece(a: string, sep: char, b: string)
    requires sep !in a
    ensures Split(a + [sep] + b, sep) == [a] + Split(b, sep)
  {
    if |a| == 0 {
      assert (a + [sep] + b)[1..] == b;
    } else {
      assert (a + [sep] + b)[1..] == a[1..] + [sep] + b;
      SplitAfterPiece(a[1..], sep, b);
      assert [a[0]] + a[1..] == a;
    }
  }

  /** Splitting a joined list gives the list back when no piece holds the separator. */
  lemma {:induction false} SplitJoin(parts: seq<string>, sep: char)
    requires |parts| >= 1
    requires forall i :: 0 <= i < |parts| ==> sep !in parts[i]
    ensures Split(Join(parts, [sep]), sep) == parts
  {
    if |parts| == 1 {
      SplitNoSeparator(parts[0], sep);
    } else {
      SplitJoin(parts[1..], sep);
      SplitAfterPiece(parts[0], sep, Join(parts[1..], [sep]));
      assert [parts[0]] + parts[1..] == parts;
    }
  }

  /** Splitting text glued at a separator splits each side. */
  lemma {:induction false} SplitAppend(a: string, sep: char, b: string)
    ensures Split(a + [sep] + b, sep) == Split(a, sep) + Split(b, sep)
  {
    if |a| == 0 {
      SplitAfterPiece(a, sep, b);
    } else {
      assert (a + [sep] + b)[1..] == a[1..] + [sep] + b;
      SplitAppend(a[1..], sep, b);
      assert |Split(a[1..], sep)| >= 1;
    }
  }

  /** A string cuts uniquely at the first separator when the part before it holds none. */
  lemma CutAtSeparator(a: string, b: string, c: string, d: string, sep: char)
    requires sep !in a && sep !in c
    requires a + [sep] + b == c + [sep] + d
    ensures a == c && b == d
  {
    var s := a + [sep] + b;
    assert s[|a|] == sep && s[|c|] == sep;
    assert a == s[..|a|] && c == s[..|c|];
    assert b == s[|a| + 1..] && d == s[|c| + 1..];
  }

  /** JavaScript truthiness of an optional string: present and not empty. */
  predicate Truthy(s: Option<string>)
  {
    s.Some? && s.value != ""
  }

  // ---------------------------------------------------------------------------
  // includes / slice
  // ---------------------------------------------------------------------------

  predicate StartsWith(s: string, prefix: string)
  {
    |prefix| <= |s| && s[..|prefix|] == prefix
  }

  /** `s.includes(sub)`. */
  predicate Contains(s: string, sub: string)
    decreases |s|
  {
    StartsWith(s, sub) || (|s| > 0 && Contains(s[1..], sub))
  }

  lemma {:induction false} ContainsInfix(a: string, sub: string, b: string)
    ensures Contains(a + sub + b, sub)
  {
    if |a| > 0 {
      assert (a + sub + b)[1..] == a[1..] + sub + b;
      ContainsInfix(a[1..], sub, b);
    } else {
      assert (a + sub + b)[..|sub|] == sub;
    }
  }

  /** `s.slice(1)`: everything after the first character. */
  function DropFirst(s: string): string
  {
    if |s| == 0 then "" else s[1..]
  }

  // ---------------------------------------------------------------------------
  // trim
  // ---------------------------------------------------------------------------

  /** The white-space and line-terminator characters that `trim` and `parseInt` skip. */
  predicate IsWhiteSpace(c: char)
  {
    || c == ' ' || c == '\t' || c == '\n' || c == '\r'
    || c == '\U{000B}' || c == '\U{000C}' || c == '\U{00A0}' || c == '\U{FEFF}'
    || c == '\U{1680}' || ('\U{2000}' <= c <= '\U{200A}')
    || c == '\U{2028}' || c == '\U{2029}' || c == '\U{202F}' || c == '\U{205F}' || c == '\U{3000}'
  }

  predicate AllWhiteSpace(s: string)
  {
    forall i :: 0 <= i < |s| ==> IsWhiteSpace(s[i])
  }

  /** Leading white space removed: a suffix of `s` that does not start with white space. */
  function TrimStart(s: string): (r: string)
    ensures |r| <= |s| && r == s[|s| - |r|..]
    ensures AllWhiteSpace(s[..|s| - |r|])
    ensures r == "" || !IsWhiteSpace(r[0])
  {
    if |s| > 0 && IsWhiteSpace(s[0]) then TrimStart(s[1..]) else s
  }

  /** Trailing white space removed: a prefix of `s` that does not end with white space. */
  function TrimEnd(s: string): (r: string)
    ensures |r| <= |s| && r == s[..|r|]
    ensures AllWhiteSpace(s[|r|..])
    ensures r == "" || !IsWhiteSpace(r[|r| - 1])
  {
    if |s| > 0 && IsWhiteSpace(s[|s| - 1]) then
      var r := TrimEnd(s[..|s| - 1]);
      assert s[|r|..] == s[..|s| - 1][|r|..] + [s[|s| - 1]];
      r
    else s
  }

  /** `s.trim()`. */
  function Trim(s: string): string
  {
    TrimEnd(TrimStart(s))
  }

  lemma {:induction false} TrimStartPadded(w: string, s: string)
    requires AllWhiteSpace(w)
    requires s == "" || !IsWhiteSpace(s[0])
    ensures TrimStart(w + s) == s
  {
    if |w| > 0 {
      assert (w + s)[1..] == w[1..] + s;
      TrimStartPadded(w[1..], s);
    } else {
      assert w + s == s;
    }
  }

  lemma {:induction false} TrimEndPadded(s: string, w: string)
    requires AllWhiteSpace(w)
    requires s == "" || !IsWhiteSpace(s[|s| - 1])
    ensures TrimEnd(s + w) == s
  {
    if |w| > 0 {
      assert (s + w)[..|s + w| - 1] == s + w[..|w| - 1];
      TrimEndPadded(s, w[..|w| - 1]);
    } else {
      assert s + w == s;
    }
  }

  /** Trimming removes exactly the white space around a word that has none at its ends. */
  lemma TrimPadded(w1: string, s: string, w2: string)
    requires AllWhiteSpace(w1) && AllWhiteSpace(w2)
    requires s == "" || (!IsWhiteSpace(s[0]) && !IsWhiteSpace(s[|s| - 1]))
    ensures Trim(w1 + s + w2) == s
  {
    if s == "" {
      assert w1 + s + w2 == w1 + w2;
      assert AllWhiteSpace(w1 + w2);
      TrimStartPadded(w1 + w2, "");
      assert w1 + w2 + "" == w1 + w2;
    } else {
      assert w1 + s + w2 == w1 + (s + w2);
      TrimStartPadded(w1, s + w2);
      TrimEndPadded(s, w2);
    }
  }

  // ---------------------------------------------------------------------------
  // numbers: rendering and parseInt
  // ---------------------------------------------------------------------------

  /** A JavaScript number as it arises here: an integer, or NaN from a failed `parseInt`. */
  datatype JsNumber = Num(n: int) | NaN

  function DigitChar(d: nat): char
    requires d < 10
  {
    (48 + d) as char
  }

  /** Decimal digits of a natural number, without leading zeros. */
  function NatToString(n: nat): string
  {
    if n < 10 then [DigitChar(n)] else NatToString(n / 10) + [DigitChar(n % 10)]
  }

  /** Template-literal rendering `${n}` of an integer. */
  function IntToString(n: int): string
  {
    if n < 0 then "-" + NatToString(-n) else NatToString(n)
  }

  /** Template-literal rendering of a number that may be NaN. */
  function NumberToString(x: JsNumber): string
  {
    match x
    case NaN => "NaN"
    case Num(n) => IntToString(n)
  }

  /** The value of a hexadecimal (or decimal) digit character. */
  function HexValue(c: char): Option<nat>
  {
    if '0' <= c <= '9' then Some(c as int - '0' as int)
    else if 'a' <= c <= 'f' then Some(c as int - 'a' as int + 10)
    else if 'A' <= c <= 'F' then Some(c as int - 'A' as int + 10)
    else None
  }

  predicate IsDigit(c: char, radix: nat)
  {
    HexValue(c).Some? && HexValue(c).value < radix
  }

  /** The longest prefix of `s` made of digits in `radix`. */
  function DigitPrefix(s: string, radix: nat): (r: string)
    ensures |r| <= |s| && r == s[..|r|]
    ensures forall i :: 0 <= i < |r| ==> IsDigit(r[i], radix)
    ensures |r| < |s| ==> !IsDigit(s[|r|], radix)
  {
    if |s| == 0 || !IsDigit(s[0], radix) then "" else [s[0]] + DigitPrefix(s[1..], radix)
  }

  /** The value of a string of digits in `radix`, most significant first. */
  function DigitsValue(s: string, radix: nat): nat
    requires forall i :: 0 <= i < |s| ==> IsDigit(s[i], radix)
  {
    if |s| == 0 then 0
    else
      assert IsDigit(s[|s| - 1], radix);
      DigitsValue(s[..|s| - 1], radix) * radix + HexValue(s[|s| - 1]).value
  }

  /**
   * `parseInt(s)` without a radix: skip leading white space, take an optional
   * sign, read hexadecimal after a `0x`/`0X` prefix and decimal otherwise, and
   * stop at the first character that is not a digit; no digit gives NaN.
   */
  function ParseInt(s: string): JsNumber
  {
    ParseSigned(TrimStart(s))
  }

  /** `parseInt` after the leading white space: an optional sign, then the magnitude. */
  function ParseSigned(t: string): JsNumber
  {
    if |t| > 0 && t[0] == '-' then Negate(ParseMagnitude(t[1..]))
    else if |t| > 0 && t[0] == '+' then ParseMagnitude(t[1..])
    else ParseMagnitude(t)
  }

  function Negate(x: JsNumber): JsNumber
  {
    match x
    case NaN => NaN
    case Num(n) => Num(-n)
  }

  /** An unsigned number: hexadecimal after `0x`/`0X`, decimal otherwise. */
  function ParseMagnitude(u: string): JsNumber
  {
    if |u| >= 2 && u[0] == '0' && (u[1] == 'x' || u[1] == 'X') then ParseDigits(u[2..], 16)
    else ParseDigits(u, 10)
  }

  /** The value of the longest digit prefix of `u` in `radix`, or NaN when there is none. */
  function ParseDigits(u: string, radix: nat): JsNumber
  {
    var ds := DigitPrefix(u, radix);
    if ds == "" then NaN else Num(DigitsValue(ds, radix))
  }

  lemma {:induction false} NatToStringDigits(n: nat)
    ensures |NatToString(n)| >= 1
    ensures forall i :: 0 <= i < |NatToString(n)| ==> IsDigit(NatToString(n)[i], 10)
    ensures n >= 1 ==> NatToString(n)[0] != '0'
    ensures DigitsValue(NatToString(n), 10) == n
  {
    if n >= 10 {
      NatToStringDigits(n / 10);
      var s := NatToString(n);
      assert s[..|s| - 1] == NatToString(n / 10);
    }
  }

  lemma {:induction false} DigitPrefixOfDigits(s: string, radix: nat)
    requires forall i :: 0 <= i < |s| ==> IsDigit(s[i], radix)
    ensures DigitPrefix(s, radix) == s
  {
    if |s| > 0 {
      DigitPrefixOfDigits(s[1..], radix);
    }
  }

  /** `parseInt` reads back every integer that `${n}` renders. */
  lemma ParseIntOfIntToString(n: int)
    ensures ParseInt(IntToString(n)) == Num(n)
  {
    var m: nat := if n < 0 then -n else n;
    var d := NatToString(m);
    NatToStringDigits(m);
    var s := IntToString(n);
    if n < 0 {
      assert s == "-" + d;
      ParseNegative(d);
    } else {
      assert s == d;
      ParseUnsigned(d);
    }
  }

  lemma NoPaddingBefore(s: string)
    requires |s| > 0 && (s[0] == '-' || IsDigit(s[0], 10))
    ensures TrimStart(s) == s
  {
    assert !IsWhiteSpace(s[0]);
  }

  /** A nonempty string of digits reads whole. */
  lemma ParseAllDigits(d: string, radix: nat)
    requires |d| >= 1 && forall i :: 0 <= i < |d| ==> IsDigit(d[i], radix)
    ensures ParseDigits(d, radix) == Num(DigitsValue(d, radix))
  {
    DigitPrefixOfDigits(d, radix);
  }

  /** A nonempty string of decimal digits is read as decimal, never as hexadecimal. */
  lemma DecimalMagnitude(d: string)
    requires |d| >= 1 && forall i :: 0 <= i < |d| ==> IsDigit(d[i], 10)
    ensures ParseMagnitude(d) == Num(DigitsValue(d, 10))
  {
    if |d| >= 2 {
      assert IsDigit(d[1], 10);
    }
    ParseAllDigits(d, 10);
  }

  /** A string of decimal digits reads back as its value. */
  lemma ParseUnsigned(d: string)
    requires |d| >= 1 && forall i :: 0 <= i < |d| ==> IsDigit(d[i], 10)
    ensures ParseInt(d) == Num(DigitsValue(d, 10))
  {
    NoPaddingBefore(d);
    assert IsDigit(d[0], 10);
    DecimalMagnitude(d);
  }

  /** A minus sign and a string of decimal digits read back as minus its value. */
  lemma ParseNegative(d: string)
    requires |d| >= 1 && forall i :: 0 <= i < |d| ==> IsDigit(d[i], 10)
    ensures ParseInt("-" + d) == Num(-(DigitsValue(d, 10) as int))
  {
    var s := "-" + d;
    NoPaddingBefore(s);
    assert s[0] == '-' && s[1..] == d;
    DecimalMagnitude(d);
  }

  /** Distinct naturals render to distinct strings. */
  lemma NatToStringInjective(a: nat, b: nat)
    requires NatToString(a) == NatToString(b)
    ensures a == b
  {
    ParseIntOfIntToString(a);
    ParseIntOfIntToString(b);
  }
}
