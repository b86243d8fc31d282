/**
 * The PHP string functions the plugins rely on, over byte strings (one
 * `char` per byte): decimal conversion, `intval` on strings, `strtolower`,
 * `trim`, `explode`, `implode` and the two `preg_split` patterns in use.
 */
module PhpStrings {
  import opened Wrappers

  const PHP_INT_MAX: int := 0x7fff_ffff_ffff_ffff
  const PHP_INT_MIN: int := -0x8000_0000_0000_0000

  predicate InIntRange(n: int)
  {
    PHP_INT_MIN <= n <= PHP_INT_MAX
  }

  predicate IsDigit(c: char)
  {
    '0' <= c <= '9'
  }

  predicate AllDigits(s: string)
  {
    forall i :: 0 <= i < |s| ==> IsDigit(s[i])
  }

  function DigitChar(d: nat): (c: char)
    requires d < 10
    ensures IsDigit(c) && c as int - '0' as int == d
  {
    ('0' as int + d) as char
  }

  function DigitVal(c: char): nat
    requires IsDigit(c)
  {
    c as int - '0' as int
  }

  /** Decimal digits of a natural number, without leading zeros. */
  function NatDecimal(n: nat): (s: string)
    ensures |s| > 0 && AllDigits(s)
    ensures (s[0] == '0') <==> (n == 0)
    ensures n < 10 <==> |s| == 1
  {
    if n < 10 then [DigitChar(n)] else NatDecimal(n / 10) + [DigitChar(n % 10)]
  }

  /** PHP's `(string)` of an integer. */
  function Decimal(n: int): string
  {
    if n < 0 then "-" + NatDecimal(-n) else NatDecimal(n)
  }

  /** The number a string of digits denotes. */
  function DigitsValue(s: string): nat
    requires AllDigits(s)
  {
    if |s| == 0 then 0 else DigitsValue(s[..|s| - 1]) * 10 + DigitVal(s[|s| - 1])
  }

  lemma {:induction false} DigitsValueOfDecimal(n: nat)
    ensures DigitsValue(NatDecimal(n)) == n
  {
    if n >= 10 {
      var s := NatDecimal(n);
      assert s[..|s| - 1] == NatDecimal(n / 10);
      DigitsValueOfDecimal(n / 10);
    }
  }

  lemma {:induction false} DigitsValuePositive(s: string)
    requires AllDigits(s) && |s| > 0 && s[0] != '0'
    ensures DigitsValue(s) >= 1
    ensures |s| > 1 ==> DigitsValue(s) >= 10
  {
    if |s| > 1 {
      DigitsValuePositive(s[..|s| - 1]);
    }
  }

  lemma {:induction false} DecimalOfDigits(s: string)
    requires AllDigits(s) && |s| > 0 && (s[0] != '0' || |s| == 1)
    ensures NatDecimal(DigitsValue(s)) == s
  {
    if |s| > 1 {
      var p := s[..|s| - 1];
      DigitsValuePositive(s);
      DigitsValuePositive(p);
      DecimalOfDigits(p);
      var n := DigitsValue(s);
      assert n / 10 == DigitsValue(p) && n % 10 == DigitVal(s[|s| - 1]);
      assert s == p + [s[|s| - 1]];
    }
  }

  /** The strings PHP treats as integer array keys: `0`, or an optional
      minus sign followed by digits without a leading zero. */
  predicate IsCanonicalInt(s: string)
  {
    if |s| > 0 && s[0] == '-' then
      |s| > 1 && AllDigits(s[1..]) && s[1] != '0'
    else
      |s| > 0 && AllDigits(s) && (s[0] != '0' || |s| == 1)
  }

  function CanonicalValue(s: string): int
    requires IsCanonicalInt(s)
  {
    if s[0] == '-' then -(DigitsValue(s[1..]) as int) else DigitsValue(s)
  }

  lemma DecimalIsCanonical(n: int)
    ensures IsCanonicalInt(Decimal(n)) && CanonicalValue(Decimal(n)) == n
  {
    var s := Decimal(n);
    if n < 0 {
      var d := NatDecimal(-n);
      assert s == "-" + d && s[0] == '-' && s[1..] == d;
      assert DigitsValue(d) == -n by {
        DigitsValueOfDecimal(-n);
      }
      assert d[0] != '0';
    } else {
      assert s == NatDecimal(n);
      DigitsValueOfDecimal(n);
    }
  }

  lemma CanonicalIsDecimal(s: string)
    requires IsCanonicalInt(s)
    ensures Decimal(CanonicalValue(s)) == s
  {
    if s[0] == '-' {
      DecimalOfDigits(s[1..]);
      DigitsValuePositive(s[1..]);
      assert s == "-" + s[1..];
    } else {
      DecimalOfDigits(s);
    }
  }

  function Clamp(n: int): (r: int)
    ensures InIntRange(r)
    ensures InIntRange(n) ==> r == n
  {
    if n > PHP_INT_MAX then PHP_INT_MAX else if n < PHP_INT_MIN then PHP_INT_MIN else n
  }

  /** The white-space class of PCRE's `\s` (also what numeric strings may start with). */
  predicate IsSpace(c: char)
  {
    c == ' ' || c == '\t' || c == '\n' || c == '\r' || c as int == 11 || c as int == 12
  }

  /** The characters `trim` strips by default. */
  predicate IsTrimChar(c: char)
  {
    c == ' ' || c == '\t' || c == '\n' || c == '\r' || c == '\0' || c as int == 11
  }

  function DropSpaces(s: string): (r: string)
    ensures |r| <= |s| && r == s[|s| - |r|..]
    ensures |s| > 0 && IsSpace(s[0]) ==> |r| < |s|
    ensures |r| > 0 ==> !IsSpace(r[0])
  {
    if |s| > 0 && IsSpace(s[0]) then DropSpaces(s[1..]) else s
  }

  /** The longest prefix made of digits. */
  function DigitPrefix(s: string): (r: string)
    ensures AllDigits(r) && r <= s
    ensures |r| < |s| ==> !IsDigit(s[|r|])
  {
    if |s| > 0 && IsDigit(s[0]) then [s[0]] + DigitPrefix(s[1..]) else []
  }

  /** PHP 8 `(int)` of a string: leading white space, an optional sign and
      the leading digits; anything after them is ignored; out-of-range
      values saturate. */
  function IntValString(s: string): (n: int)
    ensures InIntRange(n)
  {
    var t := DropSpaces(s);
    var neg := |t| > 0 && t[0] == '-';
    var u := if |t| > 0 && (t[0] == '-' || t[0] == '+') then t[1..] else t;
    var d: int := DigitsValue(DigitPrefix(u));
    Clamp(if neg then -d else d)
  }

  /** The digits of a natural number as the number parsers read them. */
  lemma NatDecimalShape(m: nat)
    ensures var d := NatDecimal(m);
      IsDigit(d[0]) && DropSpaces(d) == d && DigitPrefix(d) == d && DigitsValue(d) == m
  {
    var d := NatDecimal(m);
    AllDigitsPrefix(d);
    DigitsValueOfDecimal(m);
    assert IsDigit(d[0]);
    assert !IsSpace(d[0]);
  }

  /** A negative decimal as the number parsers read it: no leading white
      space, a `-`, then the digits of the magnitude. */
  lemma NegDecimalShape(n: int)
    requires n < 0
    ensures var s := Decimal(n);
      DropSpaces(s) == s && |s| > 0 && s[0] == '-' && s[1..] == NatDecimal(-n)
  {
    var s := "-" + NatDecimal(-n);
    assert Decimal(n) == s;
    assert !IsSpace(s[0]);
    assert s[1..] == NatDecimal(-n);
  }

  lemma IntValOfDecimal(n: int)
    requires InIntRange(n)
    ensures IntValString(Decimal(n)) == n
  {
    if n < 0 {
      NegDecimalShape(n);
      NatDecimalShape(-n);
    } else {
      NatDecimalShape(n);
    }
  }

  lemma {:induction false} AllDigitsPrefix(s: string)
    requires AllDigits(s)
    ensures DigitPrefix(s) == s
  {
    if |s| > 0 {
      AllDigitsPrefix(s[1..]);
    }
  }

  /** What follows the digits of a number that PHP reads as a float: a `.`,
      or an exponent (`e` or `E`, an optional sign and a digit). */
  predicate FloatTail(rest: string)
  {
    |rest| > 0 &&
    (rest[0] == '.' ||
     ((rest[0] == 'e' || rest[0] == 'E') &&
      var e := if |rest| > 1 && (rest[1] == '+' || rest[1] == '-') then rest[2..] else rest[1..];
      |e| > 0 && IsDigit(e[0])))
  }

  /** The offset PHP 8 takes from a string used as a string offset: leading
      white space, an optional sign and at least one digit, read as an
      integer (anything after the digits only draws a warning). None when
      PHP throws instead: the string does not start with a number, or the
      number is a float (a `.`, an exponent, or beyond the 64-bit range). */
  function OffsetOfString(s: string): (r: Option<int>)
    ensures r.Some? ==> InIntRange(r.value)
  {
    var t := DropSpaces(s);
    var neg := |t| > 0 && t[0] == '-';
    var u := if |t| > 0 && (t[0] == '-' || t[0] == '+') then t[1..] else t;
    var ds := DigitPrefix(u);
    var d: int := DigitsValue(ds);
    var n := if neg then -d else d;
    if |ds| == 0 || FloatTail(u[|ds|..]) || !InIntRange(n) then None else Some(n)
  }

  /** An offset is the number `(int)` reads from the same string. */
  lemma OffsetIsIntVal(s: string)
    requires OffsetOfString(s).Some?
    ensures OffsetOfString(s).value == IntValString(s)
  {
  }

  /** The decimal of an integer in range is read back as that offset. */
  lemma OffsetOfDecimal(n: int)
    requires InIntRange(n)
    ensures OffsetOfString(Decimal(n)) == Some(n)
  {
    var s := Decimal(n);
    var m: nat := if n < 0 then -n else n;
    var u := NatDecimal(m);
    if n < 0 {
      NegDecimalShape(n);
      assert DropSpaces(s)[1..] == u;
    } else {
      assert s == u;
    }
    NatDecimalShape(m);
    assert u[|u|..] == [];
    assert !FloatTail(u[|u|..]);
  }

  /** A string that starts with a letter or `_` is no offset. */
  lemma NameIsNoOffset(s: string)
    requires |s| > 0 && ('a' <= s[0] <= 'z' || 'A' <= s[0] <= 'Z' || s[0] == '_')
    ensures OffsetOfString(s).None?
  {
    var c := s[0];
    assert !IsSpace(c) && !IsDigit(c) && c != '-' && c != '+';
    assert DropSpaces(s) == s;
    assert DigitPrefix(s) == [];
  }

  /** `n` spaces, the padding of a string written past its end. */
  function Spaces(n: nat): (r: string)
    ensures |r| == n && forall i :: 0 <= i < n ==> r[i] == ' '
  {
    seq(n, _ => ' ')
  }

  function LowerChar(c: char): char
  {
    if 'A' <= c <= 'Z' then (c as int + 32) as char else c
  }

  lemma LowerCharIsLower(c: char)
    ensures !('A' <= LowerChar(c) <= 'Z')
  {
  }

  /** `strtolower`: ASCII letters only, as in PHP 8.2 and later. */
  function ToLower(s: string): (r: string)
    ensures |r| == |s|
    ensures forall i :: 0 <= i < |s| ==> r[i] == LowerChar(s[i])
  {
    seq(|s|, i requires 0 <= i < |s| => LowerChar(s[i]))
  }

  function TrimLeft(s: string): (r: string)
    ensures |r| <= |s| && r == s[|s| - |r|..]
    ensures |r| > 0 ==> !IsTrimChar(r[0])
    ensures forall i :: 0 <= i < |s| - |r| ==> IsTrimChar(s[i])
  {
    if |s| > 0 && IsTrimChar(s[0]) then TrimLeft(s[1..]) else s
  }

  function TrimRight(s: string): (r: string)
    ensures |r| <= |s| && r == s[..|r|]
    ensures |r| > 0 ==> !IsTrimChar(r[|r| - 1])
    ensures forall i :: |r| <= i < |s| ==> IsTrimChar(s[i])
  {
    if |s| > 0 && IsTrimChar(s[|s| - 1]) then TrimRight(s[..|s| - 1]) else s
  }

  /** `trim($s)`: strips the default character set from both ends. */
  function Trim(s: string): (r: string)
    ensures |r| > 0 ==> !IsTrimChar(r[0]) && !IsTrimChar(r[|r| - 1])
  {
    TrimRight(TrimLeft(s))
  }

  lemma DigitNotTrim(c: char)
    requires IsDigit(c)
    ensures !IsTrimChar(c) && !IsSpace(c) && c != ',' && c != '='
  {
  }

  /** A string that `trim` leaves unchanged. */
  predicate Trimmed(s: string)
  {
    |s| > 0 ==> !IsTrimChar(s[0]) && !IsTrimChar(s[|s| - 1])
  }

  lemma TrimOfTrimmed(s: string)
    requires Trimmed(s)
    ensures Trim(s) == s
  {
  }

  /** `implode($sep, $parts)`. */
  function Implode(sep: string, parts: seq<string>): string
  {
    if |parts| == 0 then ""
    else if |parts| == 1 then parts[0]
    else parts[0] + sep + Implode(sep, parts[1..])
  }

  /** Joining one part more adds the separator and that part at the end. */
  lemma {:induction false} ImplodeAppend(sep: string, parts: seq<string>, p: string)
    requires |parts| > 0
    ensures Implode(sep, parts + [p]) == Implode(sep, parts) + sep + p
    decreases |parts|
  {
    if |parts| > 1 {
      assert (parts + [p])[1..] == parts[1..] + [p];
      ImplodeAppend(sep, parts[1..], p);
    } else {
      assert (parts + [p])[1..] == [p];
    }
  }

  /** The parts written one after the other, as a loop of `.=` builds them. */
  function Concat(parts: seq<string>): string
  {
    if |parts| == 0 then "" else parts[0] + Concat(parts[1..])
  }

  /** Each line followed by `sep`: the join, with one `sep` more at the end. */
  function Terminated(sep: string, lines: seq<string>): (r: seq<string>)
    ensures |r| == |lines| && forall i :: 0 <= i < |lines| ==> r[i] == lines[i] + sep
  {
    seq(|lines|, i requires 0 <= i < |lines| => lines[i] + sep)
  }

  lemma {:induction false} ConcatTerminated(sep: string, lines: seq<string>)
    requires |lines| > 0
    ensures Concat(Terminated(sep, lines)) == Implode(sep, lines) + sep
  {
    var t := Terminated(sep, lines);
    assert t[0] == lines[0] + sep;
    if |lines| > 1 {
      ConcatTerminated(sep, lines[1..]);
      assert t[1..] == Terminated(sep, lines[1..]);
    } else {
      assert t[1..] == [];
    }
  }

  /** `explode($sep, $s)` for a one-character separator. */
  function Explode(sep: char, s: string): (parts: seq<string>)
    ensures |parts| >= 1
    ensures forall i :: 0 <= i < |parts| ==> sep !in parts[i]
  {
    if |s| == 0 then [""]
    else
      var rest := Explode(sep, s[1..]);
      if s[0] == sep then [""] + rest else [[s[0]] + rest[0]] + rest[1..]
  }

  lemma {:induction false} ExplodeWithout(sep: char, p: string, rest: string)
    requires sep !in p
    ensures Explode(sep, p + [sep] + rest) == [p] + Explode(sep, rest)
    ensures Explode(sep, p) == [p]
  {
    if |p| > 0 {
      var t := p + [sep] + rest;
      assert sep !in p[1..];
      ExplodeWithout(sep, p[1..], rest);
      assert t[1..] == p[1..] + [sep] + rest;
      assert t[0] == p[0] && p[0] != sep;
      assert [p[0]] + p[1..] == p;
    } else {
      assert p + [sep] + rest == [sep] + rest;
    }
  }

  /** `explode` undoes `implode` when no part holds the separator. */
  lemma {:induction false} ExplodeImplode(sep: char, parts: seq<string>)
    requires |parts| >= 1
    requires forall i :: 0 <= i < |parts| ==> sep !in parts[i]
    ensures Explode(sep, Implode([sep], parts)) == parts
  {
    if |parts| == 1 {
      ExplodeWithout(sep, parts[0], "");
    } else {
      ExplodeImplode(sep, parts[1..]);
      ExplodeWithout(sep, parts[0], Implode([sep], parts[1..]));
      assert parts == [parts[0]] + parts[1..];
    }
  }

  /** `explode($sep, $s, 2)`: the text before and after the first separator,
      or None when there is no separator. */
  function SplitFirst(sep: char, s: string): (r: Option<(string, string)>)
    ensures r.None? <==> sep !in s
    ensures r.Some? ==> s == r.value.0 + [sep] + r.value.1 && sep !in r.value.0
  {
    if |s| == 0 then None
    else if s[0] == sep then Some(([], s[1..]))
    else match SplitFirst(sep, s[1..])
      case None => None
      case Some(p) => Some(([s[0]] + p.0, p.1))
  }

  /** A string cut at its first separator gives back the two sides. */
  lemma {:induction false} SplitFirstAt(sep: char, a: string, b: string)
    requires sep !in a
    ensures SplitFirst(sep, a + [sep] + b) == Some((a, b))
  {
    var s := a + [sep] + b;
    if |a| > 0 {
      assert s[0] == a[0] && s[1..] == a[1..] + [sep] + b;
      SplitFirstAt(sep, a[1..], b);
      assert [a[0]] + a[1..] == a;
    } else {
      assert s[0] == sep && s[1..] == b;
    }
  }

  /** Trimming a trimmed string with a line break appended gives the string. */
  lemma TrimNewline(x: string)
    requires Trimmed(x)
    ensures Trim(x + "\n") == x
  {
    var y := x + "\n";
    if |x| == 0 {
      assert TrimLeft(y) == TrimLeft(y[1..]);
      assert y[1..] == "";
    } else {
      assert TrimLeft(y) == y;
      assert TrimRight(y) == TrimRight(y[..|y| - 1]);
      assert y[..|y| - 1] == x;
    }
  }

  /** `preg_split('/\r\n|\r|\n/', $s)`. */
  function SplitLines(s: string): (lines: seq<string>)
    ensures |lines| >= 1
    ensures forall i :: 0 <= i < |lines| ==> '\n' !in lines[i] && '\r' !in lines[i]
  {
    if |s| == 0 then [""]
    else if s[0] == '\r' && |s| >= 2 && s[1] == '\n' then [""] + SplitLines(s[2..])
    else if s[0] == '\r' || s[0] == '\n' then [""] + SplitLines(s[1..])
    else
      var rest := SplitLines(s[1..]);
      [[s[0]] + rest[0]] + rest[1..]
  }

  lemma {:induction false} SplitLinesWithout(p: string, rest: string)
    requires '\n' !in p && '\r' !in p
    ensures SplitLines(p + "\n" + rest) == [p] + SplitLines(rest)
    ensures SplitLines(p) == [p]
  {
    if |p| > 0 {
      var t := p + "\n" + rest;
      assert '\n' !in p[1..] && '\r' !in p[1..];
      SplitLinesWithout(p[1..], rest);
      assert t[1..] == p[1..] + "\n" + rest;
      assert t[0] == p[0] && p[0] != '\n' && p[0] != '\r';
      assert [p[0]] + p[1..] == p;
    } else {
      assert p + "\n" + rest == "\n" + rest;
    }
  }

  /** Splitting into lines undoes joining with newlines. */
  lemma {:induction false} SplitLinesImplode(lines: seq<string>)
    requires |lines| >= 1
    requires forall i :: 0 <= i < |lines| ==> '\n' !in lines[i] && '\r' !in lines[i]
    ensures SplitLines(Implode("\n", lines)) == lines
  {
    if |lines| == 1 {
      SplitLinesWithout(lines[0], "");
    } else {
      SplitLinesImplode(lines[1..]);
      SplitLinesWithout(lines[0], Implode("\n", lines[1..]));
      assert lines == [lines[0]] + lines[1..];
    }
  }

  /** `preg_split('/\s+/', $s)`: the pieces between maximal runs of white space. */
  function SplitWs(s: string): (parts: seq<string>)
    ensures |parts| >= 1
    ensures forall i, j :: 0 <= i < |parts| && 0 <= j < |parts[i]| ==> !IsSpace(parts[i][j])
    decreases |s|
  {
    if |s| == 0 then [""]
    else if IsSpace(s[0]) then [""] + SplitWs(DropSpaces(s))
    else
      var rest := SplitWs(s[1..]);
      [[s[0]] + rest[0]] + rest[1..]
  }

  lemma {:induction false} SplitWsAlone(w: string)
    requires forall j :: 0 <= j < |w| ==> !IsSpace(w[j])
    ensures SplitWs(w) == [w]
    decreases |w|
  {
    if |w| > 0 {
      SplitWsAlone(w[1..]);
      assert [w[0]] + w[1..] == w;
    }
  }

  lemma {:induction false} SplitWsWord(w: string, rest: string)
    requires forall j :: 0 <= j < |w| ==> !IsSpace(w[j])
    requires |rest| > 0 ==> !IsSpace(rest[0])
    ensures SplitWs(w + " " + rest) == [w] + SplitWs(rest)
    decreases |w|
  {
    var s := w + " " + rest;
    if |w| == 0 {
      assert s == " " + rest && s[1..] == rest;
      assert DropSpaces(s) == rest;
    } else {
      assert s[0] == w[0] && !IsSpace(s[0]);
      assert s[1..] == w[1..] + " " + rest;
      var r := SplitWs(s[1..]);
      assert r == [w[1..]] + SplitWs(rest) by {
        SplitWsWord(w[1..], rest);
      }
      assert SplitWs(s) == [[w[0]] + r[0]] + r[1..];
      assert [w[0]] + w[1..] == w;
    }
  }

  /** The first and last characters of a join of non-empty parts. */
  lemma {:induction false} ImplodeEnds(sep: string, parts: seq<string>)
    requires |parts| >= 1 && |parts[0]| > 0 && |parts[|parts| - 1]| > 0
    ensures |Implode(sep, parts)| > 0
    ensures Implode(sep, parts)[0] == parts[0][0]
    ensures Implode(sep, parts)[|Implode(sep, parts)| - 1] == parts[|parts| - 1][|parts[|parts| - 1]| - 1]
  {
    if |parts| > 1 {
      var rest := parts[1..];
      if |rest| > 1 {
        assert |rest[0]| >= 0;
      }
      ImplodeEndsRest(sep, rest);
    }
  }

  lemma {:induction false} ImplodeEndsRest(sep: string, parts: seq<string>)
    requires |parts| >= 1 && |parts[|parts| - 1]| > 0
    ensures |Implode(sep, parts)| > 0
    ensures Implode(sep, parts)[|Implode(sep, parts)| - 1] == parts[|parts| - 1][|parts[|parts| - 1]| - 1]
  {
    if |parts| > 1 {
      ImplodeEndsRest(sep, parts[1..]);
    }
  }

  /** Splitting at white space undoes joining white-space-free words with
      single spaces. */
  lemma {:induction false} SplitWsImplode(words: seq<string>)
    requires |words| >= 1
    requires forall i, j :: 0 <= i < |words| && 0 <= j < |words[i]| ==> !IsSpace(words[i][j])
    requires forall i :: 0 <= i < |words| ==> |words[i]| > 0
    ensures SplitWs(Implode(" ", words)) == words
  {
    if |words| == 1 {
      SplitWsAlone(words[0]);
    } else {
      var rest := words[1..];
      SplitWsImplode(rest);
      ImplodeEnds(" ", rest);
      SplitWsWord(words[0], Implode(" ", rest));
      assert words == [words[0]] + rest;
    }
  }

  /** A join of words free of trimmed characters is left alone by `trim`. */
  lemma ImplodeTrimmed(words: seq<string>)
    requires |words| >= 1
    requires forall i, j :: 0 <= i < |words| && 0 <= j < |words[i]| ==> !IsTrimChar(words[i][j])
    requires forall i :: 0 <= i < |words| ==> |words[i]| > 0
    ensures Trimmed(Implode(" ", words))
  {
    ImplodeEnds(" ", words);
  }
}
