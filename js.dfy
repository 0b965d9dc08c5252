/** The JavaScript built-ins the application relies on, stated over Dafny's
    unbounded integers and `seq<char>` strings: integer-to-string conversion,
    `parseInt`, `Math.ceil` of a quotient, the truncating `%` operator,
    `Array.prototype.slice`, `String.prototype.trim`, `split` on one
    character, `join`, ASCII `toLowerCase` and the `||` default on strings. */
module Js {

  datatype Option<T> = None | Some(value: T)

  /** `a || b` on strings: an empty (or absent, modelled as "") string is falsy. */
  function Or(a: string, b: string): string
  {
    if a != "" then a else b
  }

  predicate StartsWith(s: string, prefix: string)
  {
    |prefix| <= |s| && s[..|prefix|] == prefix
  }

  predicate EndsWith(s: string, suffix: string)
  {
    |suffix| <= |s| && s[|s| - |suffix|..] == suffix
  }

  /** A text built as `prefix + middle + suffix` starts and ends with those. */
  lemma Framed(prefix: string, middle: string, suffix: string)
    ensures StartsWith(prefix + middle + suffix, prefix)
    ensures StartsWith(prefix + middle + suffix, prefix + middle)
    ensures EndsWith(prefix + middle + suffix, suffix)
  {
    var s := prefix + middle + suffix;
    assert s[..|prefix|] == prefix;
    assert s[..|prefix + middle|] == prefix + middle;
    assert s[|s| - |suffix|..] == suffix;
  }

  /** Two strings that differ at position `i` cannot both start with each other's prefix up to `i`. */
  lemma NotStartsWith(s: string, prefix: string, i: nat)
    requires i < |s| && i < |prefix| && s[i] != prefix[i]
    ensures !StartsWith(s, prefix)
  {
  }

  // ---------------------------------------------------------------------
  // Numbers and their decimal text

  predicate IsDigit(c: char)
  {
    '0' <= c <= '9'
  }

  predicate AllDigits(s: string)
  {
    forall i :: 0 <= i < |s| ==> IsDigit(s[i])
  }

  function DigitChar(d: nat): (c: char)
    requires d < 10
    ensures IsDigit(c) && c as int - '0' as int == d
  {
    ('0' as int + d) as char
  }

  /** Decimal text of a natural number, as `n.toString()` prints it. */
  function NatToString(n: nat): (s: string)
    ensures |s| >= 1 && AllDigits(s)
    ensures s[0] == '0' ==> n == 0 && |s| == 1
    decreases n
  {
    if n < 10 then [DigitChar(n)] else NatToString(n / 10) + [DigitChar(n % 10)]
  }

  /** Decimal text of an integer (`Number.prototype.toString` on an integral value). */
  function IntToString(i: int): (s: string)
    ensures |s| >= 1
    ensures s[0] == '-' <==> i < 0
    ensures s[0] == '-' || IsDigit(s[0])
  {
    if i < 0 then "-" + NatToString(-i) else NatToString(i)
  }

  /** The value of a string of decimal digits. */
  function DigitsValue(s: string): nat
    requires AllDigits(s)
  {
    if s == [] then 0 else DigitsValue(s[..|s| - 1]) * 10 + (s[|s| - 1] as int - '0' as int)
  }

  lemma {:induction false} DigitsValueOfNatToString(n: nat)
    ensures DigitsValue(NatToString(n)) == n
    decreases n
  {
    if n >= 10 {
      DigitsValueOfNatToString(n / 10);
      var s := NatToString(n / 10);
      assert (s + [DigitChar(n % 10)])[..|s|] == s;
    }
  }

  /** White space as `String.prototype.trim`, `parseInt` and the regular
      expression class `\s` understand it: the WhiteSpace and
      LineTerminator code points of the ECMAScript grammar. */
  predicate IsSpace(c: char)
  {
    || c == '\t' || c == '\n' || c == '\U{000B}' || c == '\U{000C}' || c == '\r' || c == ' '
    || c == '\U{00A0}' || c == '\U{1680}' || ('\U{2000}' <= c <= '\U{200A}')
    || c == '\U{2028}' || c == '\U{2029}' || c == '\U{202F}' || c == '\U{205F}'
    || c == '\U{3000}' || c == '\U{FEFF}'
  }

  /** Drops the leading white space of `s`. */
  function TrimStart(s: string): (r: string)
    ensures |r| <= |s| && r == s[|s| - |r|..]
    ensures forall i :: 0 <= i < |s| - |r| ==> IsSpace(s[i])
    ensures r != [] ==> !IsSpace(r[0])
  {
    if s != [] && IsSpace(s[0]) then
      TrimStartStep(s, TrimStart(s[1..]));
      TrimStart(s[1..])
    else s
  }

  lemma TrimStartStep(s: string, r: string)
    requires s != [] && |r| <= |s| - 1 && r == s[1..][|s| - 1 - |r|..]
    ensures r == s[|s| - |r|..]
    ensures forall i :: 1 <= i < |s| - |r| ==> s[i] == s[1..][i - 1]
  {
  }

  /** Drops the trailing white space of `s`. */
  function TrimEnd(s: string): (r: string)
    ensures |r| <= |s| && r == s[..|r|]
    ensures forall i :: |r| <= i < |s| ==> IsSpace(s[i])
    ensures r != [] ==> !IsSpace(r[|r| - 1])
  {
    if s != [] && IsSpace(s[|s| - 1]) then TrimEnd(s[..|s| - 1]) else s
  }

  /** `s.trim()`. */
  function Trim(s: string): (r: string)
    ensures |r| <= |s|
    ensures r != [] ==> !IsSpace(r[0]) && !IsSpace(r[|r| - 1])
  {
    TrimEnd(TrimStart(s))
  }

  /** `s.trim()` is empty exactly when every character of `s` is white space. */
  lemma TrimEmptyIff(s: string)
    ensures Trim(s) == "" <==> forall i :: 0 <= i < |s| ==> IsSpace(s[i])
  {
    var t := TrimStart(s);
    if t != [] {
      assert t[0] == s[|s| - |t|];
    }
  }

  /** The longest prefix of `s` made of decimal digits. */
  function DigitPrefix(s: string): (r: string)
    ensures |r| <= |s| && r == s[..|r|] && AllDigits(r)
    ensures |r| < |s| ==> !IsDigit(s[|r|])
  {
    if s != [] && IsDigit(s[0]) then [s[0]] + DigitPrefix(s[1..]) else []
  }

  /** The text `parseInt` reads its digits from: `s` after its leading white
      space and at most one sign. */
  function Unsigned(s: string): (u: string)
    ensures |u| <= |s| && u == s[|s| - |u|..]
  {
    var t := TrimStart(s);
    if t != [] && (t[0] == '-' || t[0] == '+') then t[1..] else t
  }

  /** A minus sign follows the leading white space. */
  predicate Negative(s: string)
  {
    var t := TrimStart(s);
    t != [] && t[0] == '-'
  }

  /** `parseInt(s, 10)`: leading white space is skipped, one sign is read, then
      the longest run of digits; no digit at all gives NaN, here `None`. */
  function ParseInt(s: string): (r: Option<int>)
    ensures r.Some? <==> DigitPrefix(Unsigned(s)) != []
    ensures AllDigits(s) && s != [] ==> r == Some(DigitsValue(s))
  {
    var digits := DigitPrefix(Unsigned(s));
    var magnitude: int := if digits == [] then 0 else DigitsValue(digits);
    assert AllDigits(s) && s != [] ==> Unsigned(s) == s && DigitPrefix(s) == s by {
      if AllDigits(s) && s != [] {
        assert !IsSpace(s[0]);
        assert TrimStart(s) == s;
        DigitPrefixOfDigits(s);
      }
    }
    if digits == [] then None else Some(if Negative(s) then -magnitude else magnitude)
  }

  /** The `0x` or `0X` mark that makes a radix-less `parseInt` read hexadecimal. */
  predicate HexMarked(u: string)
  {
    |u| >= 2 && u[0] == '0' && (u[1] == 'x' || u[1] == 'X')
  }

  predicate IsHexDigit(c: char)
  {
    IsDigit(c) || 'a' <= c <= 'f' || 'A' <= c <= 'F'
  }

  predicate AllHex(s: string)
  {
    forall i :: 0 <= i < |s| ==> IsHexDigit(s[i])
  }

  function HexDigitValue(c: char): (v: nat)
    requires IsHexDigit(c)
    ensures v < 16
    ensures IsDigit(c) ==> v == c as int - '0' as int
  {
    if IsDigit(c) then c as int - '0' as int
    else if 'a' <= c <= 'f' then c as int - 'a' as int + 10
    else c as int - 'A' as int + 10
  }

  /** The longest prefix of `s` made of hexadecimal digits. */
  function HexPrefix(s: string): (r: string)
    ensures |r| <= |s| && r == s[..|r|] && AllHex(r)
    ensures |r| < |s| ==> !IsHexDigit(s[|r|])
  {
    if s != [] && IsHexDigit(s[0]) then [s[0]] + HexPrefix(s[1..]) else []
  }

  /** The value of a string of hexadecimal digits. */
  function HexValue(s: string): nat
    requires AllHex(s)
  {
    if s == [] then 0 else HexValue(s[..|s| - 1]) * 16 + HexDigitValue(s[|s| - 1])
  }

  /** `parseInt(s)` with no radix: as `parseInt(s, 10)`, except that a `0x` or
      `0X` after the sign makes the digits that follow it hexadecimal. */
  function ParseIntAuto(s: string): (r: Option<int>)
    ensures !HexMarked(Unsigned(s)) ==> r == ParseInt(s)
    ensures HexMarked(Unsigned(s)) ==> (r.Some? <==> HexPrefix(Unsigned(s)[2..]) != [])
  {
    var u := Unsigned(s);
    if HexMarked(u) then
      var digits := HexPrefix(u[2..]);
      var magnitude: int := if digits == [] then 0 else HexValue(digits);
      if digits == [] then None else Some(if Negative(s) then -magnitude else magnitude)
    else ParseInt(s)
  }

  /** Decimal text of an integer never carries the hexadecimal mark, so the
      radix-less call reads it back too. */
  lemma ParseIntAutoOfIntToString(i: int)
    ensures ParseIntAuto(IntToString(i)) == Some(i)
  {
    var s := IntToString(i);
    var n: nat := if i < 0 then -i else i;
    assert !IsSpace(s[0]);
    assert TrimStart(s) == s;
    assert Unsigned(s) == NatToString(n);
    ParseIntOfIntToString(i);
  }

  /** A text of decimal digits reads the same with and without the radix. */
  lemma ParseIntAutoOfDigits(s: string)
    requires AllDigits(s)
    ensures ParseIntAuto(s) == ParseInt(s)
  {
    if s != [] {
      assert !IsSpace(s[0]);
      assert TrimStart(s) == s;
      assert Unsigned(s) == s;
    }
  }

  /** The radix matters: `parseInt("0x2")` is 2, `parseInt("0x2", 10)` is 0. */
  lemma HexMarkRead()
    ensures ParseIntAuto("0x2") == Some(2)
    ensures ParseInt("0x2") == Some(0)
  {
    var s := "0x2";
    assert !IsSpace(s[0]);
    assert TrimStart(s) == s;
    assert Unsigned(s) == s;
    assert HexPrefix(s[2..]) == "2";
    assert HexValue("2") == HexValue("") * 16 + 2;
    assert DigitPrefix(s) == "0";
    assert DigitsValue("0") == DigitsValue("") * 10 + 0;
  }

  /** Reading back the decimal text of an integer gives the integer. */
  lemma ParseIntOfIntToString(i: int)
    ensures ParseInt(IntToString(i)) == Some(i)
  {
    var s := IntToString(i);
    var n: nat := if i < 0 then -i else i;
    var d := NatToString(n);
    assert !IsSpace(s[0]);
    assert TrimStart(s) == s;
    assert Unsigned(s) == d;
    DigitPrefixOfDigits(d);
    DigitsValueOfNatToString(n);
  }

  lemma DigitPrefixOfDigits(s: string)
    requires AllDigits(s)
    ensures DigitPrefix(s) == s
  {
  }

  // ---------------------------------------------------------------------
  // Integer arithmetic as JavaScript performs it

  /** `Math.ceil(a / b)` for a positive integer divisor. */
  function CeilDiv(a: int, b: int): (r: int)
    requires b > 0
    ensures a <= r * b < a + b
  {
    (a + b - 1) / b
  }

  /** `a % 2` as JavaScript computes it: the remainder truncates toward zero
      and takes the sign of the dividend. */
  function RemTwo(a: int): (r: int)
    ensures (a - r) % 2 == 0
    ensures a >= 0 ==> 0 <= r < 2
    ensures a < 0 ==> -2 < r <= 0
  {
    if a >= 0 then a % 2 else -((-a) % 2)
  }

  /** `a % 2 === 1` holds exactly for the positive odd numbers. */
  lemma RemTwoIsOne(p: int)
    ensures RemTwo(p) == 1 <==> p > 0 && p % 2 == 1
  {
  }

  // ---------------------------------------------------------------------
  // Array.prototype.slice

  /** How `slice` reads one of its bounds against a length `n`: a negative
      bound counts from the end, and every bound is clamped to `0..n`. */
  function RelativeIndex(i: int, n: nat): (k: nat)
    ensures k <= n
    ensures 0 <= i ==> k == if i < n then i else n
  {
    if i < 0 then (if n + i < 0 then 0 else n + i) else if i < n then i else n
  }

  /** `s.slice(start, end)`. */
  function Slice<T>(s: seq<T>, start: int, end: int): (r: seq<T>)
    ensures RelativeIndex(start, |s|) + |r| <= |s|
    ensures forall i :: 0 <= i < |r| ==> r[i] == s[RelativeIndex(start, |s|) + i]
    ensures r != [] ==> RelativeIndex(start, |s|) + |r| == RelativeIndex(end, |s|)
  {
    var a, b := RelativeIndex(start, |s|), RelativeIndex(end, |s|);
    if a < b then s[a..b] else []
  }

  function Min(a: int, b: int): int
  {
    if a < b then a else b
  }

  /** With non-negative bounds, `slice` is the contiguous run of `s` between
      the bounds cut at the end of `s`, and never longer than `end - start`. */
  lemma SliceWindow<T>(s: seq<T>, start: int, end: int)
    requires 0 <= start <= end
    ensures Min(start, |s|) <= Min(end, |s|)
    ensures Slice(s, start, end) == s[Min(start, |s|)..Min(end, |s|)]
    ensures |Slice(s, start, end)| <= end - start
  {
  }

  // ---------------------------------------------------------------------
  // Strings

  /** `xs.join(sep)`. */
  function Join(xs: seq<string>, sep: string): (r: string)
    ensures xs == [] ==> r == ""
    ensures |xs| == 1 ==> r == xs[0]
    ensures |xs| >= 2 ==> |r| == |xs[0]| + |sep| + |Join(xs[1..], sep)|
  {
    if xs == [] then "" else if |xs| == 1 then xs[0] else xs[0] + sep + Join(xs[1..], sep)
  }

  /** A joined list starts with its first element. */
  lemma {:induction false} JoinStartsWithHead(xs: seq<string>, sep: string)
    requires xs != []
    ensures StartsWith(Join(xs, sep), xs[0])
  {
    if |xs| > 1 {
      assert (xs[0] + sep + Join(xs[1..], sep))[..|xs[0]|] == xs[0];
    }
  }

  /** Joining one more element appends the separator and the element. */
  lemma {:induction false} JoinSnoc(xs: seq<string>, x: string, sep: string)
    requires xs != []
    ensures Join(xs + [x], sep) == Join(xs, sep) + sep + x
  {
    if |xs| == 1 {
      assert xs + [x] == [xs[0], x];
      assert [xs[0], x][1..] == [x];
    } else {
      JoinSnoc(xs[1..], x, sep);
      assert (xs + [x])[1..] == xs[1..] + [x];
      assert (xs + [x])[0] == xs[0];
    }
  }

  /** `s.split(c)[0]`: the part of `s` before the first `c`, or all of `s`. */
  function BeforeFirst(s: string, c: char): (r: string)
    ensures |r| <= |s| && r == s[..|r|]
    ensures c !in r
    ensures |r| < |s| ==> s[|r|] == c
  {
    if s == [] || s[0] == c then [] else [s[0]] + BeforeFirst(s[1..], c)
  }

  /** `s.padStart(width, fill)` for a one-character fill. */
  function PadStart(s: string, width: nat, fill: char): (r: string)
    ensures |r| == if |s| >= width then |s| else width
    ensures EndsWith(r, s)
    ensures forall i :: 0 <= i < |r| - |s| ==> r[i] == fill
    decreases width - |s|
  {
    if |s| >= width then s
    else
      var r := PadStart([fill] + s, width, fill);
      assert r[|r| - |s|..] == ([fill] + s)[1..];
      r
  }

  /** A month number padded to two digits reads back as the number. */
  lemma ParseIntOfPadded(m: int)
    requires 1 <= m <= 12
    ensures |PadStart(IntToString(m), 2, '0')| == 2
    ensures ParseInt(PadStart(IntToString(m), 2, '0')) == Some(m)
  {
    var t := IntToString(m);
    var s := PadStart(t, 2, '0');
    if m < 10 {
      assert t == [DigitChar(m)];
      assert s == ['0', DigitChar(m)];
      assert !IsSpace(s[0]);
      assert TrimStart(s) == s;
      assert DigitPrefix(s[1..]) == s[1..];
      assert DigitPrefix(s) == s;
      assert s[..1] == "0";
      assert DigitsValue(s[..1]) == 0;
    } else {
      assert NatToString(m / 10) == [DigitChar(m / 10)];
      ParseIntOfIntToString(m);
    }
  }

  /** The padded month number reads the same with and without the radix. */
  lemma ParseIntAutoOfPadded(m: int)
    requires 1 <= m <= 12
    ensures ParseIntAuto(PadStart(IntToString(m), 2, '0')) == Some(m)
  {
    ParseIntOfPadded(m);
    var t := IntToString(m);
    var s := PadStart(t, 2, '0');
    assert t == NatToString(m);
    assert AllDigits(s) by {
      forall i | 0 <= i < |s| ensures IsDigit(s[i]) {
        if i >= |s| - |t| {
          assert s[|s| - |t|..][i - (|s| - |t|)] == t[i - (|s| - |t|)];
        }
      }
    }
    ParseIntAutoOfDigits(s);
  }

  predicate IsUpperAscii(c: char)
  {
    'A' <= c <= 'Z'
  }

  /** `toLowerCase` on one character; only ASCII letters are modelled. */
  function LowerChar(c: char): (r: char)
    ensures !IsUpperAscii(r)
    ensures IsSpace(r) <==> IsSpace(c)
    ensures !IsUpperAscii(c) ==> r == c
    ensures IsUpperAscii(c) ==> r as int == c as int + 32
  {
    if IsUpperAscii(c) then (c as int + 32) as char else c
  }

  function Lower(s: string): (r: string)
    ensures |r| == |s|
    ensures forall i :: 0 <= i < |s| ==> r[i] == LowerChar(s[i])
  {
    if s == [] then [] else [LowerChar(s[0])] + Lower(s[1..])
  }
}
