/**
 The JavaScript values and built-ins the scheduler relies on: numbers that
 may be NaN, the argument values callers pass to `get`, `String.prototype.split`,
 `parseInt` (no radix) and the decimal rendering of integers.
 */
module Js {

  datatype Option<+T> = None | Some(value: T)

  /** A JavaScript number as this client produces it: an integer or NaN. */
  datatype Num = Int(v: int) | NaN

  /** `x * k`; NaN stays NaN. */
  function Times(x: Num, k: int): Num {
    match x
    case Int(v) => Int(v * k)
    case NaN => NaN
  }

  /** `x + k`; NaN stays NaN. */
  function Plus(x: Num, k: int): Num {
    match x
    case Int(v) => Int(v + k)
    case NaN => NaN
  }

  /** `x > 0`, which is false for NaN. */
  predicate Positive(x: Num) {
    x.Int? && x.v > 0
  }

  /** An argument of a call: the values this client distinguishes. */
  datatype Arg = Undefined | Null | Number(n: int) | Str(s: string) | Object(fields: map<string, string>)

  /** `typeof a === 'object'`, which holds of null as well. */
  predicate IsObject(a: Arg) {
    a.Null? || a.Object?
  }

  // ---------------------------------------------------------------------------
  // String.prototype.split with a non-empty separator

  /** `s.split(sep)`: cuts at every occurrence of `sep` found scanning left to right. */
  function Split(s: string, sep: string): (parts: seq<string>)
    requires sep != []
    ensures |parts| >= 1
    decreases |s|
  {
    if |s| < |sep| then [s]
    else if s[..|sep|] == sep then [[]] + Split(s[|sep|..], sep)
    else
      var rest := Split(s[1..], sep);
      [[s[0]] + rest[0]] + rest[1..]
  }

  /** `parts.join(sep)`. */
  function Join(parts: seq<string>, sep: string): string
    requires |parts| >= 1
  {
    if |parts| == 1 then parts[0] else parts[0] + sep + Join(parts[1..], sep)
  }

  lemma JoinHead(x: string, parts: seq<string>, sep: string)
    requires |parts| >= 1
    ensures Join([x + parts[0]] + parts[1..], sep) == x + Join(parts, sep)
  {
    var p := [x + parts[0]] + parts[1..];
    assert p[1..] == parts[1..];
  }

  /** Joining the pieces of a split with the same separator gives back the string. */
  lemma {:induction false} JoinSplit(s: string, sep: string)
    requires sep != []
    ensures Join(Split(s, sep), sep) == s
    decreases |s|
  {
    if |s| < |sep| {
    } else if s[..|sep|] == sep {
      JoinSplit(s[|sep|..], sep);
      var rest := Split(s[|sep|..], sep);
      assert ([[]] + rest)[1..] == rest;
      assert s == sep + s[|sep|..];
    } else {
      JoinSplit(s[1..], sep);
      var rest := Split(s[1..], sep);
      JoinHead([s[0]], rest, sep);
      assert s == [s[0]] + s[1..];
    }
  }

  /** A string free of the one-character separator `c` is a prefix of the first piece. */
  lemma {:induction false} SplitPrefix(a: string, b: string, c: char)
    requires c !in a
    ensures Split(a + b, [c]) == [a + Split(b, [c])[0]] + Split(b, [c])[1..]
    decreases |a|
  {
    if a != [] {
      SplitPrefix(a[1..], b, c);
      assert (a + b)[1..] == a[1..] + b;
      assert (a + b)[..1] == [a[0]] != [c];
      assert [a[0]] + (a[1..] + Split(b, [c])[0]) == a + Split(b, [c])[0];
    } else {
      assert a + b == b;
      var r := Split(b, [c]);
      assert a + r[0] == r[0];
      assert r == [r[0]] + r[1..];
    }
  }

  /** The first piece of a split is a prefix of the string. */
  lemma {:induction false} SplitFirstIsPrefix(s: string, sep: string)
    requires sep != []
    ensures Split(s, sep)[0] <= s
    decreases |s|
  {
    if |s| >= |sep| && s[..|sep|] != sep {
      SplitFirstIsPrefix(s[1..], sep);
    }
  }

  /** Splitting `a + c + b` at `c`, with `c` not in `a`, yields `a` and then the pieces of `b`. */
  lemma SplitAt(a: string, b: string, c: char)
    requires c !in a
    ensures Split(a + [c] + b, [c]) == [a] + Split(b, [c])
  {
    SplitPrefix(a, [c] + b, c);
    assert a + [c] + b == a + ([c] + b);
    assert ([c] + b)[..1] == [c];
    assert ([c] + b)[1..] == b;
    assert Split([c] + b, [c]) == [[]] + Split(b, [c]);
    assert a + [] == a;
  }

  /** A string free of the separator is its own only piece. */
  lemma SplitWhole(a: string, c: char)
    requires c !in a
    ensures Split(a, [c]) == [a]
  {
    SplitPrefix(a, [], c);
    assert a + [] == a;
  }

  /** Splitting undoes joining, for pieces free of a one-character separator. */
  lemma {:induction false} SplitJoin(parts: seq<string>, c: char)
    requires |parts| >= 1
    requires forall i :: 0 <= i < |parts| ==> c !in parts[i]
    ensures Split(Join(parts, [c]), [c]) == parts
  {
    if |parts| == 1 {
      SplitWhole(parts[0], c);
    } else {
      SplitJoin(parts[1..], c);
      SplitAt(parts[0], Join(parts[1..], [c]), c);
    }
  }

  // ---------------------------------------------------------------------------
  // Decimal rendering of integers

  predicate IsDecimalDigit(c: char) {
    '0' <= c <= '9'
  }

  function DigitChar(d: nat): (c: char)
    requires d < 10
    ensures IsDecimalDigit(c)
  {
    "0123456789"[d]
  }

  /** `String(n)` for a natural number: decimal digits, most significant first. */
  function NatToString(n: nat): (s: string)
    ensures |s| >= 1
    ensures forall i :: 0 <= i < |s| ==> IsDecimalDigit(s[i])
  {
    if n < 10 then [DigitChar(n)] else NatToString(n / 10) + [DigitChar(n % 10)]
  }

  /** `String(i)` for an integer. */
  function IntToString(i: int): string {
    if i < 0 then "-" + NatToString(-i) else NatToString(i)
  }

  // ---------------------------------------------------------------------------
  // parseInt(s) without a radix argument

  /** The white-space characters `parseInt` skips before the number: tab, the
      vertical tab, form feed, the byte-order mark, every space separator of
      Unicode category Zs, and the line terminators. */
  predicate IsSpace(c: char) {
    c == '\t' || c == '\U{B}' || c == '\U{C}' || c == '\U{FEFF}'
    || c == ' ' || c == '\U{A0}' || c == '\U{1680}' || '\U{2000}' <= c <= '\U{200A}'
    || c == '\U{202F}' || c == '\U{205F}' || c == '\U{3000}'
    || c == '\n' || c == '\r' || c == '\U{2028}' || c == '\U{2029}'
  }

  /** The text after the white space `parseInt` skips: a suffix of `s` that
      does not start with white space, everything before it being white space. */
  function TrimStart(s: string): (t: string)
    ensures |t| <= |s| && t == s[|s| - |t|..]
    ensures t == [] || !IsSpace(t[0])
    ensures forall i :: 0 <= i < |s| - |t| ==> IsSpace(s[i])
  {
    if s != [] && IsSpace(s[0]) then TrimStart(s[1..]) else s
  }

  /** The value of `c` as a digit in base `radix` (10 or 16), if it is one. */
  function DigitValue(c: char, radix: nat): Option<nat> {
    if '0' <= c <= '9' then Some(c as int - '0' as int)
    else if radix == 16 && 'a' <= c <= 'f' then Some(c as int - 'a' as int + 10)
    else if radix == 16 && 'A' <= c <= 'F' then Some(c as int - 'A' as int + 10)
    else None
  }

  /** The longest prefix of `s` made of digits in base `radix`. */
  function LeadingDigits(s: string, radix: nat): (d: string)
    ensures d <= s
    ensures forall i :: 0 <= i < |d| ==> DigitValue(d[i], radix).Some?
    ensures |d| < |s| ==> DigitValue(s[|d|], radix).None?
  {
    if s != [] && DigitValue(s[0], radix).Some? then [s[0]] + LeadingDigits(s[1..], radix) else []
  }

  /** The value of a string of digits in base `radix`. */
  function DigitsValue(d: string, radix: nat): nat
    requires forall i :: 0 <= i < |d| ==> DigitValue(d[i], radix).Some?
  {
    if d == [] then 0
    else DigitsValue(d[..|d| - 1], radix) * radix + DigitValue(d[|d| - 1], radix).value
  }

  /** `parseInt(s)`: skip white space, read an optional sign, switch to base 16
      after a `0x`/`0X` prefix, read the longest run of digits; NaN if there is none. */
  function ParseInt(s: string): Num {
    var t := TrimStart(s);
    var negative := t != [] && t[0] == '-';
    var u := if t != [] && (t[0] == '-' || t[0] == '+') then t[1..] else t;
    var hex := |u| >= 2 && u[0] == '0' && (u[1] == 'x' || u[1] == 'X');
    var radix := if hex then 16 else 10;
    var w := if hex then u[2..] else u;
    var d := LeadingDigits(w, radix);
    if d == [] then NaN
    else
      var v: int := DigitsValue(d, radix);
      Int(if negative then -v else v)
  }

  lemma {:induction false} LeadingDigitsOfDigits(d: string, rest: string)
    requires forall i :: 0 <= i < |d| ==> IsDecimalDigit(d[i])
    requires rest == [] || !IsDecimalDigit(rest[0])
    ensures LeadingDigits(d + rest, 10) == d
  {
    if d != [] {
      assert (d + rest)[1..] == d[1..] + rest;
      LeadingDigitsOfDigits(d[1..], rest);
      assert [d[0]] + d[1..] == d;
    } else {
      assert d + rest == rest;
    }
  }

  lemma {:induction false} DigitsValueOfNat(n: nat)
    ensures forall i :: 0 <= i < |NatToString(n)| ==> DigitValue(NatToString(n)[i], 10).Some?
    ensures DigitsValue(NatToString(n), 10) == n
  {
    var s := NatToString(n);
    if n >= 10 {
      DigitsValueOfNat(n / 10);
      assert s[..|s| - 1] == NatToString(n / 10);
    }
  }

  /** On text that starts with a decimal digit and not with `0x`, parseInt
      reads the leading decimal digits. */
  lemma ParseIntDecimal(s: string)
    requires s != [] && IsDecimalDigit(s[0])
    requires !(|s| >= 2 && s[0] == '0' && (s[1] == 'x' || s[1] == 'X'))
    ensures ParseInt(s) == Int(DigitsValue(LeadingDigits(s, 10), 10))
  {
    TrimStartNoSpace(s);
    LeadingDigitsStart(s, 10);
    assert s[0] != '-' && s[0] != '+';
  }

  /** Blank text is NaN, and only a leading minus sign (after the white space)
      gives a negative number. */
  lemma ParseIntBlankOrSigned(s: string)
    ensures TrimStart(s) == [] ==> ParseInt(s) == NaN
    ensures ParseInt(s).Int? && ParseInt(s).v < 0 ==> TrimStart(s)[0] == '-'
  {
  }

  lemma TrimStartNoSpace(s: string)
    requires s != [] && IsDecimalDigit(s[0])
    ensures TrimStart(s) == s
  {
    assert !IsSpace(s[0]);
  }

  lemma LeadingDigitsStart(s: string, radix: nat)
    requires s != [] && IsDecimalDigit(s[0])
    ensures LeadingDigits(s, radix) != []
  {
    assert DigitValue(s[0], radix).Some?;
  }

  /** parseInt reads back the decimal rendering of a natural number, whatever
      non-digit text follows it; only after `0` does an `x` turn the text into a
      hexadecimal number. */
  lemma ParseIntOfNat(n: nat, rest: string)
    requires rest == [] || (!IsDecimalDigit(rest[0]) && (n != 0 || (rest[0] != 'x' && rest[0] != 'X')))
    ensures ParseInt(NatToString(n) + rest) == Int(n)
  {
    var d := NatToString(n);
    var s := d + rest;
    assert s[0] == d[0];
    assert !(|s| >= 2 && s[0] == '0' && (s[1] == 'x' || s[1] == 'X')) by {
      if |s| >= 2 {
        if |d| == 1 {
          assert s[1] == rest[0];
          if n != 0 { assert d == [DigitChar(n)] && "0123456789"[n] != '0'; }
        } else {
          assert s[1] == d[1];
        }
      }
    }
    ParseIntDecimal(s);
    LeadingDigitsOfDigits(d, rest);
    DigitsValueOfNat(n);
  }
}
