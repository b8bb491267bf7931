/**
 * The few JavaScript string and number operations the route handlers rely on:
 * `String(n)`, `parseInt`, `includes`, `split`, `toLowerCase`/`toUpperCase`
 * (ASCII letters only), `substring` with its clamping, and `replace` of a
 * single character with the empty string (first occurrence only).
 */
module Text {
  import opened Common

  predicate IsDigit(c: char) { '0' <= c <= '9' }

  predicate AllDigits(s: string) { forall i :: 0 <= i < |s| ==> IsDigit(s[i]) }

  /** JavaScript truthiness of an optional string: absent and "" are falsy. */
  predicate Truthy(o: Option<string>) { o.Some? && o.value != "" }

  /** The value of the optional string when it is truthy, else `fallback` (`x || fallback`). */
  function OrElse(o: Option<string>, fallback: string): (r: string)
    ensures Truthy(o) ==> r == o.value
    ensures !Truthy(o) ==> r == fallback
  {
    if Truthy(o) then o.value else fallback
  }

  function DigitChar(d: nat): (c: char)
    requires d < 10
    ensures IsDigit(c) && c as int - '0' as int == d
  {
    (d + '0' as int) as char
  }

  /** Decimal digits of a natural number, most significant first, without leading zeros. */
  function NatToString(n: nat): (s: string)
    ensures |s| > 0 && AllDigits(s)
    decreases n
  {
    if n < 10 then [DigitChar(n)] else NatToString(n / 10) + [DigitChar(n % 10)]
  }

  /** `String(n)` for an integer-valued JavaScript number. */
  function IntToString(n: int): (s: string)
    ensures |s| > 0
  {
    if n < 0 then "-" + NatToString(-n) else NatToString(n)
  }

  /** The number a string of decimal digits denotes. */
  function DigitsValue(s: string): nat
    requires AllDigits(s)
  {
    if s == [] then 0 else DigitsValue(s[..|s| - 1]) * 10 + (s[|s| - 1] as int - '0' as int)
  }

  /** Length of the longest prefix of `s` made only of decimal digits. */
  function LeadingDigits(s: string): (k: nat)
    ensures k <= |s| && AllDigits(s[..k])
    ensures k < |s| ==> !IsDigit(s[k])
  {
    if s == [] || !IsDigit(s[0]) then 0
    else
      var k := 1 + LeadingDigits(s[1..]);
      assert s[..k] == [s[0]] + s[1..][..k - 1];
      k
  }

  predicate IsSpace(c: char) { c == ' ' || c == '\t' || c == '\n' || c == '\r' }

  /** `s` without its leading white space. */
  function TrimStart(s: string): (t: string)
    ensures |t| <= |s|
    ensures |s| > 0 && !IsSpace(s[0]) ==> t == s
  {
    if s != [] && IsSpace(s[0]) then TrimStart(s[1..]) else s
  }

  /**
   * `TrimStart` removes exactly the leading run of white space: what it keeps
   * is a suffix of `s` that does not start with white space, and everything it
   * drops is white space.
   */
  lemma {:induction false} TrimStartSkipsSpace(s: string)
    ensures var t := TrimStart(s);
      && t == s[|s| - |t|..]
      && (t == [] || !IsSpace(t[0]))
      && forall i :: 0 <= i < |s| - |t| ==> IsSpace(s[i])
  {
    if s != [] && IsSpace(s[0]) {
      TrimStartSkipsSpace(s[1..]);
      var t := TrimStart(s[1..]);
      assert forall i :: 1 <= i < |s| - |t| ==> s[i] == s[1..][i - 1];
    }
  }

  /**
   * `parseInt(s)` (radix 10): leading white space is skipped, an optional sign is
   * read, then the longest run of digits; no digit at all gives NaN (`None`).
   */
  function ParseInt(s: string): (r: Option<int>)
    ensures s == [] ==> r.None?
    ensures s != [] && AllDigits(s) ==> r == Some(DigitsValue(s))
  {
    if s != [] && AllDigits(s) then
      assert IsDigit(s[0]) && LeadingDigits(s) == |s| && s[..|s|] == s;
      ParseSigned(TrimStart(s))
    else ParseSigned(TrimStart(s))
  }

  /** An optional sign, then the longest run of digits; NaN (`None`) without a digit. */
  function ParseSigned(t: string): Option<int>
  {
    var signed := |t| > 0 && (t[0] == '-' || t[0] == '+');
    var body := if signed then t[1..] else t;
    var k := LeadingDigits(body);
    var magnitude: int := DigitsValue(body[..k]);
    if k == 0 then None
    else if signed && t[0] == '-' then Some(-magnitude)
    else Some(magnitude)
  }

  lemma {:induction false} DigitsValueOfNat(n: nat)
    ensures DigitsValue(NatToString(n)) == n
    decreases n
  {
    var s := NatToString(n);
    if n >= 10 {
      DigitsValueOfNat(n / 10);
      assert s[..|s| - 1] == NatToString(n / 10);
    }
  }

  lemma {:induction false} LeadingDigitsOfPrefix(d: string, rest: string)
    requires AllDigits(d)
    requires rest == [] || !IsDigit(rest[0])
    ensures LeadingDigits(d + rest) == |d|
    decreases |d|
  {
    if d != [] {
      assert (d + rest)[1..] == d[1..] + rest;
      LeadingDigitsOfPrefix(d[1..], rest);
    }
  }

  /** The digits of `m` followed by text that does not start with a digit read back as `m`. */
  lemma ParseDigitsOfNat(m: nat, rest: string)
    requires rest == [] || !IsDigit(rest[0])
    ensures var body := NatToString(m) + rest; DigitsValue(body[..LeadingDigits(body)]) == m
    ensures LeadingDigits(NatToString(m) + rest) > 0
  {
    var d := NatToString(m);
    LeadingDigitsOfPrefix(d, rest);
    DigitsValueOfNat(m);
    assert (d + rest)[..|d|] == d;
  }

  /** An unsigned rendering, followed by a non-digit, reads back. */
  lemma ParseSignedNat(m: nat, rest: string)
    requires rest == [] || !IsDigit(rest[0])
    ensures ParseSigned(NatToString(m) + rest) == Some(m)
  {
    var t := NatToString(m) + rest;
    assert IsDigit(t[0]);
    ParseDigitsOfNat(m, rest);
  }

  /** A negative rendering, followed by a non-digit, reads back. */
  lemma ParseSignedNegative(m: nat, rest: string)
    requires rest == [] || !IsDigit(rest[0])
    ensures ParseSigned("-" + NatToString(m) + rest) == Some(-(m as int))
  {
    var t := "-" + NatToString(m) + rest;
    assert t[1..] == NatToString(m) + rest;
    ParseDigitsOfNat(m, rest);
  }

  /** Text that does not start with white space is read by `ParseSigned` as it stands. */
  lemma ParseIntNoSpace(t: string)
    requires |t| > 0 && !IsSpace(t[0])
    ensures ParseInt(t) == ParseSigned(t)
  {
  }

  /**
   * Round trip: `parseInt` reads back the number `String(n)` renders, also when
   * the rendering is followed by text that does not start with a digit.
   */
  lemma ParseIntOfRendered(n: int, rest: string)
    requires rest == [] || !IsDigit(rest[0])
    ensures ParseInt(IntToString(n) + rest) == Some(n)
  {
    if n < 0 {
      var t := "-" + NatToString(-n) + rest;
      assert IntToString(n) + rest == t;
      ParseIntNoSpace(t);
      ParseSignedNegative(-n, rest);
    } else {
      var t := NatToString(n) + rest;
      assert IntToString(n) + rest == t;
      assert IsDigit(t[0]);
      ParseIntNoSpace(t);
      ParseSignedNat(n, rest);
    }
  }

  /** The default page sizes and offsets the list routes fall back to read back as numbers. */
  lemma DefaultNumerals()
    ensures ParseInt("0") == Some(0) && ParseInt("10") == Some(10) && ParseInt("50") == Some(50)
  {
    assert ParseInt("0") == Some(0) by {
      ParseIntOfRendered(0, "");
      assert IntToString(0) + "" == "0";
    }
    assert ParseInt("10") == Some(10) by {
      ParseIntOfRendered(10, "");
      assert NatToString(1) == "1";
      assert IntToString(10) + "" == "10";
    }
    assert ParseInt("50") == Some(50) by {
      ParseIntOfRendered(50, "");
      assert NatToString(5) == "5";
      assert IntToString(50) + "" == "50";
    }
  }

  predicate StartsWith(s: string, prefix: string)
  {
    |prefix| <= |s| && s[..|prefix|] == prefix
  }

  /** `s.includes(sub)`. */
  predicate Contains(s: string, sub: string)
    decreases |s|
  {
    StartsWith(s, sub) || (|s| > 0 && Contains(s[1..], sub))
  }

  /** A needle whose first character does not occur in `s` cannot be found in `s`. */
  lemma {:induction false} NotContainsByFirstChar(s: string, sub: string)
    requires sub != [] && sub[0] !in s
    ensures !Contains(s, sub)
    decreases |s|
  {
    if |sub| <= |s| {
      assert s[..|sub|][0] == s[0];
    }
    if |s| > 0 {
      assert forall c :: c in s[1..] ==> c in s;
      NotContainsByFirstChar(s[1..], sub);
    }
  }

  /** Index of the first occurrence of `c` in `s`, or `|s|` when there is none. */
  function IndexOf(s: string, c: char): (k: nat)
    ensures k <= |s|
    ensures forall j :: 0 <= j < k ==> s[j] != c
    ensures k < |s| ==> s[k] == c
    ensures k == |s| <==> c !in s
  {
    if s == [] then 0 else if s[0] == c then 0 else 1 + IndexOf(s[1..], c)
  }

  /** `s.split(sep)` for a one-character separator: always at least one part. */
  function Split(s: string, sep: char): (parts: seq<string>)
    ensures |parts| >= 1
    decreases |s|
  {
    var k := IndexOf(s, sep);
    if k == |s| then [s] else [s[..k]] + Split(s[k + 1..], sep)
  }

  lemma SplitNoSeparator(s: string, sep: char)
    requires sep !in s
    ensures Split(s, sep) == [s]
  {
  }

  /** Splitting at the first separator peels off the text before it. */
  lemma SplitAtFirst(x: string, sep: char, y: string)
    requires sep !in x
    ensures Split(x + [sep] + y, sep) == [x] + Split(y, sep)
  {
    var s := x + [sep] + y;
    var k := IndexOf(s, sep);
    assert s[|x|] == sep;
    assert k == |x|;
    assert s[..k] == x;
    assert s[k + 1..] == y;
  }

  function LowerChar(c: char): char
  {
    if 'A' <= c <= 'Z' then (c as int - 'A' as int + 'a' as int) as char else c
  }

  function UpperChar(c: char): char
  {
    if 'a' <= c <= 'z' then (c as int - 'a' as int + 'A' as int) as char else c
  }

  /** `s.toLowerCase()` on ASCII letters. */
  function Lower(s: string): (r: string)
    ensures |r| == |s|
    ensures forall i :: 0 <= i < |s| ==> r[i] == LowerChar(s[i])
  {
    seq(|s|, i requires 0 <= i < |s| => LowerChar(s[i]))
  }

  /** `s.toUpperCase()` on ASCII letters. */
  function Upper(s: string): (r: string)
    ensures |r| == |s|
    ensures forall i :: 0 <= i < |s| ==> r[i] == UpperChar(s[i])
  {
    seq(|s|, i requires 0 <= i < |s| => UpperChar(s[i]))
  }

  /** `s.substring(from, to)` for `from <= to`: both ends are clamped to the length. */
  function Substring(s: string, from: nat, to: nat): (r: string)
    requires from <= to
    ensures |r| <= to - from
    ensures from <= |s| ==> r == s[from..if to <= |s| then to else |s|]
    ensures from >= |s| ==> r == []
  {
    var hi := if to <= |s| then to else |s|;
    var lo := if from <= hi then from else hi;
    s[lo..hi]
  }

  /** Number of occurrences of `c` in `s`. */
  function Count(s: string, c: char): nat
  {
    if s == [] then 0 else (if s[0] == c then 1 else 0) + Count(s[1..], c)
  }

  lemma {:induction false} CountAppend(a: string, b: string, c: char)
    ensures Count(a + b, c) == Count(a, c) + Count(b, c)
    decreases |a|
  {
    if a == [] {
      assert a + b == b;
    } else {
      assert (a + b)[0] == a[0];
      assert (a + b)[1..] == a[1..] + b;
      CountAppend(a[1..], b, c);
    }
  }

  lemma {:induction false} CountAbsent(s: string, c: char)
    requires c !in s
    ensures Count(s, c) == 0
    decreases |s|
  {
    if s != [] {
      assert forall x :: x in s[1..] ==> x in s;
      CountAbsent(s[1..], c);
    }
  }

  /** `s.replace(c, "")` for a one-character pattern: only the first occurrence goes. */
  function RemoveFirst(s: string, c: char): (r: string)
    ensures c !in s ==> r == s
    ensures c in s ==> |r| == |s| - 1 && Count(r, c) == Count(s, c) - 1
    ensures c in s ==> r == s[..IndexOf(s, c)] + s[IndexOf(s, c) + 1..]
  {
    var k := IndexOf(s, c);
    if k == |s| then s
    else
      assert s == s[..k] + [c] + s[k + 1..];
      CountAppend(s[..k] + [c], s[k + 1..], c);
      CountAppend(s[..k], [c], c);
      CountAppend(s[..k], s[k + 1..], c);
      s[..k] + s[k + 1..]
  }
}
