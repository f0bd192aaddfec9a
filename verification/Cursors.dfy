/**
 The opaque page cursor: base64url, without padding, of "<nanoseconds>|<id>".
 Text stands for its bytes, so every character of a string met here is below 256.
 */
module Cursors {
  import opened Basics
  import opened Tables

  datatype Cursor = Cursor(captured: Time, id: string)

  predicate Bytes(s: string) {
    forall i :: 0 <= i < |s| ==> s[i] as int < 256
  }

  const INT64_LIMIT := 0x8000_0000_0000_0000

  /** Nanoseconds as a 64-bit count: times outside 1677..2262 wrap around. */
  function UnixNano(t: Time): (ns: int)
    ensures -INT64_LIMIT <= ns < INT64_LIMIT
    ensures ns == t <==> -INT64_LIMIT <= t < INT64_LIMIT
  {
    (t + INT64_LIMIT) % (2 * INT64_LIMIT) - INT64_LIMIT
  }

  lemma WrapsBelowZero(t: Time)
    requires INT64_LIMIT <= t < 2 * INT64_LIMIT
    ensures UnixNano(t) < 0
  {}

  // ---- decimal -----------------------------------------------------------------

  function Digit(d: nat): char
    requires d < 10
  {
    (48 + d) as char
  }

  /** %d of a non-negative number */
  function Digits(n: nat): (s: string)
    ensures s != "" && forall i :: 0 <= i < |s| ==> '0' <= s[i] <= '9'
  {
    if n < 10 then [Digit(n)] else Digits(n / 10) + [Digit(n % 10)]
  }

  function Decimal(n: int): (s: string)
    ensures s != "" && forall i :: 0 <= i < |s| ==> s[i] == '-' || '0' <= s[i] <= '9'
  {
    if n < 0 then "-" + Digits(-n) else Digits(n)
  }

  function ParseDigits(s: string): Option<nat> {
    if s == "" || !('0' <= Last(s) <= '9') then None
    else
      var low := Last(s) as int - 48;
      if |s| == 1 then Some(low)
      else
        var high := ParseDigits(Front(s));
        if high == None then None else Some(high.value * 10 + low)
  }

  /** strconv.ParseInt(s, 10, 64) */
  function ParseInt(s: string): Option<int> {
    var negative := s != "" && s[0] == '-';
    var n := ParseDigits(if s != "" && (s[0] == '-' || s[0] == '+') then s[1..] else s);
    if n == None then None
    else if negative then
      var m: int := n.value;
      if m <= INT64_LIMIT then Some(-m) else None
    else if n.value < INT64_LIMIT then Some(n.value)
    else None
  }

  lemma {:induction false} ParseDigitsInverse(n: nat)
    ensures ParseDigits(Digits(n)) == Some(n)
  {
    if n >= 10 {
      ParseDigitsInverse(n / 10);
      assert Front(Digits(n / 10) + [Digit(n % 10)]) == Digits(n / 10);
    }
  }

  lemma ParsePositive(n: nat)
    requires n < INT64_LIMIT
    ensures ParseInt(Digits(n)) == Some(n)
  {
    ParseDigitsInverse(n);
    assert Digits(n)[0] != '-' && Digits(n)[0] != '+';
  }

  lemma ParseNegative(n: int)
    requires 0 <= n <= INT64_LIMIT
    ensures ParseInt("-" + Digits(n)) == Some(-n)
  {
    ParseDigitsInverse(n);
    var s := "-" + Digits(n);
    assert s[0] == '-' && s[1..] == Digits(n);
  }

  lemma ParseInverse(n: int)
    requires -INT64_LIMIT <= n < INT64_LIMIT
    ensures ParseInt(Decimal(n)) == Some(n)
  {
    if n < 0 {
      ParseNegative(-n);
    } else {
      ParsePositive(n);
    }
  }

  lemma {:induction false} DigitsOnly(s: string)
    ensures ParseDigits(s).Some? <==> s != "" && forall i :: 0 <= i < |s| ==> '0' <= s[i] <= '9'
  {
    if |s| > 1 {
      DigitsOnly(Front(s));
    }
  }

  /** A number is an optional sign and digits, and fits 64 bits. */
  lemma ParsesExactly(s: string)
    ensures ParseInt(s).Some? <==>
      var signed := s != "" && (s[0] == '-' || s[0] == '+');
      var t := if signed then s[1..] else s;
      && t != "" && (forall i :: 0 <= i < |t| ==> '0' <= t[i] <= '9')
      && ParseDigits(t).Some? && ParseDigits(t).value < INT64_LIMIT + if signed && s[0] == '-' then 1 else 0
    ensures ParseInt(s).Some? ==> -0x8000_0000_0000_0000 <= ParseInt(s).value < 0x8000_0000_0000_0000
  {
    DigitsOnly(if s != "" && (s[0] == '-' || s[0] == '+') then s[1..] else s);
  }

  // ---- base64url without padding --------------------------------------------------

  /** The URL-safe alphabet: A-Z a-z 0-9 - _ */
  function Letter(v: nat): char
    requires v < 64
  {
    if v < 26 then (65 + v) as char
    else if v < 52 then (97 + v - 26) as char
    else if v < 62 then (48 + v - 52) as char
    else if v == 62 then '-'
    else '_'
  }

  function Value(c: char): Option<nat> {
    if 'A' <= c <= 'Z' then Some(c as int - 65)
    else if 'a' <= c <= 'z' then Some(c as int - 97 + 26)
    else if '0' <= c <= '9' then Some(c as int - 48 + 52)
    else if c == '-' then Some(62)
    else if c == '_' then Some(63)
    else None
  }

  lemma ValueInverse(v: nat)
    requires v < 64
    ensures Value(Letter(v)) == Some(v) && Letter(v) != '\r' && Letter(v) != '\n'
  {}

  function Encode64(s: string): string
    requires Bytes(s)
  {
    if |s| == 0 then ""
    else if |s| == 1 then
      var a := s[0] as int;
      [Letter(a / 4), Letter(a % 4 * 16)]
    else if |s| == 2 then
      var a, b := s[0] as int, s[1] as int;
      [Letter(a / 4), Letter(a % 4 * 16 + b / 16), Letter(b % 16 * 4)]
    else
      var a, b, c := s[0] as int, s[1] as int, s[2] as int;
      [Letter(a / 4), Letter(a % 4 * 16 + b / 16), Letter(b % 16 * 4 + c / 64), Letter(c % 64)] + Encode64(s[3..])
  }

  /** The decoder skips line breaks wherever they stand. */
  function Unbroken(s: string): string {
    if s == "" then "" else (if s[0] == '\r' || s[0] == '\n' then "" else [s[0]]) + Unbroken(s[1..])
  }

  function Values(s: string): Option<seq<nat>> {
    if s == "" then Some([])
    else if Value(s[0]) == None || Values(s[1..]) == None then None
    else Some([Value(s[0]).value] + Values(s[1..]).value)
  }

  /** Groups of four letters to three bytes; a last group of two or three letters to one or two bytes. */
  function Regroup(v: seq<nat>): Option<string>
    requires forall i :: 0 <= i < |v| ==> v[i] < 64
  {
    if |v| == 0 then Some("")
    else if |v| == 1 then None
    else
      var a := v[0] * 4 + v[1] / 16;
      if |v| == 2 then Some([a as char])
      else
        var b := v[1] % 16 * 16 + v[2] / 4;
        if |v| == 3 then Some([a as char, b as char])
        else
          var c := v[2] % 4 * 64 + v[3];
          var rest := Regroup(v[4..]);
          if rest == None then None else Some([a as char, b as char, c as char] + rest.value)
  }

  lemma {:induction false} ValuesBelow(s: string)
    ensures Values(s).Some? ==> forall i :: 0 <= i < |Values(s).value| ==> Values(s).value[i] < 64
  {
    if s != "" {
      ValuesBelow(s[1..]);
    }
  }

  function Decode64(s: string): Option<string> {
    var v := Values(Unbroken(s));
    ValuesBelow(Unbroken(s));
    if v == None then None else Regroup(v.value)
  }

  /** The letters of an encoding, as values. */
  function Sextets(s: string): (v: seq<nat>)
    requires Bytes(s)
    ensures forall i :: 0 <= i < |v| ==> v[i] < 64
  {
    if |s| == 0 then []
    else if |s| == 1 then
      var a := s[0] as int;
      [a / 4, a % 4 * 16]
    else if |s| == 2 then
      var a, b := s[0] as int, s[1] as int;
      [a / 4, a % 4 * 16 + b / 16, b % 16 * 4]
    else
      var a, b, c := s[0] as int, s[1] as int, s[2] as int;
      [a / 4, a % 4 * 16 + b / 16, b % 16 * 4 + c / 64, c % 64] + Sextets(s[3..])
  }

  function Spelled(v: seq<nat>): string
    requires forall i :: 0 <= i < |v| ==> v[i] < 64
  {
    if v == [] then "" else [Letter(v[0])] + Spelled(v[1..])
  }

  lemma {:induction false} SpelledRead(v: seq<nat>)
    requires forall i :: 0 <= i < |v| ==> v[i] < 64
    ensures Unbroken(Spelled(v)) == Spelled(v) && Values(Spelled(v)) == Some(v)
  {
    if v != [] {
      SpelledRead(v[1..]);
      ValueInverse(v[0]);
      assert Spelled(v)[1..] == Spelled(v[1..]);
      assert [v[0]] + v[1..] == v;
    }
  }

  lemma {:induction false} SpelledAppend(v: seq<nat>, u: seq<nat>)
    requires forall i :: 0 <= i < |v| ==> v[i] < 64
    requires forall i :: 0 <= i < |u| ==> u[i] < 64
    ensures Spelled(v + u) == Spelled(v) + Spelled(u)
  {
    if v == [] {
      assert v + u == u;
    } else {
      SpelledAppend(v[1..], u);
      assert (v + u)[1..] == v[1..] + u;
    }
  }

  lemma SpelledFour(p: nat, q: nat, r: nat, t: nat)
    requires p < 64 && q < 64 && r < 64 && t < 64
    ensures Spelled([p, q, r, t]) == [Letter(p), Letter(q), Letter(r), Letter(t)]
    ensures Spelled([p, q, r]) == [Letter(p), Letter(q), Letter(r)]
    ensures Spelled([p, q]) == [Letter(p), Letter(q)]
  {
    SpelledOne(t, []);
    SpelledOne(r, [t]);
    SpelledOne(r, []);
    SpelledOne(q, [r, t]);
    SpelledOne(q, [r]);
    SpelledOne(q, []);
    SpelledOne(p, [q, r, t]);
    SpelledOne(p, [q, r]);
    SpelledOne(p, [q]);
  }

  lemma SpelledOne(x: nat, u: seq<nat>)
    requires x < 64 && forall i :: 0 <= i < |u| ==> u[i] < 64
    ensures Spelled([x] + u) == [Letter(x)] + Spelled(u)
  {
    assert ([x] + u)[1..] == u;
  }

  lemma {:induction false} EncodeSpells(s: string)
    requires Bytes(s)
    ensures Encode64(s) == Spelled(Sextets(s))
  {
    if |s| == 1 {
      var a := s[0] as int;
      SpelledFour(a / 4, a % 4 * 16, 0, 0);
    } else if |s| == 2 {
      var a, b := s[0] as int, s[1] as int;
      SpelledFour(a / 4, a % 4 * 16 + b / 16, b % 16 * 4, 0);
    } else if |s| > 2 {
      var a, b, c := s[0] as int, s[1] as int, s[2] as int;
      EncodeSpells(s[3..]);
      SpelledFour(a / 4, a % 4 * 16 + b / 16, b % 16 * 4 + c / 64, c % 64);
      SpelledAppend([a / 4, a % 4 * 16 + b / 16, b % 16 * 4 + c / 64, c % 64], Sextets(s[3..]));
    }
  }

  lemma BitsRejoin(a: nat, b: nat, c: nat)
    requires a < 256 && b < 256 && c < 256
    ensures a / 4 * 4 + (a % 4 * 16 + b / 16) / 16 == a && a / 4 * 4 + a % 4 * 16 / 16 == a
    ensures (a % 4 * 16 + b / 16) % 16 * 16 + (b % 16 * 4 + c / 64) / 4 == b
    ensures (a % 4 * 16 + b / 16) % 16 * 16 + b % 16 * 4 / 4 == b
    ensures (b % 16 * 4 + c / 64) % 4 * 64 + c % 64 == c
  {}

  lemma RegroupOne(v: seq<nat>, a: nat)
    requires a < 256 && |v| == 2 && v[0] == a / 4 && v[1] == a % 4 * 16
    ensures v[0] < 64 && v[1] < 64 && Regroup(v) == Some([a as char])
  {
    BitsRejoin(a, 0, 0);
  }

  lemma RegroupTwo(v: seq<nat>, a: nat, b: nat)
    requires a < 256 && b < 256 && |v| == 3
    requires v[0] == a / 4 && v[1] == a % 4 * 16 + b / 16 && v[2] == b % 16 * 4
    ensures v[0] < 64 && v[1] < 64 && v[2] < 64 && Regroup(v) == Some([a as char, b as char])
  {
    BitsRejoin(a, b, 0);
  }

  /** One full group. */
  lemma RegroupGroup(v: seq<nat>, a: nat, b: nat, c: nat, rest: string)
    requires a < 256 && b < 256 && c < 256 && |v| >= 4 && forall i :: 0 <= i < |v| ==> v[i] < 64
    requires v[0] == a / 4 && v[1] == a % 4 * 16 + b / 16 && v[2] == b % 16 * 4 + c / 64 && v[3] == c % 64
    requires Regroup(v[4..]) == Some(rest)
    ensures Regroup(v) == Some([a as char, b as char, c as char] + rest)
  {
    BitsRejoin(a, b, c);
  }

  lemma {:induction false} RegroupInverse(s: string)
    requires Bytes(s)
    ensures Regroup(Sextets(s)) == Some(s)
  {
    if |s| == 0 {
      assert s == "";
    } else if |s| == 1 {
      RegroupOne(Sextets(s), s[0] as int);
      assert s == [s[0]];
    } else if |s| == 2 {
      RegroupTwo(Sextets(s), s[0] as int, s[1] as int);
      assert s == [s[0], s[1]];
    } else {
      RegroupInverse(s[3..]);
      assert Sextets(s)[4..] == Sextets(s[3..]);
      RegroupGroup(Sextets(s), s[0] as int, s[1] as int, s[2] as int, s[3..]);
      assert s == [s[0], s[1], s[2]] + s[3..];
    }
  }

  /** Decoding undoes encoding, for every byte string. */
  lemma Base64RoundTrip(s: string)
    requires Bytes(s)
    ensures Decode64(Encode64(s)) == Some(s)
  {
    EncodeSpells(s);
    SpelledRead(Sextets(s));
    RegroupInverse(s);
  }

  predicate InAlphabet(c: char) {
    'A' <= c <= 'Z' || 'a' <= c <= 'z' || '0' <= c <= '9' || c == '-' || c == '_'
  }

  lemma {:induction false} ValuesExactly(s: string)
    ensures Values(s).Some? <==> forall i :: 0 <= i < |s| ==> InAlphabet(s[i])
    ensures Values(s).Some? ==> |Values(s).value| == |s|
  {
    if s != "" {
      ValuesExactly(s[1..]);
      assert s == [s[0]] + s[1..];
    }
  }

  lemma {:induction false} RegroupExactly(v: seq<nat>)
    requires forall i :: 0 <= i < |v| ==> v[i] < 64
    ensures Regroup(v).Some? <==> |v| % 4 != 1
  {
    if |v| > 3 {
      RegroupExactly(v[4..]);
    }
  }

  /** Line breaks aside, a text decodes exactly when it consists of letters of the alphabet and leaves no single one over. */
  lemma DecodesExactly(s: string)
    ensures Decode64(s).Some? <==> var t := Unbroken(s); |t| % 4 != 1 && forall i :: 0 <= i < |t| ==> InAlphabet(t[i])
  {
    ValuesExactly(Unbroken(s));
    ValuesBelow(Unbroken(s));
    if Values(Unbroken(s)).Some? {
      RegroupExactly(Values(Unbroken(s)).value);
    }
  }

  lemma {:induction false} UnbrokenKeeps(s: string)
    ensures forall c :: c in Unbroken(s) <==> c in s && c != '\r' && c != '\n'
    ensures '\r' !in s && '\n' !in s ==> Unbroken(s) == s
  {
    if s != "" {
      UnbrokenKeeps(s[1..]);
      assert s == [s[0]] + s[1..];
    }
  }

  /** Test vectors of section 10 of RFC 4648, without their padding, and the ends of the URL-safe alphabet. */
  lemma Base64Vectors()
    ensures Encode64("f") == "Zg" && Encode64("fo") == "Zm8" && Encode64("foo") == "Zm9v"
    ensures Letter(0) == 'A' && Letter(25) == 'Z' && Letter(26) == 'a' && Letter(51) == 'z'
    ensures Letter(52) == '0' && Letter(61) == '9' && Letter(62) == '-' && Letter(63) == '_'
  {}

  // ---- the cursor -------------------------------------------------------------------

  function EncodeCursor(c: Cursor): string
    requires Bytes(c.id)
  {
    Encode64(Decimal(UnixNano(c.captured)) + "|" + c.id)
  }

  /** What stands before the first '|', and after it. */
  function SplitBar(s: string): Option<(string, string)> {
    if s == "" then None
    else if s[0] == '|' then Some(("", s[1..]))
    else
      var rest := SplitBar(s[1..]);
      if rest == None then None else Some(([s[0]] + rest.value.0, rest.value.1))
  }

  function DecodeCursor(s: string): Option<Cursor> {
    var raw := Decode64(s);
    if raw == None || SplitBar(raw.value) == None then None
    else
      var parts := SplitBar(raw.value).value;
      var ns := ParseInt(parts.0);
      if ns == None then None else Some(Cursor(ns.value, parts.1))
  }

  lemma {:induction false} SplitFirst(a: string, b: string)
    requires '|' !in a
    ensures SplitBar(a + "|" + b) == Some((a, b))
  {
    var s := a + "|" + b;
    if a == "" {
      assert s[1..] == b;
    } else {
      SplitFirst(a[1..], b);
      assert s[1..] == a[1..] + "|" + b;
      assert s[0] == a[0] && a[0] in a;
      assert [a[0]] + a[1..] == a;
    }
  }

  lemma {:induction false} BarSplits(s: string)
    ensures SplitBar(s).Some? <==> '|' in s
    ensures SplitBar(s).Some? ==> '|' !in SplitBar(s).value.0 && s == SplitBar(s).value.0 + "|" + SplitBar(s).value.1
  {
    if s != "" && s[0] != '|' {
      BarSplits(s[1..]);
      assert s == [s[0]] + s[1..];
    } else if s != "" {
      assert s == "|" + s[1..];
    }
  }

  /** A token is refused exactly when it is not base64url, has no bar, or no number before its first bar. */
  lemma RefusedExactly(s: string)
    ensures DecodeCursor(s) == None <==>
      || Decode64(s) == None || '|' !in Decode64(s).value
      || exists a, b :: '|' !in a && Decode64(s).value == a + "|" + b && ParseInt(a) == None
  {
    if Decode64(s).Some? {
      var raw := Decode64(s).value;
      BarSplits(raw);
      forall a, b | '|' !in a && raw == a + "|" + b
        ensures SplitBar(raw) == Some((a, b))
      {
        SplitFirst(a, b);
      }
    }
  }

  /** The text behind a cursor: nanoseconds in decimal, a bar, the id. */
  lemma CursorText()
    ensures EncodeCursor(Cursor(-90, "r")) == Encode64("-90|r")
  {
    assert Digits(9) == "9" && Digits(90) == "90";
    assert Decimal(UnixNano(-90)) + "|" + "r" == "-90|r";
  }

  /** What a cursor decodes to: its id, whatever bytes that has, and its time as a 64-bit nanosecond count. */
  lemma CursorDecodes(c: Cursor)
    requires Bytes(c.id)
    ensures DecodeCursor(EncodeCursor(c)) == Some(Cursor(UnixNano(c.captured), c.id))
  {
    var text := Decimal(UnixNano(c.captured));
    Base64RoundTrip(text + "|" + c.id);
    SplitFirst(text, c.id);
    ParseInverse(UnixNano(c.captured));
  }

  /** Decoding undoes encoding exactly for the times a 64-bit nanosecond count can hold; any id comes back unchanged. */
  lemma CursorRoundTrip(c: Cursor)
    requires Bytes(c.id)
    ensures DecodeCursor(EncodeCursor(c)) == Some(c) <==> -INT64_LIMIT <= c.captured < INT64_LIMIT
  {
    CursorDecodes(c);
  }
}
