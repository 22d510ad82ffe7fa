/** The ASCII text operations the service relies on: strip, lower, split, decimal and hexadecimal. */
module Text {
  import opened Wrappers

  // ---------------------------------------------------------------- strip and lower

  /** The ASCII characters removed by `str.strip()`. */
  predicate IsSpace(c: char) {
    c == ' ' || '\t' <= c <= '\r' || '\U{001c}' <= c <= '\U{001f}'
  }

  predicate AllSpace(s: string) {
    forall i :: 0 <= i < |s| ==> IsSpace(s[i])
  }

  function LowerChar(c: char): char {
    if 'A' <= c <= 'Z' then c + ('a' - 'A') else c
  }

  function Lower(s: string): (r: string)
    ensures |r| == |s|
  {
    seq(|s|, i requires 0 <= i < |s| => LowerChar(s[i]))
  }

  function StripLeft(s: string): string {
    if s != "" && IsSpace(s[0]) then StripLeft(s[1..]) else s
  }

  function StripRight(s: string): string {
    if s != "" && IsSpace(s[|s| - 1]) then StripRight(s[..|s| - 1]) else s
  }

  function Strip(s: string): string {
    StripRight(StripLeft(s))
  }

  /** How every use case normalises an address before looking it up or storing it. */
  function Normalize(s: string): string {
    Lower(Strip(s))
  }

  /** Neither end of the text is a space. */
  predicate Tight(s: string) {
    s != "" ==> !IsSpace(s[0]) && !IsSpace(s[|s| - 1])
  }

  lemma {:induction false} StripRightTrims(s: string, post: string)
    requires AllSpace(post)
    requires s != "" ==> !IsSpace(s[|s| - 1])
    ensures StripRight(s + post) == s
  {
    if post == "" {
      assert s + post == s;
    } else {
      var n := |post| - 1;
      assert (s + post)[..|s + post| - 1] == s + post[..n];
      StripRightTrims(s, post[..n]);
    }
  }

  lemma {:induction false} StripLeftTrims(pre: string, s: string)
    requires AllSpace(pre)
    ensures StripLeft(pre + s) == StripLeft(s)
  {
    if pre == "" {
      assert pre + s == s;
    } else {
      assert (pre + s)[1..] == pre[1..] + s;
      StripLeftTrims(pre[1..], s);
    }
  }

  /** Surrounding spaces are removed and nothing else is. */
  lemma StripTrims(pre: string, s: string, post: string)
    requires AllSpace(pre) && AllSpace(post) && Tight(s)
    ensures Strip(pre + s + post) == s
  {
    assert pre + s + post == pre + (s + post);
    StripLeftTrims(pre, s + post);
    if s == "" {
      assert s + post == post && post == post + "";
      StripLeftTrims(post, "");
    } else {
      assert (s + post)[0] == s[0];
      StripRightTrims(s, post);
    }
  }

  lemma {:induction false} StripLeftTight(s: string)
    ensures StripLeft(s) != "" ==> !IsSpace(StripLeft(s)[0])
    ensures |StripLeft(s)| <= |s|
  {
    if s != "" && IsSpace(s[0]) {
      StripLeftTight(s[1..]);
    }
  }

  lemma {:induction false} StripRightPrefix(s: string)
    ensures StripRight(s) <= s
    ensures StripRight(s) != "" ==> !IsSpace(StripRight(s)[|StripRight(s)| - 1])
  {
    if s != "" && IsSpace(s[|s| - 1]) {
      StripRightPrefix(s[..|s| - 1]);
    }
  }

  lemma StripIsTight(s: string)
    ensures Tight(Strip(s))
  {
    StripLeftTight(s);
    StripRightPrefix(StripLeft(s));
  }

  lemma TightIsStripped(s: string)
    requires Tight(s)
    ensures Strip(s) == s
  {
    StripTrims("", s, "");
    assert "" + s + "" == s;
  }

  /** Normalising twice changes nothing, so a stored address is its own normal form. */
  lemma NormalizeIdempotent(s: string)
    ensures Normalize(Normalize(s)) == Normalize(s)
  {
    StripIsTight(s);
    var n := Normalize(s);
    assert Tight(n);
    TightIsStripped(n);
    assert Lower(n) == n;
  }

  lemma StripIdempotent(s: string)
    ensures Strip(Strip(s)) == Strip(s)
  {
    StripIsTight(s);
    TightIsStripped(Strip(s));
  }

  /** Any case variant of a normal address, padded with any spaces, normalises to that address. */
  lemma VariantNormalizes(pre: string, core: string, post: string, address: string)
    requires AllSpace(pre) && AllSpace(post)
    requires Lower(core) == address && Normalize(address) == address
    ensures Normalize(pre + core + post) == address
  {
    StripIsTight(address);
    assert Tight(address) by {
      var t := Strip(address);
      assert Lower(t) == address;
      assert t != "" ==> LowerChar(t[0]) == address[0] && LowerChar(t[|t| - 1]) == address[|address| - 1];
    }
    assert core != "" ==> LowerChar(core[0]) == address[0] && LowerChar(core[|core| - 1]) == address[|address| - 1];
    StripTrims(pre, core, post);
  }

  // ---------------------------------------------------------------- split

  /** `s.split(sep)` for a one-character separator. */
  function Split(s: string, sep: char): (parts: seq<string>)
    ensures |parts| > 0
  {
    if s == "" then [""]
    else
      var rest := Split(s[1..], sep);
      if s[0] == sep then [""] + rest else [[s[0]] + rest[0]] + rest[1..]
  }

  lemma {:induction false} SplitField(field: string, sep: char, rest: string)
    requires sep !in field
    ensures Split(field + [sep] + rest, sep) == [field] + Split(rest, sep)
  {
    var s := field + [sep] + rest;
    if field == "" {
      assert s[1..] == rest;
    } else {
      assert s[1..] == field[1..] + [sep] + rest;
      SplitField(field[1..], sep, rest);
      assert [s[0]] + field[1..] == field;
    }
  }

  lemma {:induction false} SplitLast(field: string, sep: char)
    requires sep !in field
    ensures Split(field, sep) == [field]
  {
    if field != "" {
      SplitLast(field[1..], sep);
      assert [field[0]] + field[1..] == field;
    }
  }

  // ---------------------------------------------------------------- integers

  predicate IsDigit(c: char) {
    '0' <= c <= '9'
  }

  function DigitValue(c: char): nat
    requires IsDigit(c)
  {
    c as int - '0' as int
  }

  function Decimal(n: nat): (s: string)
    ensures s != "" && forall i :: 0 <= i < |s| ==> IsDigit(s[i])
  {
    var last := ['0' + (n % 10) as char];
    if n < 10 then last else Decimal(n / 10) + last
  }

  /** `str(n)`. */
  function IntText(n: int): (s: string)
    ensures forall i :: 0 <= i < |s| ==> IsDigit(s[i]) || s[i] == '-'
  {
    if n < 0 then "-" + Decimal(-n) else Decimal(n)
  }

  /** The digits of `int(s)`: single underscores are allowed between digits. */
  function ParseDigits(s: string): Option<nat> {
    if s == "" || !IsDigit(s[|s| - 1]) then None
    else if |s| == 1 then Some(DigitValue(s[0]))
    else
      var front := s[..|s| - 1];
      var higher := ParseDigits(if front[|front| - 1] == '_' then front[..|front| - 1] else front);
      if higher.None? then None else Some(10 * higher.value + DigitValue(s[|s| - 1]))
  }

  /** `int(s)` on ASCII text: spaces around, an optional sign, then digits; None when it raises ValueError. */
  function ParseInt(s: string): Option<int> {
    var t := Strip(s);
    if t != "" && (t[0] == '-' || t[0] == '+') then
      var digits := ParseDigits(t[1..]);
      if digits.None? then None
      else
        var magnitude: int := digits.value;
        Some(if t[0] == '-' then -magnitude else magnitude)
    else
      var digits := ParseDigits(t);
      if digits.None? then None else Some(digits.value)
  }

  lemma {:induction false} ParseDigitsDecimal(n: nat)
    ensures ParseDigits(Decimal(n)) == Some(n)
  {
    if n >= 10 {
      ParseDigitsDecimal(n / 10);
      var s := Decimal(n);
      assert s[..|s| - 1] == Decimal(n / 10);
    }
  }

  lemma ParseIntText(n: int)
    ensures ParseInt(IntText(n)) == Some(n)
  {
    TightIsStripped(IntText(n));
    if n < 0 {
      assert IntText(n)[1..] == Decimal(-n);
      ParseDigitsDecimal(-n);
    } else {
      ParseDigitsDecimal(n);
    }
  }

  lemma DecimalInjective(a: nat, b: nat)
    requires Decimal(a) == Decimal(b)
    ensures a == b
  {
    ParseDigitsDecimal(a);
    ParseDigitsDecimal(b);
  }

  // ---------------------------------------------------------------- bytes

  newtype byte = b: int | 0 <= b < 256

  function HexDigit(v: int): char
    requires 0 <= v < 16
  {
    if v < 10 then '0' + v as char else 'a' + (v - 10) as char
  }

  function HexValue(c: char): Option<int> {
    if IsDigit(c) then Some(DigitValue(c))
    else if 'a' <= c <= 'f' then Some(c as int - 'a' as int + 10)
    else if 'A' <= c <= 'F' then Some(c as int - 'A' as int + 10)
    else None
  }

  /** `data.hex()`. */
  function ToHex(data: seq<byte>): (s: string)
    ensures forall i :: 0 <= i < |s| ==> IsDigit(s[i]) || 'a' <= s[i] <= 'f'
  {
    if data == [] then ""
    else [HexDigit(data[0] as int / 16), HexDigit(data[0] as int % 16)] + ToHex(data[1..])
  }

  /** `bytes.fromhex(s)`: spaces are skipped between bytes; None when it raises ValueError. */
  function FromHex(s: string): Option<seq<byte>> {
    if s == "" then Some([])
    else if s[0] == ' ' || '\t' <= s[0] <= '\r' then FromHex(s[1..])
    else if |s| < 2 || HexValue(s[0]).None? || HexValue(s[1]).None? then None
    else
      var rest := FromHex(s[2..]);
      if rest.None? then None
      else Some([(16 * Nibble(s[0]) + Nibble(s[1])) as byte] + rest.value)
  }

  function Nibble(c: char): (v: int)
    requires HexValue(c).Some?
    ensures 0 <= v < 16
  {
    HexValue(c).value
  }

  lemma {:induction false} HexRoundTrip(data: seq<byte>)
    ensures FromHex(ToHex(data)) == Some(data)
  {
    if data != [] {
      HexRoundTrip(data[1..]);
      var s := ToHex(data);
      assert s[2..] == ToHex(data[1..]);
      var v := data[0] as int;
      assert HexValue(HexDigit(v / 16)) == Some(v / 16);
      assert HexValue(HexDigit(v % 16)) == Some(v % 16);
      assert [data[0]] + data[1..] == data;
    }
  }
}
