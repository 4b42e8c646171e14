/** String facts the relay relies on from Rust's standard library: `{}` formatting
    of an unsigned integer, `str::parse::<u16>`, and the UTF-8 byte length that
    `String::len` and byte-range slicing use. */
module Text {
  import opened Wrappers

  /** Concatenation of all parts, in order. */
  function Join(parts: seq<string>): (r: string)
  {
    if parts == [] then "" else Join(parts[..|parts| - 1]) + parts[|parts| - 1]
  }

  lemma {:induction false} JoinAppend(a: seq<string>, b: seq<string>)
    ensures Join(a + b) == Join(a) + Join(b)
    decreases |b|
  {
    if b == [] {
      assert a + b == a;
    } else {
      var n := |b| - 1;
      assert (a + b)[..|a + b| - 1] == a + b[..n];
      JoinAppend(a, b[..n]);
    }
  }

  lemma JoinSingle(s: string)
    ensures Join([s]) == s
  {
  }

  predicate IsDigit(c: char) {
    '0' <= c <= '9'
  }

  predicate AllDigits(s: string) {
    forall i :: 0 <= i < |s| ==> IsDigit(s[i])
  }

  function DigitChar(d: nat): (c: char)
    requires d < 10
    ensures IsDigit(c) && c as int - '0' as int == d
  {
    ('0' as int + d) as char
  }

  /** The decimal rendering of `n` without sign or leading zeros, as `format!("{}", n)` writes it. */
  function DecimalString(n: nat): (r: string)
    ensures 0 < |r|
    ensures forall i :: 0 <= i < |r| ==> IsDigit(r[i])
    ensures |r| > 1 ==> r[0] != '0'
  {
    if n < 10 then [DigitChar(n)] else DecimalString(n / 10) + [DigitChar(n % 10)]
  }

  /** The value of a string of decimal digits, read left to right. */
  function DigitsValue(s: string): nat
    requires AllDigits(s)
  {
    if s == [] then 0
    else
      assert IsDigit(s[|s| - 1]);
      DigitsValue(s[..|s| - 1]) * 10 + (s[|s| - 1] as int - '0' as int)
  }

  /** `s.parse::<u16>()` as Rust's `from_str_radix` does it: empty text is an error,
      one leading '+' is accepted (but not '+' alone), every other character must be
      a decimal digit, leading zeros are allowed, and a value above 65535 overflows. */
  function ParseU16(s: string): (r: Option<nat>)
    ensures r.Some? ==> r.value <= 0xFFFF
    ensures r.Some? ==> 0 < |s|
  {
    if s == [] then None
    else
      var digits := if s[0] == '+' then s[1..] else s;
      if digits == [] || !AllDigits(digits) then None
      else if DigitsValue(digits) > 0xFFFF then None
      else Some(DigitsValue(digits))
  }

  lemma {:induction false} DigitsValueOfDecimal(n: nat)
    ensures AllDigits(DecimalString(n)) && DigitsValue(DecimalString(n)) == n
  {
    var s := DecimalString(n);
    if n >= 10 {
      DigitsValueOfDecimal(n / 10);
      assert s[..|s| - 1] == DecimalString(n / 10);
    } else {
      assert s[..|s| - 1] == [];
    }
  }

  /** Parsing what `{}` printed gives the number back, for every `u16`. */
  lemma ParseU16RoundTrip(n: nat)
    requires n <= 0xFFFF
    ensures ParseU16(DecimalString(n)) == Some(n)
  {
    DigitsValueOfDecimal(n);
  }

  /** Any text that parses is digits, optionally after one '+'. */
  lemma ParseU16Shape(s: string)
    requires ParseU16(s).Some?
    ensures AllDigits(s) || (s[0] == '+' && 1 < |s| && AllDigits(s[1..]))
  {
  }

  /** How many bytes UTF-8 uses for `c`. */
  function Utf8Width(c: char): (w: nat)
    ensures 1 <= w <= 4
    ensures w == 1 <==> c as int < 0x80
  {
    if c as int < 0x80 then 1
    else if c as int < 0x800 then 2
    else if c as int < 0x10000 then 3
    else 4
  }

  /** `s.len()` of a Rust `String`: its length in UTF-8 bytes. */
  function ByteLen(s: string): (n: nat)
    ensures |s| <= n
  {
    if s == [] then 0 else Utf8Width(s[0]) + ByteLen(s[1..])
  }

  lemma {:induction false} ByteLenAppend(a: string, b: string)
    ensures ByteLen(a + b) == ByteLen(a) + ByteLen(b)
    decreases |a|
  {
    if a == [] {
      assert a + b == b;
    } else {
      assert (a + b)[1..] == a[1..] + b;
      ByteLenAppend(a[1..], b);
    }
  }

  predicate IsAscii(s: string) {
    forall i :: 0 <= i < |s| ==> s[i] as int < 0x80
  }

  /** The character index that byte offset `b` falls on, or nothing when `b` is
      past the end or inside a multi-byte character (where Rust's `&s[..b]` and
      `&s[b..]` panic). */
  function CharIndexAtByte(s: string, b: nat): (r: Option<nat>)
    ensures r.Some? ==> r.value <= |s|
    decreases |s|
  {
    if b == 0 then Some(0)
    else if s == [] || Utf8Width(s[0]) > b then None
    else
      match CharIndexAtByte(s[1..], b - Utf8Width(s[0]))
      case None => None
      case Some(k) => Some(k + 1)
  }

  /** The index found is where the first `b` bytes end. */
  lemma {:induction false} CharIndexAtByteSound(s: string, b: nat)
    requires CharIndexAtByte(s, b).Some?
    ensures ByteLen(s[..CharIndexAtByte(s, b).value]) == b
    decreases |s|
  {
    if b == 0 {
      assert s[..0] == [];
    } else {
      var k := CharIndexAtByte(s[1..], b - Utf8Width(s[0])).value;
      CharIndexAtByteSound(s[1..], b - Utf8Width(s[0]));
      assert s[..k + 1][1..] == s[1..][..k];
    }
  }

  /** Every character boundary is found: the offset that ends the first `k`
      characters gives back `k`. */
  lemma {:induction false} CharIndexAtByteComplete(s: string, k: nat)
    requires k <= |s|
    ensures CharIndexAtByte(s, ByteLen(s[..k])) == Some(k)
    decreases |s|
  {
    if k == 0 {
      assert s[..0] == [];
    } else {
      assert s[..k][1..] == s[1..][..k - 1];
      assert s[..k][0] == s[0];
      CharIndexAtByteComplete(s[1..], k - 1);
    }
  }

  /** Byte offset `b` ends some prefix of whole characters of `s`: Rust's `&s[..b]`
      and `&s[b..]` succeed exactly at such offsets. */
  predicate IsCharBoundary(s: string, b: nat) {
    exists k :: 0 <= k <= |s| && ByteLen(s[..k]) == b
  }

  /** `CharIndexAtByte` finds an index exactly at character boundaries, so `None`
      is the offset where slicing panics. */
  lemma CharIndexAtByteFindsBoundary(s: string, b: nat)
    ensures CharIndexAtByte(s, b).Some? <==> IsCharBoundary(s, b)
  {
    if CharIndexAtByte(s, b).Some? {
      CharIndexAtByteSound(s, b);
      var k := CharIndexAtByte(s, b).value;
      assert 0 <= k <= |s| && ByteLen(s[..k]) == b;
    }
    if IsCharBoundary(s, b) {
      var k :| 0 <= k <= |s| && ByteLen(s[..k]) == b;
      CharIndexAtByteComplete(s, k);
    }
  }

  /** A longer prefix has at least as many bytes. */
  lemma ByteLenPrefixMonotone(s: string, i: nat, j: nat)
    requires i <= j <= |s|
    ensures ByteLen(s[..i]) <= ByteLen(s[..j])
  {
    assert s[..j] == s[..i] + s[i..j];
    ByteLenAppend(s[..i], s[i..j]);
  }

  lemma {:induction false} AsciiByteLen(s: string)
    requires IsAscii(s)
    ensures ByteLen(s) == |s|
  {
    if s != [] {
      AsciiByteLen(s[1..]);
    }
  }

  lemma {:induction false} AsciiCharIndex(s: string, b: nat)
    requires IsAscii(s) && b <= |s|
    ensures CharIndexAtByte(s, b) == Some(b)
    decreases |s|
  {
    if b != 0 {
      AsciiCharIndex(s[1..], b - 1);
    }
  }
}
