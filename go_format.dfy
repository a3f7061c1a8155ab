/**
 * The two text encodings the backends build keys and URLs from: `common.Hash.Hex()`
 * ("0x" and 64 lower-case hex digits) and fmt's `%d` for an `int`.
 */
module GoFormat {
  import opened Types

  function HexDigit(n: int): (c: char)
    requires 0 <= n < 16
    ensures HexValue(c) == n
  {
    if n < 10 then ('0' as int + n) as char else ('a' as int + n - 10) as char
  }

  /** The inverse of HexDigit on lower-case digits. */
  function HexValue(c: char): (n: int)
  {
    if '0' <= c <= '9' then c as int - '0' as int
    else if 'a' <= c <= 'f' then c as int - 'a' as int + 10
    else -1
  }

  /** Lower-case hex of a byte string, high nibble first. */
  function HexOf(b: Bytes): (s: string)
    ensures |s| == 2 * |b|
    ensures forall i :: 0 <= i < |b| ==> s[2 * i] == HexDigit(b[i] / 16) && s[2 * i + 1] == HexDigit(b[i] % 16)
  {
    if b == [] then [] else [HexDigit(b[0] / 16), HexDigit(b[0] % 16)] + HexOf(b[1..])
  }

  /** `common.Hash.Hex()`. */
  function Hex(h: Hash32): (s: string)
    ensures |s| == 66 && s[..2] == "0x"
    ensures s[2..] == HexOf(h)
  {
    "0x" + HexOf(h)
  }

  /** Different byte strings have different hex texts. */
  lemma {:induction false} HexOfInjective(a: Bytes, b: Bytes)
    requires HexOf(a) == HexOf(b)
    ensures a == b
  {
    assert |a| == |b|;
    forall i | 0 <= i < |a|
      ensures a[i] == b[i]
    {
      assert HexOf(a)[2 * i] == HexOf(b)[2 * i] && HexOf(a)[2 * i + 1] == HexOf(b)[2 * i + 1];
      assert HexValue(HexDigit(a[i] / 16)) == HexValue(HexDigit(b[i] / 16));
      assert HexValue(HexDigit(a[i] % 16)) == HexValue(HexDigit(b[i] % 16));
    }
  }

  /** Two hashes share a key text exactly when they are the same hash. */
  lemma HexKeyInjective(a: Hash32, b: Hash32)
    ensures Hex(a) == Hex(b) <==> a == b
  {
    if Hex(a) == Hex(b) {
      assert HexOf(a) == Hex(a)[2..] == Hex(b)[2..] == HexOf(b);
      HexOfInjective(a, b);
    }
  }

  /** The decimal digits of a natural number, most significant first, without leading zeros. */
  function Digits(n: nat): (s: string)
    ensures |s| >= 1
    ensures forall i :: 0 <= i < |s| ==> '0' <= s[i] <= '9'
    ensures s[0] == '0' ==> s == "0"
  {
    if n < 10 then [('0' as int + n) as char] else Digits(n / 10) + [('0' as int + n % 10) as char]
  }

  /** fmt's `%d` of an int: an optional minus sign and then digits, which read back as the int. */
  function Decimal(n: int): (s: string)
    ensures |s| >= 1 && forall i :: 0 < i < |s| ==> '0' <= s[i] <= '9'
    ensures (s[0] == '-') == (n < 0)
    ensures n < 0 ==> |s| >= 2 && s[1] != '0'
    ensures n >= 0 ==> '0' <= s[0] <= '9' && (s[0] == '0' ==> s == "0")
    ensures ParseDecimal(s) == n
  {
    if n < 0 then
      DigitsRoundTrip(-n);
      assert ("-" + Digits(-n))[1..] == Digits(-n);
      "-" + Digits(-n)
    else
      DigitsRoundTrip(n);
      Digits(n)
  }

  /** The value a string of decimal digits denotes. */
  function DigitsValue(s: string): (n: int)
  {
    if s == [] then 0 else 10 * DigitsValue(s[..|s| - 1]) + (s[|s| - 1] as int - '0' as int)
  }

  /** Reads back what Decimal writes. */
  function ParseDecimal(s: string): (n: int)
  {
    if s != [] && s[0] == '-' then -DigitsValue(s[1..]) else DigitsValue(s)
  }

  lemma {:induction false} DigitsRoundTrip(n: nat)
    ensures DigitsValue(Digits(n)) == n
  {
    if n >= 10 {
      var s := Digits(n);
      assert s[..|s| - 1] == Digits(n / 10);
      DigitsRoundTrip(n / 10);
    }
  }
}
