/** The fixed-width C++ integer conversions the modelled code relies on. */
module CTypes {

  const UINT32_MODULUS: int := 0x1_0000_0000

  newtype uint32 = x: int | 0 <= x < 0x1_0000_0000
  newtype uint16 = x: int | 0 <= x < 0x1_0000
  newtype uint8 = x: int | 0 <= x < 0x100

  /** A C++ `int` converted to `u_int`: two's-complement wrap-around. */
  function ToUInt32(x: int): (r: uint32)
    ensures r as int % UINT32_MODULUS == x % UINT32_MODULUS
    ensures 0 <= x < UINT32_MODULUS ==> r as int == x
  {
    (x % UINT32_MODULUS) as uint32
  }

  /** `u_int` addition of one: 0xffffffff + 1 wraps to 0. */
  function Inc32(x: uint32): (r: uint32)
    ensures x as int < UINT32_MODULUS - 1 ==> r as int == x as int + 1
    ensures x as int == UINT32_MODULUS - 1 ==> r == 0
  {
    ((x as int + 1) % UINT32_MODULUS) as uint32
  }

  /** A `u_int` passed where a `short` is expected. */
  function ToShort(x: nat): (r: int)
    ensures -0x8000 <= r < 0x8000
    ensures (r - x) % 0x1_0000 == 0
    ensures x < 0x8000 ==> r == x
  {
    (x + 0x8000) % 0x1_0000 - 0x8000
  }

  /**
   * An integral value converted to `u_char`. C++ leaves the conversion of an
   * out-of-range float undefined; the model keeps the value modulo 256.
   */
  function ToUChar(x: int): (r: uint8)
    ensures 0 <= x < 0x100 ==> r as int == x
  {
    (x % 0x100) as uint8
  }

  /** `u_short` increment, wrapping 65535 to 0. */
  function Inc16(x: uint16): (r: uint16)
    ensures x as int < 0xffff ==> r as int == x as int + 1
    ensures x as int == 0xffff ==> r == 0
  {
    ((x as int + 1) % 0x1_0000) as uint16
  }
}

/** Decimal text of unsigned numbers, as printed by the C++ stream and format functions. */
module Decimal {

  import opened Wrappers

  predicate IsDigit(c: char) { '0' <= c <= '9' }

  function DigitChar(d: nat): (c: char)
    requires d < 10
    ensures IsDigit(c)
  {
    ['0', '1', '2', '3', '4', '5', '6', '7', '8', '9'][d]
  }

  function DigitValue(c: char): (d: nat)
    requires IsDigit(c)
    ensures d < 10
  {
    (c as int - '0' as int)
  }

  /** The shortest decimal text of n (no leading zeros). */
  function ToText(n: nat): (s: string)
    ensures |s| >= 1
    ensures forall i :: 0 <= i < |s| ==> IsDigit(s[i])
    decreases n
  {
    if n < 10 then [DigitChar(n)] else ToText(n / 10) + [DigitChar(n % 10)]
  }

  /** Decimal text read back as a number; None when it is empty or holds a non-digit. */
  function Parse(s: string): (r: Option<nat>)
    ensures r.Some? <==> |s| >= 1 && forall i :: 0 <= i < |s| ==> IsDigit(s[i])
  {
    if |s| == 0 then None
    else if !IsDigit(s[|s| - 1]) then None
    else if |s| == 1 then Some(DigitValue(s[0]))
    else match Parse(s[..|s| - 1])
      case None => None
      case Some(high) => Some(high * 10 + DigitValue(s[|s| - 1]))
  }

  lemma {:induction false} ParseToText(n: nat)
    ensures Parse(ToText(n)) == Some(n)
  {
    if n >= 10 {
      var s := ToText(n);
      assert s[..|s| - 1] == ToText(n / 10);
      ParseToText(n / 10);
    }
  }

  /** `%03d`: the decimal text, left-padded with zeros to at least three characters. */
  function Pad3(n: nat): (s: string)
    ensures |s| == if n < 1000 then 3 else |ToText(n)|
    ensures Parse(s) == Some(n)
  {
    var t := ToText(n);
    ParseToText(n);
    var z := if |t| >= 3 then [] else seq(3 - |t|, _ => '0');
    ParseLeadingZeros(|z|, t);
    assert z == seq(|z|, _ => '0');
    SmallHasShortText(n);
    z + t
  }

  lemma {:induction false} SmallHasShortText(n: nat)
    ensures n < 1000 ==> |ToText(n)| <= 3
    ensures n >= 1000 ==> |ToText(n)| > 3
  {
    if n >= 10 { SmallHasShortText(n / 10); }
  }

  lemma {:induction false} ParseLeadingZeros(k: nat, t: string)
    requires Parse(t).Some?
    ensures Parse(seq(k, _ => '0') + t) == Parse(t)
  {
    if |t| == 1 {
      if k > 0 {
        var s := seq(k, _ => '0') + t;
        assert s[..|s| - 1] == seq(k, _ => '0');
        ParseZeros(k);
      }
    } else {
      var s := seq(k, _ => '0') + t;
      assert s[..|s| - 1] == seq(k, _ => '0') + t[..|t| - 1];
      ParseLeadingZeros(k, t[..|t| - 1]);
    }
  }

  lemma {:induction false} ParseZeros(k: nat)
    requires k > 0
    ensures Parse(seq(k, _ => '0')) == Some(0)
  {
    if k > 1 {
      var s := seq(k, _ => '0');
      assert s[..k - 1] == seq(k - 1, _ => '0');
      ParseZeros(k - 1);
    }
  }
}
