/** Lower-case hexadecimal text. */
module Hex {
  import opened Words

  function Digit(n: nat): (c: char)
    requires n < 16
  {
    if n < 10 then ('0' as int + n) as char else ('a' as int + n - 10) as char
  }

  function Value(c: char): (n: Option<nat>)
    ensures n.Some? ==> n.value < 16
  {
    if '0' <= c <= '9' then Some(c as int - '0' as int)
    else if 'a' <= c <= 'f' then Some(c as int - 'a' as int + 10)
    else None
  }

  /** A text as bytes, one byte a character. */
  function Ascii(s: string): (b: seq<Byte>)
    ensures |b| == |s|
  {
    seq(|s|, i requires 0 <= i < |s| => s[i] as int % 256)
  }

  function Encode(b: seq<Byte>): (s: string)
    ensures |s| == 2 * |b|
  {
    if b == [] then [] else [Digit(b[0] / 16), Digit(b[0] % 16)] + Encode(b[1..])
  }

  /** The bytes a text spells; None for an odd length or a character that is not a digit. */
  function Decode(s: string): (b: Option<seq<Byte>>) {
    if s == [] then Some([])
    else if |s| == 1 then None
    else
      match (Value(s[0]), Value(s[1]), Decode(s[2..]))
      case (Some(h), Some(l), Some(rest)) => Some([16 * h + l] + rest)
      case _ => None
  }

  lemma DigitValue(n: nat)
    requires n < 16
    ensures Value(Digit(n)) == Some(n)
  {
  }

  lemma {:induction false} DecodeEncode(b: seq<Byte>)
    ensures Decode(Encode(b)) == Some(b)
  {
    if b != [] {
      DigitValue(b[0] / 16);
      DigitValue(b[0] % 16);
      DecodeEncode(b[1..]);
      assert Encode(b)[2..] == Encode(b[1..]);
      assert [b[0]] + b[1..] == b;
    }
  }

  /** Each byte becomes two digits, the high half first. */
  lemma {:induction false} EncodeAt(b: seq<Byte>, i: nat)
    requires i < |b|
    ensures var digits := "0123456789abcdef";
            Encode(b)[2 * i] == digits[b[i] / 16] && Encode(b)[2 * i + 1] == digits[b[i] % 16]
  {
    if i > 0 {
      EncodeAt(b[1..], i - 1);
      assert Encode(b)[2..] == Encode(b[1..]);
      assert Encode(b)[2 * i] == Encode(b)[2..][2 * (i - 1)] && Encode(b)[2 * i + 1] == Encode(b)[2..][2 * (i - 1) + 1];
    }
  }

  lemma {:induction false} EncodeConcat(a: seq<Byte>, b: seq<Byte>)
    ensures Encode(a + b) == Encode(a) + Encode(b)
    decreases |a|
  {
    if a == [] {
      assert a + b == b;
    } else {
      EncodeConcat(a[1..], b);
      assert (a + b)[1..] == a[1..] + b;
      assert Encode(a + b) == [Digit(a[0] / 16), Digit(a[0] % 16)] + (Encode(a[1..]) + Encode(b));
    }
  }

  lemma EncodeFour(a: seq<Byte>, b: seq<Byte>, c: seq<Byte>, d: seq<Byte>)
    ensures Encode(a) + Encode(b) + Encode(c) + Encode(d) == Encode(a + (b + (c + d)))
  {
    EncodeConcat(c, d);
    EncodeConcat(b, c + d);
    EncodeConcat(a, b + (c + d));
  }

  lemma EncodeInjective(a: seq<Byte>, b: seq<Byte>)
    requires Encode(a) == Encode(b)
    ensures a == b
  {
    DecodeEncode(a);
    DecodeEncode(b);
  }
}
