/** The texts that people sign: each says exactly one thing. */
module Messages {
  import opened Words
  import opened Accounts
  import opened Wire
  import Hex
  import opened Protocol
  import Borsh
  import Kinds
  import Layouts

  lemma AsciiConcat(s: string, t: string)
    ensures Hex.Ascii(s + t) == Hex.Ascii(s) + Hex.Ascii(t)
  {
  }

  lemma {:induction false} HexIsAscii(b: seq<Byte>)
    ensures forall i :: 0 <= i < |Hex.Encode(b)| ==> Hex.Encode(b)[i] as int < 256
  {
    if b != [] { HexIsAscii(b[1..]); }
  }

  lemma AsciiDistinct(s: string, t: string)
    requires forall i :: 0 <= i < |s| ==> s[i] as int < 256
    requires forall i :: 0 <= i < |t| ==> t[i] as int < 256
    requires Hex.Ascii(s) == Hex.Ascii(t)
    ensures s == t
  {
    assert |s| == |Hex.Ascii(s)| == |Hex.Ascii(t)| == |t|;
    forall i | 0 <= i < |s| ensures s[i] == t[i] {
      assert Hex.Ascii(s)[i] == s[i] as int && Hex.Ascii(t)[i] == t[i] as int;
    }
  }

  /** Hexadecimal text, as bytes, determines what it spells. */
  lemma HexBytesDistinct(a: seq<Byte>, b: seq<Byte>)
    requires Hex.Ascii(Hex.Encode(a)) == Hex.Ascii(Hex.Encode(b))
    ensures a == b
  {
    HexIsAscii(a);
    HexIsAscii(b);
    AsciiDistinct(Hex.Encode(a), Hex.Encode(b));
    Hex.EncodeInjective(a, b);
  }

  lemma BytesOfDistinct(v: nat, w: nat, n: nat)
    requires v < Pow256(n) && w < Pow256(n) && BytesOf(v, n) == BytesOf(w, n)
    ensures v == w
  {
    NatOfBytesOf(v, n);
    NatOfBytesOf(w, n);
  }

  lemma ConsentParts(key: Word, authority: Address)
    ensures ConsentMessage(key, authority) ==
            [0x19] + Hex.Ascii(EIP191_TEXT) + Hex.Ascii(NEW_TEXT) + Hex.Ascii(Hex.Encode(BytesOf(key, 32))) +
            Hex.Ascii(AUTHORITY_TEXT) + Hex.Ascii(Hex.Encode(BytesOf(authority, 20)))
  {
    var k, a := Hex.Encode(BytesOf(key, 32)), Hex.Encode(BytesOf(authority, 20));
    AsciiConcat(EIP191_TEXT, NEW_TEXT + k + AUTHORITY_TEXT + a);
    AsciiConcat(NEW_TEXT + k + AUTHORITY_TEXT, a);
    AsciiConcat(NEW_TEXT + k, AUTHORITY_TEXT);
    AsciiConcat(NEW_TEXT, k);
  }

  /** The message spelled out: which text is where, with the key and then the authority in lower-case
      hexadecimal. */
  lemma ConsentSpells(key: Word, authority: Address)
    ensures var m := ConsentMessage(key, authority);
            && |m| == 182 && m[0] == 0x19
            && m[1..29] == Hex.Ascii("Ethereum Signed Message:\n153")
            && m[29..56] == Hex.Ascii("New Superposition account: ")
            && m[56..120] == Hex.Ascii(Hex.Encode(BytesOf(key, 32)))
            && m[120..142] == Hex.Ascii(", authority contract: ")
            && m[142..] == Hex.Ascii(Hex.Encode(BytesOf(authority, 20)))
  {
    ConsentParts(key, authority);
    assert |EIP191_TEXT| == 28 && |NEW_TEXT| == 27 && |AUTHORITY_TEXT| == 22;
  }

  /** The EIP-191 message announces 153 bytes and has them after its 29-byte prefix, with the key and then the
      authority in hexadecimal after their texts, and no two of them agree unless they name the same key and
      the same authority. */
  lemma ConsentsDistinct(key: Word, authority: Address, key': Word, authority': Address)
    ensures var m := ConsentMessage(key, authority);
            && |m| == 29 + 153 && m[0] == 0x19
            && m[1..29] == Hex.Ascii("Ethereum Signed Message:\n153")
            && m[29..56] == Hex.Ascii("New Superposition account: ")
            && m[56..120] == Hex.Ascii(Hex.Encode(BytesOf(key, 32)))
            && m[120..142] == Hex.Ascii(", authority contract: ")
            && m[142..] == Hex.Ascii(Hex.Encode(BytesOf(authority, 20)))
    ensures ConsentMessage(key, authority) == ConsentMessage(key', authority') ==> key == key' && authority == authority'
  {
    var m, m' := ConsentMessage(key, authority), ConsentMessage(key', authority');
    ConsentSpells(key, authority);
    ConsentSpells(key', authority');
    if m == m' {
      HexBytesDistinct(BytesOf(key, 32), BytesOf(key', 32));
      HexBytesDistinct(BytesOf(authority, 20), BytesOf(authority', 20));
      Widths();
      BytesOfDistinct(key, key', 32);
      BytesOfDistinct(authority, authority', 20);
    }
  }

  /** A statement is bound to its account: what is hashed for it determines the account, the message
      and the nonce. */
  lemma StatementsDistinct(a: Address, x: StatementArgs, b: Address, y: StatementArgs)
    requires |x.msg| < MAX_COUNT && |y.msg| < MAX_COUNT
    requires StatementPreimage(a, x) == StatementPreimage(b, y)
    ensures a == b && x == y
  {
    var p, q := StatementPreimage(a, x), StatementPreimage(b, y);
    AsciiConcat(STATEMENT_TEXT, Hex.Encode(BytesOf(a, 20)));
    AsciiConcat(STATEMENT_TEXT, Hex.Encode(BytesOf(b, 20)));
    assert |STATEMENT_TEXT| == 37;
    assert p[37..77] == Hex.Ascii(Hex.Encode(BytesOf(a, 20))) && q[37..77] == Hex.Ascii(Hex.Encode(BytesOf(b, 20)));
    HexBytesDistinct(BytesOf(a, 20), BytesOf(b, 20));
    Widths();
    BytesOfDistinct(a, b, 20);
    assert p[77..] == StatementBytes(x) && q[77..] == StatementBytes(y);
    StatementBytesDistinct(x, y);
  }

  /** The first four bytes of a statement, read as a count. */
  lemma StatementCount(a: Address, x: StatementArgs)
    requires |x.msg| < MAX_COUNT
    ensures |StatementPreimage(a, x)| == 87 + |x.msg| && Borsh.FromLittleEndian(StatementPreimage(a, x)[..4]) == 0x65707553
  {
    var p := StatementPreimage(a, x);
    AsciiConcat(STATEMENT_TEXT, Hex.Encode(BytesOf(a, 20)));
    assert |STATEMENT_TEXT| == 37;
    StatementSize(x);
    var t := STATEMENT_TEXT;
    assert t[0] == 'S' && t[1] == 'u' && t[2] == 'p' && t[3] == 'e';
    forall i | 0 <= i < 4 ensures p[i] == t[i] as int % 256 {
      assert p[i] == Hex.Ascii(t)[i];
    }
    assert p[..4] == [0x53, 0x75, 0x70, 0x65];
    assert p[..4][1..] == [0x75, 0x70, 0x65] && p[..4][1..][1..] == [0x70, 0x65] && p[..4][1..][1..][1..] == [0x65];
    assert Borsh.FromLittleEndian([0x65]) == 0x65;
    assert Borsh.FromLittleEndian([0x70, 0x65]) == 0x6570;
    assert Borsh.FromLittleEndian([0x75, 0x70, 0x65]) == 0x657075;
  }

  lemma StatementSize(x: StatementArgs)
    requires |x.msg| < MAX_COUNT
    ensures |StatementBytes(x)| == 10 + |x.msg|
  {
    Layouts.Fields2(Borsh.Blob, Borsh.Raw(x.msg), Borsh.Fixed(6), Borsh.Raw(x.msTs));
    Layouts.StructIs(Of2(Borsh.Blob, Borsh.Fixed(6)), StatementValue(x).vs);
  }

  /** A statement is never taken for a payload of another kind, nor the other way round: its text would
      announce more elements than its message has room for. */
  lemma StatementsApart(n: nat, a: Address, x: StatementArgs, p: Payload)
    requires |x.msg| < MAX_COUNT && Kinds.Fits(n, p)
    ensures StatementPreimage(a, x) != Kinds.Bytes(n, p)
  {
    StatementCount(a, x);
    Kinds.LeadingCount(n, p);
    Kinds.MinimalSize(n, p);
    Borsh.LengthWidths();
    Borsh.LittleEndianBack(Kinds.Leading(p), 4);
  }
}
