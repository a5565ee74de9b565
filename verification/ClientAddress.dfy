/** Where an account lives, as clients work it out. */
module ClientAddress {
  import opened Words
  import opened Accounts
  import BeaconCode
  import Deployment

  // The creation code of the proxy around the address of the factory.
  const HEAD: seq<Byte> :=
    BytesOf(0x6073806009, 5) + BytesOf(0x3d393df3, 4) + BytesOf(0x5f3560e01c638fd3ab8014, 11) +
    BytesOf(0x6100135761003656, 8) + BytesOf(0x5b60205f5f5f, 6) + [0x73]
  const TAIL: seq<Byte> :=
    BytesOf(0x5afa, 2) + (BytesOf(0x5f5161005956, 6) + (
    BytesOf(0x5b7f360894a13ba1a3210667c828492db98dca3e2076cc3735a920a3ca505d382bbc54, 35) + BeaconCode.DelegatePart([])))

  lemma PushFactory(factory: Address)
    ensures BytesOf(0x73 * ADDRESS_LIMIT + factory, 21) == [0x73] + BytesOf(factory, 20)
  {
    var b: seq<Byte> := [0x73] + BytesOf(factory, 20);
    Widths();
    NatOfConcat([0x73], BytesOf(factory, 20));
    NatOfBytesOf(factory, 20);
    assert NatOf([0x73]) == 0x73;
    BytesOfNatOf(b);
  }

  lemma Parts(a: seq<Byte>, b: seq<Byte>, c: seq<Byte>, d: seq<Byte>, e: seq<Byte>, f: seq<Byte>, g: seq<Byte>,
        h: seq<Byte>)
    ensures a + b + c + d + e + f + g + h == a + (b + (c + (d + (e + ((f + g) + h)))))
  {
  }

  /** The hash of the creation code, put together from its parts. */
  method ProxyHash(keccak: seq<Byte> -> Word, factory: Address) returns (h: Word)
    ensures h == keccak(Deployment.BeaconFactoryCode(factory))
  {
    var d := HEAD;
    d := d + BytesOf(factory, 20);
    d := d + TAIL;
    PushFactory(factory);
    Parts(BytesOf(0x6073806009, 5), BytesOf(0x3d393df3, 4), BytesOf(0x5f3560e01c638fd3ab8014, 11), BytesOf(0x6100135761003656, 8),
          BytesOf(0x5b60205f5f5f, 6), [0x73], BytesOf(factory, 20), TAIL);
    h := keccak(d);
  }

  /** Go's copy into part of a buffer. */
  method Copy(d: array<Byte>, at: nat, src: seq<Byte>)
    requires at + |src| <= d.Length
    modifies d
    ensures d[..] == old(d[..at]) + src + old(d[at + |src|..])
  {
    var i := 0;
    while i < |src|
      invariant 0 <= i <= |src|
      invariant d[..] == old(d[..at]) + src[..i] + old(d[at + i..])
    {
      d[at + i] := src[i];
      i := i + 1;
      assert src[..i] == src[..i - 1] + [src[i - 1]];
    }
    assert src[..|src|] == src;
  }

  /** The address that clients compute is where the factory creates the account. */
  method GetClientAddr(c: Chain, factory: Address, eoa: Address) returns (a: Address)
    ensures a == ProxyAt(c, factory, eoa)
  {
    var salt := BytesOf(c.keccak(BytesOf(eoa, 20)), 32);
    var d := new Byte[85](i => 0);
    d[0] := 0xff;
    Copy(d, 1, BytesOf(factory, 20));
    Copy(d, 21, salt);
    var m := ProxyHash(c.keccak, factory);
    Copy(d, 53, BytesOf(m, 32));
    assert d[..] == [0xff] + BytesOf(factory, 20) + salt + BytesOf(m, 32);
    var h := c.keccak(d[..]);
    a := h % ADDRESS_LIMIT;
  }

  /** What is hashed for the address. */
  function Preimage(c: Chain, factory: Address, eoa: Address): (b: seq<Byte>) {
    [0xff] + BytesOf(factory, 20) + BytesOf(c.keccak(BytesOf(eoa, 20)), 32) + BytesOf(InitHash(c, factory), 32)
  }

  /** Two EOAs that share an account address exhibit a collision: of the hash itself, or of its last 20
      bytes on two strings of 85 bytes. */
  lemma SharedAddressCollides(c: Chain, factory: Address, e: Address, f: Address)
    requires e != f && ProxyAt(c, factory, e) == ProxyAt(c, factory, f)
    ensures || (BytesOf(e, 20) != BytesOf(f, 20) && c.keccak(BytesOf(e, 20)) == c.keccak(BytesOf(f, 20)))
            || (Preimage(c, factory, e) != Preimage(c, factory, f) &&
                c.keccak(Preimage(c, factory, e)) % ADDRESS_LIMIT == c.keccak(Preimage(c, factory, f)) % ADDRESS_LIMIT)
  {
    Widths();
    NatOfBytesOf(e, 20);
    NatOfBytesOf(f, 20);
    var p, q := c.keccak(BytesOf(e, 20)), c.keccak(BytesOf(f, 20));
    NatOfBytesOf(p, 32);
    NatOfBytesOf(q, 32);
    assert Preimage(c, factory, e)[21..53] == BytesOf(p, 32) && Preimage(c, factory, f)[21..53] == BytesOf(q, 32);
  }
}
