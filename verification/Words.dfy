/** Bytes, 256-bit words and the big-endian correspondence between them. */
module Words {

  type Byte = x: int | 0 <= x < 256

  const WORD_LIMIT: int := 0x1_0000000000000000000000000000000000000000000000000000000000000000
  const ADDRESS_LIMIT: int := 0x1_0000000000000000000000000000000000000000

  type Word = x: int | 0 <= x < WORD_LIMIT
  type Address = x: int | 0 <= x < ADDRESS_LIMIT

  // No calldata, return data or memory region can be paid for beyond this size.
  const DATA_LIMIT: int := 0x8000_0000_0000_0000

  type Data = s: seq<Byte> | |s| < DATA_LIMIT

  datatype Option<+T> = None | Some(value: T)

  function Pow256(n: nat): (r: nat)
    ensures r > 0
  {
    if n == 0 then 1 else 256 * Pow256(n - 1)
  }

  /** The number a big-endian byte string spells. */
  function NatOf(b: seq<Byte>): (v: nat)
    decreases |b|
  {
    if b == [] then 0 else NatOf(b[..|b| - 1]) * 256 + b[|b| - 1]
  }

  /** Byte `k` of a number, counted from the least significant one. */
  function ByteOf(v: nat, k: nat): (b: Byte)
    decreases k, v
  {
    if k == 0 then v % 256 else ByteOf(v / 256, k - 1)
  }

  /** The `n` low-order bytes of a number, most significant first. */
  function BytesOf(v: nat, n: nat): (b: seq<Byte>)
    ensures |b| == n
  {
    seq<Byte>(n, i requires 0 <= i < n => ByteOf(v, n - 1 - i))
  }

  lemma BytesOfStep(v: nat, n: nat)
    requires n > 0
    ensures BytesOf(v, n) == BytesOf(v / 256, n - 1) + [v % 256]
  {
    var b, c := BytesOf(v, n), BytesOf(v / 256, n - 1) + [v % 256];
    forall i | 0 <= i < n ensures b[i] == c[i] {
      assert ByteOf(v, n - 1 - i) == if i == n - 1 then v % 256 else ByteOf(v / 256, n - 2 - i);
    }
  }

  lemma {:induction false} NatOfBytesOf(v: nat, n: nat)
    requires v < Pow256(n)
    ensures NatOf(BytesOf(v, n)) == v
    decreases n
  {
    if n > 0 {
      NatOfBytesOf(v / 256, n - 1);
      BytesOfStep(v, n);
      assert BytesOf(v, n)[..n - 1] == BytesOf(v / 256, n - 1);
    }
  }

  lemma {:induction false} BytesOfNatOf(b: seq<Byte>)
    ensures NatOf(b) < Pow256(|b|)
    ensures BytesOf(NatOf(b), |b|) == b
    decreases |b|
  {
    if b != [] {
      BytesOfNatOf(b[..|b| - 1]);
      BytesOfStep(NatOf(b), |b|);
    }
  }

  lemma {:induction false} NatOfInjective(a: seq<Byte>, b: seq<Byte>)
    requires |a| == |b| && NatOf(a) == NatOf(b)
    ensures a == b
  {
    BytesOfNatOf(a);
    BytesOfNatOf(b);
  }

  lemma {:induction false} NatOfConcat(a: seq<Byte>, b: seq<Byte>)
    ensures NatOf(a + b) == NatOf(a) * Pow256(|b|) + NatOf(b)
    decreases |b|
  {
    if b == [] {
      assert a + b == a;
    } else {
      var front := b[..|b| - 1];
      NatOfConcat(a, front);
      assert (a + b)[..|a + b| - 1] == a + front;
      calc {
        NatOf(a + b);
        (NatOf(a) * Pow256(|front|) + NatOf(front)) * 256 + b[|b| - 1];
        NatOf(a) * Pow256(|front|) * 256 + NatOf(b);
        { MulShuffle(NatOf(a), Pow256(|front|)); }
        NatOf(a) * Pow256(|b|) + NatOf(b);
      }
    }
  }

  lemma MulShuffle(x: int, y: int)
    ensures x * y * 256 == x * (256 * y)
  {
  }

  /** `v` without its `n` low-order bytes. */
  function High(v: nat, n: nat): (r: nat)
    decreases n, v
  {
    if n == 0 then v else High(v / 256, n - 1)
  }

  lemma {:induction false} BytesOfSplit(v: nat, m: nat, n: nat)
    ensures BytesOf(v, m + n) == BytesOf(High(v, n), m) + BytesOf(v, n)
    decreases n
  {
    if n > 0 {
      BytesOfSplit(v / 256, m, n - 1);
      BytesOfStep(v, m + n);
      BytesOfStep(v, n);
    }
  }

  /** Dropping low-order bytes of the number drops them from its spelling. */
  lemma {:induction false} HighOfPrefix(b: seq<Byte>, n: nat)
    requires n <= |b|
    ensures High(NatOf(b), n) == NatOf(b[..|b| - n])
    decreases n
  {
    if n > 0 {
      var front := b[..|b| - 1];
      HighOfPrefix(front, n - 1);
      assert front[..|front| - (n - 1)] == b[..|b| - n];
    } else {
      assert b[..|b|] == b;
    }
  }

  /** `v` shifted right by `k` bits. */
  function Halve(v: nat, k: nat): (r: nat)
    ensures r <= v
    decreases k, v
  {
    if k == 0 then v else Halve(v / 2, k - 1)
  }

  lemma {:induction false} HalveBytes(v: nat, n: nat)
    ensures Halve(v, 8 * n) == High(v, n)
    decreases n
  {
    if n > 0 {
      var k := 8 * n;
      assert Halve(v, k) == Halve(v / 4, k - 2);
      assert Halve(v / 4, k - 2) == Halve(v / 16, k - 4);
      assert Halve(v / 16, k - 4) == Halve(v / 64, k - 6);
      assert Halve(v / 64, k - 6) == Halve(v / 256, k - 8);
      HalveBytes(v / 256, n - 1);
    }
  }

  lemma {:induction false} Pow256Monotone(m: nat, n: nat)
    requires m <= n
    ensures Pow256(m) <= Pow256(n)
    decreases n
  {
    if m < n {
      Pow256Monotone(m, n - 1);
    }
  }

  lemma {:induction false} Pow256Four(n: nat)
    ensures Pow256(n + 4) == 0x1_0000_0000 * Pow256(n)
  {
    assert Pow256(n + 4) == 0x1_0000 * Pow256(n + 2);
  }

  lemma Widths()
    ensures Pow256(0) == 1 && Pow256(1) == 0x100 && Pow256(2) == 0x1_0000 && Pow256(4) == 0x1_0000_0000
    ensures Pow256(20) == ADDRESS_LIMIT
    ensures Pow256(32) == WORD_LIMIT
  {
    Pow256Four(0);
    Pow256Four(4);
    Pow256Four(8);
    Pow256Four(12);
    Pow256Four(16);
    Pow256Four(20);
    Pow256Four(24);
    Pow256Four(28);
  }

  /** `n` bytes of `d` from `at` on, with zeros past the end. */
  function Slice(d: seq<Byte>, at: nat, n: nat): (r: seq<Byte>)
    ensures |r| == n
    ensures at + n <= |d| ==> r == d[at..at + n]
  {
    seq(n, i requires 0 <= i < n => if at + i < |d| then d[at + i] else 0)
  }
}
