/** Bytes, and unsigned integers in network byte order. */
module ByteStrings {
  type Byte = b: int | 0 <= b < 256

  type Bytes = seq<Byte>

  function Pow256(width: nat): (p: nat)
    ensures p > 0
  {
    if width == 0 then 1 else 256 * Pow256(width - 1)
  }

  /** The number `n` in `width` bytes, most significant first; higher digits are dropped. */
  function BigEndian(n: nat, width: nat): (s: Bytes)
    ensures |s| == width
  {
    if width == 0 then [] else BigEndian(n / 256, width - 1) + [n % 256]
  }

  function FromBigEndian(s: Bytes): (n: nat)
    ensures n < Pow256(|s|)
  {
    if s == [] then 0 else 256 * FromBigEndian(s[..|s| - 1]) + s[|s| - 1]
  }

  lemma {:induction false} BigEndianRoundTrip(n: nat, width: nat)
    requires n < Pow256(width)
    ensures FromBigEndian(BigEndian(n, width)) == n
  {
    if width > 0 {
      BigEndianRoundTrip(n / 256, width - 1);
      assert BigEndian(n, width)[..width - 1] == BigEndian(n / 256, width - 1);
    }
  }

  lemma {:induction false} FromBigEndianRoundTrip(s: Bytes)
    ensures BigEndian(FromBigEndian(s), |s|) == s
  {
    if s != [] {
      FromBigEndianRoundTrip(s[..|s| - 1]);
      assert s == s[..|s| - 1] + [s[|s| - 1]];
    }
  }

  lemma BigEndianInjective(m: nat, n: nat, width: nat)
    requires m < Pow256(width) && n < Pow256(width) && BigEndian(m, width) == BigEndian(n, width)
    ensures m == n
  {
    BigEndianRoundTrip(m, width);
    BigEndianRoundTrip(n, width);
  }

  const TWO64: nat := 0x1_0000_0000_0000_0000

  lemma Pow256Values()
    ensures Pow256(2) == 65536 && Pow256(8) == TWO64
  {
    assert Pow256(1) == 256 && Pow256(2) == 65536 && Pow256(3) == 0x1_000000 && Pow256(4) == 0x1_0000_0000;
    assert Pow256(5) == 0x1_00_0000_0000 && Pow256(6) == 0x1_0000_0000_0000 && Pow256(7) == 0x1_00_0000_0000_0000;
  }
}
