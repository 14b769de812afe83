/** Fixed-width big-endian integers, as encoding/binary writes and reads them. */
module Bytes {
  type byte = x: int | 0 <= x < 256
  type bytes = seq<byte>
  type uint16 = x: int | 0 <= x < 0x1_0000
  type uint32 = x: int | 0 <= x < 0x1_0000_0000
  type uint64 = x: int | 0 <= x < 0x1_0000_0000_0000_0000

  function Pow256(k: nat): nat { if k == 0 then 1 else 256 * Pow256(k - 1) }

  /** `k` bytes of `n`, most significant first. */
  function BE(n: nat, k: nat): (b: bytes)
    ensures |b| == k
  {
    if k == 0 then [] else BE(n / 256, k - 1) + [n % 256]
  }

  function FromBE(b: bytes): nat {
    if b == [] then 0 else FromBE(b[..|b| - 1]) * 256 + b[|b| - 1]
  }

  /** Reading back what was written. */
  lemma {:induction false} ReadWritten(n: nat, k: nat)
    requires n < Pow256(k)
    ensures FromBE(BE(n, k)) == n
  {
    if k > 0 {
      ReadWritten(n / 256, k - 1);
      assert BE(n, k)[..k - 1] == BE(n / 256, k - 1);
    }
  }

  /** Writing back what was read. */
  lemma {:induction false} WriteRead(b: bytes)
    ensures FromBE(b) < Pow256(|b|)
    ensures BE(FromBE(b), |b|) == b
  {
    if b != [] {
      var front, last := b[..|b| - 1], b[|b| - 1];
      WriteRead(front);
      assert FromBE(b) / 256 == FromBE(front) && FromBE(b) % 256 == last;
      assert b == front + [last];
    }
  }

  lemma Widths()
    ensures Pow256(2) == 0x1_0000
    ensures Pow256(4) == 0x1_0000_0000
    ensures Pow256(8) == 0x1_0000_0000_0000_0000
  {
    assert Pow256(1) == 256 && Pow256(2) == 0x1_0000 && Pow256(3) == 0x100_0000;
    assert Pow256(4) == 0x1_0000_0000 && Pow256(5) == 0x100_0000_0000 && Pow256(6) == 0x1_0000_0000_0000;
    assert Pow256(7) == 0x100_0000_0000_0000 && Pow256(8) == 0x1_0000_0000_0000_0000;
  }

  // ------------------------------------------------------------- hexadecimal text

  function HexDigit(d: nat): char
    requires d < 16
  {
    "0123456789abcdef"[d]
  }

  function Hex(value: seq<byte>): (r: string)
    ensures |r| == 2 * |value|
  {
    if value == [] then [] else [HexDigit(value[0] as nat / 16), HexDigit(value[0] as nat % 16)] + Hex(value[1..])
  }

  /** Digits from 0 to 9, then small letters from a to f. */
  predicate IsHexDigit(c: char, d: nat) {
    if d < 10 then c as int == '0' as int + d else d < 16 && c as int == 'a' as int + d - 10
  }

  /** Two digits for each byte, the high half first. */
  lemma {:induction false} HexAt(value: seq<byte>, i: nat)
    requires i < |value|
    ensures IsHexDigit(Hex(value)[2 * i], value[i] as nat / 16)
    ensures IsHexDigit(Hex(value)[2 * i + 1], value[i] as nat % 16)
  {
    if i > 0 { HexAt(value[1..], i - 1); }
    else { HexDigitMeans(value[0] as nat / 16); HexDigitMeans(value[0] as nat % 16); }
  }

  lemma HexDigitMeans(d: nat)
    requires d < 16
    ensures IsHexDigit(HexDigit(d), d)
  {
  }

  lemma HexDigitApart(d: nat, e: nat)
    requires d < 16 && e < 16 && HexDigit(d) == HexDigit(e)
    ensures d == e
  {
  }

  lemma {:induction false} HexApart(a: seq<byte>, b: seq<byte>)
    requires |a| == |b| && Hex(a) == Hex(b)
    ensures a == b
  {
    if a != [] {
      assert Hex(a)[0] == HexDigit(a[0] as nat / 16) && Hex(b)[0] == HexDigit(b[0] as nat / 16);
      assert Hex(a)[1] == HexDigit(a[0] as nat % 16) && Hex(b)[1] == HexDigit(b[0] as nat % 16);
      HexDigitApart(a[0] as nat / 16, b[0] as nat / 16);
      HexDigitApart(a[0] as nat % 16, b[0] as nat % 16);
      assert Hex(a)[2..] == Hex(a[1..]) && Hex(b)[2..] == Hex(b[1..]);
      HexApart(a[1..], b[1..]);
    }
  }
}
