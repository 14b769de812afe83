/** The block loop of BLAKE2b (section 3.3 of RFC 7693) and the variable-length hash
    built on it (section 3.3 of RFC 9106). The compression function is a parameter;
    lengths, offsets and chunking are the code's own. */
module Blake2 {
  import opened Bytes
  import opened Common

  type State = seq<int>
  type Words = b: bytes | |b| == 64 witness seq(64, _ => 0)

  /** `initial` is the chaining value for a digest length, `compress` one call of the
      compression function on a 128-byte block with its offset and last-block flag,
      and `words` the little-endian bytes of a chaining value. */
  datatype Core = Core(
    initial: nat -> State, compress: (State, bytes, nat, bool) -> State, words: State -> Words)

  // -------------------------------------------------------------- blake2bSum

  /** The message is padded with zeros to whole 128-byte blocks; even the empty
      message has one. */
  function Blocks(message: bytes): nat {
    if |message| == 0 then 1 else (|message| + 127) / 128
  }

  function Zeros(n: nat): bytes { seq(n, _ => 0) }

  /** Block `i` of the padded message. */
  function Chunk(message: bytes, i: nat): (b: bytes)
    requires i < Blocks(message)
    ensures |b| == 128
  {
    if 128 * i + 128 <= |message| then message[128 * i..128 * i + 128]
    else message[128 * i..] + Zeros(128 - (|message| - 128 * i))
  }

  /** The blocks hold the message and then zeros: every byte of it once, in order. */
  lemma ChunksHoldMessage(message: bytes, k: nat)
    requires k < 128 * Blocks(message)
    ensures Chunk(message, k / 128)[k % 128] == if k < |message| then message[k] else 0
  {
    var i := k / 128;
    assert k == 128 * i + k % 128;
    assert i < Blocks(message);
  }

  /** The first `n` compressions, none of them the last one. */
  function Absorbed(core: Core, h: State, message: bytes, n: nat): State
    requires n < Blocks(message)
  {
    if n == 0 then h
    else core.compress(Absorbed(core, h, message, n - 1), Chunk(message, n - 1), 128 * n, false)
  }

  /** Section 3.3 of RFC 7693 for an unkeyed message: every block but the last with
      the bytes absorbed so far, the last one with the message length and the flag. */
  function Hash(core: Core, message: bytes, outLen: nat): (d: bytes)
    requires outLen <= 64
    ensures |d| == outLen
  {
    var last := Blocks(message) - 1;
    core.words(core.compress(
      Absorbed(core, core.initial(outLen), message, last), Chunk(message, last), |message|, true))[..outLen]
  }

  /** Bytes 128i to 128i + 127 of the message, zeros beyond its end. */
  function Padded(message: bytes, i: nat): bytes {
    seq(128, k requires 0 <= k < 128 => if 128 * i + k < |message| then message[128 * i + k] else 0)
  }

  /** The chaining values of one hash: as many compressions as the message has begun
      blocks, at least one, each over its block with the number of message bytes up to
      its end, and only the last one flagged. */
  predicate Chained(core: Core, message: bytes, outLen: nat, hs: seq<State>) {
    && |hs| >= 2 && hs[0] == core.initial(outLen)
    && (if message == [] then |hs| == 2 else 128 * (|hs| - 2) < |message| <= 128 * (|hs| - 1))
    && forall i :: 0 <= i < |hs| - 1 ==>
         hs[i + 1] == core.compress(
           hs[i], Padded(message, i), if i == |hs| - 2 then |message| else 128 * (i + 1), i == |hs| - 2)
  }

  /** `d` is the digest of `outLen` bytes of the message. */
  ghost predicate IsDigest(core: Core, message: bytes, outLen: nat, d: bytes) {
    exists hs :: Chained(core, message, outLen, hs) && |d| == outLen <= 64 && d == core.words(hs[|hs| - 1])[..outLen]
  }

  lemma HashIsDigest(core: Core, message: bytes, outLen: nat)
    requires outLen <= 64
    ensures IsDigest(core, message, outLen, Hash(core, message, outLen))
  {
    hide Chunk, Padded, Absorbed;
    var n := Blocks(message);
    var h0 := core.initial(outLen);
    var last := core.compress(Absorbed(core, h0, message, n - 1), Chunk(message, n - 1), |message|, true);
    var hs := seq(n + 1, i requires 0 <= i < n + 1 => if i < n then Absorbed(core, h0, message, i) else last);
    forall i | 0 <= i < n
      ensures hs[i + 1] == core.compress(
        hs[i], Padded(message, i), if i == n - 1 then |message| else 128 * (i + 1), i == n - 1)
    {
      ChunkIsPadded(message, i);
      Absorbs(core, h0, message, i);
    }
    Absorbs(core, h0, message, 0);
    assert Chained(core, message, outLen, hs);
  }

  lemma ChunkIsPadded(message: bytes, i: nat)
    requires i < Blocks(message)
    ensures Chunk(message, i) == Padded(message, i)
  {
  }

  /** The chain leaves one possible digest. */
  lemma DigestOnce(core: Core, message: bytes, outLen: nat, d: bytes, e: bytes)
    requires IsDigest(core, message, outLen, d) && IsDigest(core, message, outLen, e)
    ensures d == e
  {
    hide Padded;
    var x :| Chained(core, message, outLen, x) && d == core.words(x[|x| - 1])[..outLen];
    var y :| Chained(core, message, outLen, y) && e == core.words(y[|y| - 1])[..outLen];
    ChainOnce(core, message, outLen, x, y, |x| - 1);
  }

  lemma {:induction false} ChainOnce(core: Core, message: bytes, outLen: nat, x: seq<State>, y: seq<State>, i: nat)
    requires Chained(core, message, outLen, x) && Chained(core, message, outLen, y)
    ensures |x| == |y|
    ensures i < |x| ==> x[i] == y[i]
  {
    hide Padded;
    if 0 < i < |x| { ChainOnce(core, message, outLen, x, y, i - 1); }
  }

  /** What is left after `i` whole blocks: another whole block, or the last one. */
  lemma RestIsChunk(message: bytes, i: nat, rest: bytes)
    requires 128 * i <= |message| && rest == message[128 * i..] && (i > 0 ==> |rest| > 0)
    ensures i < Blocks(message)
    ensures |rest| > 128 ==> rest[..128] == Chunk(message, i)
    ensures |rest| <= 128 ==> i == Blocks(message) - 1 && rest + Zeros(128 - |rest|) == Chunk(message, i)
  {
    assert i < Blocks(message);
    if |rest| == 128 { assert rest + Zeros(0) == rest == message[128 * i..128 * i + 128]; }
  }

  lemma Absorbs(core: Core, h: State, message: bytes, i: nat)
    requires i < Blocks(message)
    ensures i == 0 ==> Absorbed(core, h, message, i) == h
    ensures i + 1 < Blocks(message) ==>
      Absorbed(core, h, message, i + 1) ==
      core.compress(Absorbed(core, h, message, i), Chunk(message, i), 128 * i + 128, false)
  {
  }

  lemma Ends(core: Core, message: bytes, outLen: nat, i: nat)
    requires outLen <= 64 && i == Blocks(message) - 1
    ensures IsDigest(core, message, outLen, Hash(core, message, outLen))
    ensures Hash(core, message, outLen) ==
      core.words(core.compress(Absorbed(core, core.initial(outLen), message, i), Chunk(message, i), |message|, true))[..outLen]
  {
    HashIsDigest(core, message, outLen);
  }

  /** The message is consumed 128 bytes at a time while more than 128 remain, so a
      full final block is compressed as the last one. None is the panic on an illegal
      digest length. */
  method Blake2bSum(core: Core, message: bytes, outLen: int) returns (out: Option<bytes>)
    ensures out == if 1 <= outLen <= 64 then Some(Hash(core, message, outLen)) else None
    ensures out.Some? ==> IsDigest(core, message, outLen, out.value)
  {
    hide *;
    if outLen < 1 || outLen > 64 {
      return None;
    }
    RestIsChunk(message, 0, message);
    var h := core.initial(outLen);
    Absorbs(core, h, message, 0);
    var counter := 0;
    var rest := message;
    ghost var i := 0;
    while |rest| > 128
      invariant 128 * i <= |message| && rest == message[128 * i..] && counter == 128 * i
      invariant i < Blocks(message)
      invariant h == Absorbed(core, core.initial(outLen), message, i)
      invariant i > 0 ==> |rest| > 0
      decreases |rest|
    {
      RestIsChunk(message, i, rest);
      RestIsChunk(message, i + 1, rest[128..]);
      Absorbs(core, core.initial(outLen), message, i);
      counter := counter + 128;
      h := core.compress(h, rest[..128], counter, false);
      rest := rest[128..];
      i := i + 1;
    }
    RestIsChunk(message, i, rest);
    var final := rest + Zeros(128 - |rest|);
    counter := counter + |rest|;
    h := core.compress(h, final, counter, true);
    Ends(core, message, outLen, i);
    return Some(core.words(h)[..outLen]);
  }

  // -------------------------------------------------------------- argonHPrime

  function LE32(n: nat): bytes {
    [n % 256, n / 256 % 256, n / 256 / 256 % 256, n / 256 / 256 / 256 % 256]
  }

  /** The number of half digests for an output longer than 64 bytes. */
  function Halves(outLen: nat): int { (outLen + 31) / 32 - 2 }

  /** V_i of section 3.3 of RFC 9106: repeated 64-byte digests. */
  function V(core: Core, input: bytes, outLen: nat, i: nat): (v: bytes)
    ensures |v| == 64
  {
    Hash(core, if i == 0 then LE32(outLen) + input else V(core, input, outLen, i - 1), 64)
  }

  /** The first halves of the first `n` digests. */
  function FirstHalves(core: Core, input: bytes, outLen: nat, n: nat): (w: bytes)
    ensures |w| == 32 * n
  {
    if n == 0 then [] else FirstHalves(core, input, outLen, n - 1) + V(core, input, outLen, n - 1)[..32]
  }

  /** H' of section 3.3 of RFC 9106. Its own result says the length: exactly `outLen`,
      and the tail beyond the half digests is 33 to 64 bytes, a legal digest length. */
  function HPrime(core: Core, input: bytes, outLen: nat): (out: bytes)
    requires outLen >= 1
    ensures |out| == outLen
    ensures outLen > 64 ==> Halves(outLen) >= 1 && 33 <= outLen - 32 * Halves(outLen) <= 64
  {
    if outLen <= 64 then Hash(core, LE32(outLen) + input, outLen)
    else
      var r := Halves(outLen);
      FirstHalves(core, input, outLen, r) + Hash(core, V(core, input, outLen, r - 1), outLen - 32 * r)
  }

  /** The output length as four bytes, least significant first. */
  predicate IsLength(b: bytes, outLen: nat) {
    && |b| == 4
    && b[0] as int + b[1] as int * 0x100 + b[2] as int * 0x1_0000 + b[3] as int * 0x100_0000 == outLen % 0x1_0000_0000
  }

  /** `vs` are the 64-byte digests: the first of the length and the input, every
      other one of the digest before it. */
  ghost predicate Digests(core: Core, input: bytes, outLen: nat, vs: seq<bytes>) {
    && vs != []
    && (exists b :: IsLength(b, outLen) && IsDigest(core, b + input, 64, vs[0]))
    && (forall i :: 0 <= i < |vs| - 1 ==> IsDigest(core, vs[i], 64, vs[i + 1]))
    && (forall i :: 0 <= i < |vs| ==> |vs[i]| == 64)
  }

  /** The first half of every digest, and a last digest for what is left, which is
      more than 32 and at most 64 bytes. */
  ghost predicate Assembled(core: Core, outLen: nat, vs: seq<bytes>, out: bytes)
    requires vs != [] && forall i :: 0 <= i < |vs| ==> |vs[i]| == 64
  {
    && |out| == outLen && 32 < outLen - 32 * |vs| <= 64
    && (forall k :: 0 <= k < 32 * |vs| ==> out[k] == vs[k / 32][k % 32])
    && IsDigest(core, vs[|vs| - 1], outLen - 32 * |vs|, out[32 * |vs|..])
  }

  lemma {:induction false} FirstHalvesAt(core: Core, input: bytes, outLen: nat, n: nat, k: nat)
    requires k < 32 * n
    ensures FirstHalves(core, input, outLen, n)[k] == V(core, input, outLen, k / 32)[k % 32]
  {
    if k < 32 * (n - 1) { FirstHalvesAt(core, input, outLen, n - 1, k); }
    else { assert k / 32 == n - 1; }
  }

  lemma LengthBytes(n: nat)
    ensures IsLength(LE32(n), n)
  {
    var a := n / 256;
    var b := a / 256;
    var c := b / 256;
    var low := n % 256 + a % 256 * 0x100 + b % 256 * 0x1_0000 + c % 256 * 0x100_0000;
    assert n == 256 * a + n % 256 && a == 256 * b + a % 256 && b == 256 * c + b % 256 && c == 256 * (c / 256) + c % 256;
    assert n == 0x1_0000_0000 * (c / 256) + low;
    LowPart(n, c / 256, low);
  }

  lemma LowPart(n: nat, high: nat, low: nat)
    requires n == 0x1_0000_0000 * high + low && low < 0x1_0000_0000
    ensures n % 0x1_0000_0000 == low
  {
  }

  lemma HPrimeAssembles(core: Core, input: bytes, outLen: nat) returns (vs: seq<bytes>)
    requires outLen > 64
    ensures Digests(core, input, outLen, vs) && Assembled(core, outLen, vs, HPrime(core, input, outLen))
  {
    hide IsDigest, Hash, IsLength, LE32;
    var r := Halves(outLen);
    var out := HPrime(core, input, outLen);
    vs := seq(r, i requires 0 <= i < r => V(core, input, outLen, i));
    LengthBytes(outLen);
    HashIsDigest(core, LE32(outLen) + input, 64);
    forall i | 0 <= i < r - 1 ensures IsDigest(core, vs[i], 64, vs[i + 1]) {
      HashIsDigest(core, vs[i], 64);
    }
    forall k | 0 <= k < 32 * r ensures out[k] == vs[k / 32][k % 32] {
      FirstHalvesAt(core, input, outLen, r, k);
    }
    HashIsDigest(core, vs[r - 1], outLen - 32 * r);
    assert out[32 * r..] == Hash(core, vs[r - 1], outLen - 32 * r);
  }

  /** The loop that keeps taking half digests while more than 64 bytes remain computes
      H', and never asks for an illegal digest length except when asked for zero bytes. */
  method ArgonHPrime(core: Core, input: bytes, outLen: nat) returns (out: Option<bytes>)
    ensures out == if outLen >= 1 then Some(HPrime(core, input, outLen)) else None
    ensures out.Some? && outLen <= 64 ==> exists b :: IsLength(b, outLen) && IsDigest(core, b + input, outLen, out.value)
    ensures out.Some? && outLen > 64 ==> exists vs :: Digests(core, input, outLen, vs) && Assembled(core, outLen, vs, out.value)
  {
    hide IsDigest, Digests, Assembled, IsLength;
    LengthBytes(outLen);
    var prefix := LE32(outLen) + input;
    if outLen <= 64 {
      out := Blake2bSum(core, prefix, outLen);
      return;
    }
    var first := Blake2bSum(core, prefix, 64);
    var value := first.value;
    var buffer := value[..32];
    var remaining := outLen - 32;
    ghost var n := 1;
    while remaining > 64
      invariant n >= 1 && value == V(core, input, outLen, n - 1)
      invariant buffer == FirstHalves(core, input, outLen, n)
      invariant remaining == outLen - 32 * n && remaining > 32
      decreases remaining
    {
      var next := Blake2bSum(core, value, 64);
      value := next.value;
      buffer := buffer + value[..32];
      remaining := remaining - 32;
      n := n + 1;
    }
    assert n == Halves(outLen);
    var tail := Blake2bSum(core, value, remaining);
    ghost var vs := HPrimeAssembles(core, input, outLen);
    return Some(buffer + tail.value);
  }
}
