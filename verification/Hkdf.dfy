/**
 * HKDF as in sections 2.2 and 2.3 of RFC 5869 over HMAC as in section 2 of
 * RFC 2104, for any hash with 64-byte blocks and 32-byte digests.
 */
module Hkdf {
  import opened Bytes

  const HASH_LEN := 32
  const BLOCK_LEN := 64
  const OKM_MAX := 255 * HASH_LEN

  type Digest = s: seq<byte> | |s| == HASH_LEN witness Zeros(HASH_LEN)
  type Hash = seq<byte> -> Digest

  /* ---- The definitions of the two RFCs ---- */

  /** The key padded (or hashed, then padded) to one block. */
  function BlockKey(h: Hash, key: seq<byte>): (r: seq<byte>)
    ensures |r| == BLOCK_LEN
  {
    if |key| > BLOCK_LEN then h(key) + Zeros(BLOCK_LEN - HASH_LEN) else key + Zeros(BLOCK_LEN - |key|)
  }

  function Pad(b: byte): (r: seq<byte>)
    ensures |r| == BLOCK_LEN
  {
    seq<byte>(BLOCK_LEN, _ => b)
  }

  function Hmac(h: Hash, key: seq<byte>, message: seq<byte>): Digest {
    var k := BlockKey(h, key);
    h(XorSeq(k, Pad(0x5C)) + h(XorSeq(k, Pad(0x36)) + message))
  }

  function Extract(h: Hash, salt: seq<byte>, ikm: seq<byte>): Digest {
    Hmac(h, if salt == [] then Zeros(HASH_LEN) else salt, ikm)
  }

  /** T(i) of section 2.3; T(0) is empty. */
  function T(h: Hash, prk: seq<byte>, info: seq<byte>, i: nat): (r: seq<byte>)
    requires i <= 255
    ensures |r| == if i == 0 then 0 else HASH_LEN
  {
    if i == 0 then [] else Hmac(h, prk, T(h, prk, info, i - 1) + info + [i])
  }

  /** T(1) | T(2) | ... | T(n). */
  function Blocks(h: Hash, prk: seq<byte>, info: seq<byte>, n: nat): (r: seq<byte>)
    requires n <= 255
    ensures |r| == n * HASH_LEN
  {
    if n == 0 then [] else Blocks(h, prk, info, n - 1) + T(h, prk, info, n)
  }

  /** N = ceil(L / HashLen). */
  function BlockCount(length: nat): nat { (length + HASH_LEN - 1) / HASH_LEN }

  function Expand(h: Hash, prk: seq<byte>, info: seq<byte>, length: nat): (r: seq<byte>)
    requires length <= OKM_MAX
    ensures |r| == length
  {
    Blocks(h, prk, info, BlockCount(length))[..length]
  }

  /** A shorter output is a prefix of a longer one: the key stream is one stream. */
  lemma {:induction false} BlocksExtend(h: Hash, prk: seq<byte>, info: seq<byte>, m: nat, n: nat)
    requires m <= n <= 255
    ensures Blocks(h, prk, info, m) <= Blocks(h, prk, info, n)
  {
    if m < n {
      BlocksExtend(h, prk, info, m, n - 1);
    }
  }

  lemma ExpandIsPrefix(h: Hash, prk: seq<byte>, info: seq<byte>, short: nat, long: nat)
    requires short <= long <= OKM_MAX
    ensures Expand(h, prk, info, short) <= Expand(h, prk, info, long)
  {
    BlocksExtend(h, prk, info, BlockCount(short), BlockCount(long));
  }

  /* ---- The implementation ---- */

  method BlockKeyInto(h: Hash, key: seq<byte>) returns (k0: array<byte>)
    ensures fresh(k0) && k0[..] == BlockKey(h, key)
  {
    k0 := new byte[BLOCK_LEN](_ => 0);
    if |key| > BLOCK_LEN {
      CopyTo(h(key), k0, 0);
      assert k0[..] == k0[0..HASH_LEN] + k0[HASH_LEN..];
    } else {
      CopyTo(key, k0, 0);
      assert k0[..] == k0[0..|key|] + k0[|key|..];
    }
  }

  method Pads(k0: array<byte>) returns (ipad: array<byte>, opad: array<byte>)
    requires k0.Length == BLOCK_LEN
    ensures fresh(ipad) && ipad[..] == XorSeq(k0[..], Pad(0x36))
    ensures fresh(opad) && opad[..] == XorSeq(k0[..], Pad(0x5C))
  {
    ipad, opad := new byte[BLOCK_LEN], new byte[BLOCK_LEN];
    for i := 0 to BLOCK_LEN
      invariant forall j :: 0 <= j < i ==> ipad[j] == Xor(k0[j], 0x36) && opad[j] == Xor(k0[j], 0x5C)
    {
      ipad[i] := Xor(k0[i], 0x36);
      opad[i] := Xor(k0[i], 0x5C);
    }
  }

  /**
   * HMAC over three message parts. The first is read out of a buffer that may
   * be the output buffer itself; it is absorbed before the output is written.
   */
  method HmacInto(h: Hash, key: seq<byte>, a: array<byte>, aLen: nat, b: seq<byte>, c: seq<byte>, mac: array<byte>)
    requires aLen <= a.Length && mac.Length == HASH_LEN
    modifies mac
    ensures mac[..] == Hmac(h, key, old(a[..aLen]) + b + c)
  {
    var k0 := BlockKeyInto(h, key);
    var ipad, opad := Pads(k0);
    var absorbed := ipad[..];
    absorbed := absorbed + a[..aLen];
    absorbed := absorbed + b;
    absorbed := absorbed + c;
    assert absorbed == ipad[..] + (a[..aLen] + b + c);
    var inner := h(absorbed);
    CopyTo(h(opad[..] + inner), mac, 0);
    assert mac[..] == mac[0..HASH_LEN];
  }

  /** What copying `take` bytes of block i behind the first i - 1 blocks yields. */
  lemma NextBlock(h: Hash, prk: seq<byte>, info: seq<byte>, i: nat, take: nat)
    requires 0 < i <= 255 && take <= HASH_LEN
    ensures Blocks(h, prk, info, i)[..(i - 1) * HASH_LEN + take]
         == Blocks(h, prk, info, i - 1) + T(h, prk, info, i)[..take]
  {
  }

  /**
   * The derivation loop. Refused arguments leave `okm` alone; otherwise `okm`
   * is filled with exactly the RFC's output. The block counter is one octet;
   * that it never leaves 1..255 is part of the proof.
   */
  method HkdfInto(h: Hash, ikm: seq<byte>, salt: seq<byte>, info: seq<byte>, okm: array<byte>) returns (ok: bool)
    modifies okm
    ensures ok <==> ikm != [] && 0 < okm.Length <= OKM_MAX
    ensures ok ==> okm[..] == Expand(h, Extract(h, salt, ikm), info, okm.Length)
    ensures !ok ==> okm[..] == old(okm[..])
  {
    if ikm == [] || okm.Length == 0 || okm.Length > OKM_MAX {
      return false;
    }
    var effectiveSalt := if salt == [] then Zeros(HASH_LEN) else salt;
    var prk, t := new byte[HASH_LEN], new byte[HASH_LEN];
    HmacInto(h, effectiveSalt, t, 0, ikm, [], prk);
    assert t[..0] + ikm + [] == ikm;
    var key := prk[..];
    assert key == Extract(h, salt, ikm);
    ExpandInto(h, key, info, t, okm);
    return true;
  }

  /** One round: block `counter` replaces block `counter - 1` in `t` and is appended to `okm`. */
  method ExpandRound(h: Hash, prk: seq<byte>, info: seq<byte>, counter: byte, t: array<byte>, tLen: nat,
                     okm: array<byte>, produced: nat) returns (take: nat)
    requires counter > 0 && t.Length == HASH_LEN && t != okm
    requires tLen == (if counter == 1 then 0 else HASH_LEN) && t[..tLen] == T(h, prk, info, counter - 1)
    requires produced == (counter - 1) * HASH_LEN < okm.Length
    requires okm[..produced] == Blocks(h, prk, info, counter - 1)
    modifies okm, t
    ensures t[..] == T(h, prk, info, counter)
    ensures take == if okm.Length - produced > HASH_LEN then HASH_LEN else okm.Length - produced
    ensures okm[..produced + take] == Blocks(h, prk, info, counter)[..produced + take]
  {
    HmacInto(h, prk, t, tLen, info, [counter], t);
    take := okm.Length - produced;
    if take > HASH_LEN {
      take := HASH_LEN;
    }
    NextBlock(h, prk, info, counter, take);
    CopyTo(t[..take], okm, produced);
    assert okm[..produced + take] == okm[..produced] + okm[produced..produced + take];
  }

  method ExpandInto(h: Hash, prk: seq<byte>, info: seq<byte>, t: array<byte>, okm: array<byte>)
    requires 0 < okm.Length <= OKM_MAX && t.Length == HASH_LEN && t != okm
    modifies okm, t
    ensures okm[..] == Expand(h, prk, info, okm.Length)
  {
    var produced, counter, tLen := 0, 0, 0;
    while produced < okm.Length
      invariant 0 <= counter <= 255
      invariant produced == if counter * HASH_LEN < okm.Length then counter * HASH_LEN else okm.Length
      invariant counter == BlockCount(produced)
      invariant tLen == if counter == 0 then 0 else HASH_LEN
      invariant t[..tLen] == T(h, prk, info, counter)
      invariant okm[..produced] == Blocks(h, prk, info, counter)[..produced]
      decreases okm.Length - produced
    {
      counter := (counter + 1) % 0x100;
      var take := ExpandRound(h, prk, info, counter, t, tLen, okm, produced);
      produced := produced + take;
      tLen := HASH_LEN;
      assert t[..tLen] == t[..];
    }
    assert okm[..] == okm[..okm.Length];
  }
}
