/**
 * The signature layer: Ed25519 reduced to a key derivation, a signer and a
 * verifier, and the two byte layouts that are signed.
 */
module Asym {
  import opened Bytes

  const PUBKEY_SIZE := 32
  const SIG_SIZE := 64
  const SEED_SIZE := 32
  const RPK_NONCE_LEN := 16
  const RPK_VALUE_MAX := 16
  const RPK_BODY_MAX := 64
  const TRANSCRIPT_OVERHEAD := 15
  const SIG_ALG_ED25519: byte := 0x30

  const RD_PKINSTALL_ACK: byte := 0x02
  const RD_GENERIC_WRITE: byte := 0x04
  const RD_GENERIC_READ: byte := 0x05
  const RD_VOUCHER: byte := 0x06
  const RD_FUNCTION_CMD: byte := 0x09

  /** "CiA-720-V0.0" */
  const DOMAIN: seq<byte> := [0x43, 0x69, 0x41, 0x2D, 0x37, 0x32, 0x30, 0x2D, 0x56, 0x30, 0x2E, 0x30]

  type Seed = s: seq<byte> | |s| == SEED_SIZE witness Zeros(SEED_SIZE)
  type PubKey = s: seq<byte> | |s| == PUBKEY_SIZE witness Zeros(PUBKEY_SIZE)
  type Sig = s: seq<byte> | |s| == SIG_SIZE witness Zeros(SIG_SIZE)
  type Rand16 = s: seq<byte> | |s| == RPK_NONCE_LEN witness Zeros(RPK_NONCE_LEN)

  datatype Scheme = Scheme(public: Seed -> PubKey, sign: (Seed, seq<byte>) -> Sig,
                           verify: (PubKey, seq<byte>, Sig) -> bool)

  /** What the scheme is for: a signature verifies under the signer's public key. */
  ghost predicate Correct(s: Scheme) {
    forall seed, m :: s.verify(s.public(seed), m, s.sign(seed, m))
  }

  /** One signature that verifies for two different messages: what a forger would have to find. */
  ghost predicate Clash(s: Scheme, pub: PubKey, m: seq<byte>, n: seq<byte>, sig: Sig) {
    m != n && s.verify(pub, m, sig) && s.verify(pub, n, sig)
  }

  /* ---- Transcript: domain, 00h, algorithm, role, body ---- */

  function Transcript(role: byte, body: seq<byte>): seq<byte> {
    DOMAIN + [0x00, SIG_ALG_ED25519, role] + body
  }

  lemma TranscriptInjective(role: byte, body: seq<byte>, role': byte, body': seq<byte>)
    ensures Transcript(role, body) == Transcript(role', body') <==> role == role' && body == body'
  {
    var t, t' := Transcript(role, body), Transcript(role', body');
    assert t[14] == role && t[15..] == body && t'[14] == role' && t'[15..] == body';
  }

  /** Writes the transcript, or reports 0 when the output is too small. */
  method TranscriptInto(role: byte, body: seq<byte>, out: array<byte>) returns (n: nat)
    requires |body| <= 0xFFF0
    modifies out
    ensures if TRANSCRIPT_OVERHEAD + |body| <= out.Length
            then n == TRANSCRIPT_OVERHEAD + |body| && out[..n] == Transcript(role, body)
            else n == 0 && out[..] == old(out[..])
  {
    var total := TRANSCRIPT_OVERHEAD + |body|;
    if out.Length < total {
      return 0;
    }
    assert out[..0] == [];
    AppendTo(DOMAIN, out, 0);
    var o := |DOMAIN|;
    AppendTo([0x00, SIG_ALG_ED25519, role], out, o);
    o := o + 3;
    AppendTo(body, out, o);
    return total;
  }

  /* ---- Signed-access body ---- */

  /** Who signs what for whom. */
  datatype Access = Access(server: u16, client: u16, mux: u32, clientNonce: Rand16, serverNonce: Rand16, value: seq<byte>)

  function SignedBody(a: Access): (r: seq<byte>)
    requires |a.value| <= RPK_VALUE_MAX
    ensures |r| == 42 + |a.value| <= RPK_BODY_MAX
  {
    Le16(a.server) + Le16(a.client) + Le32(a.mux) + Le16(|a.value|) + a.clientNonce + a.serverNonce + a.value
  }

  /** Every field can be read back, so two accesses with one body are one access. */
  lemma SignedBodyInjective(a: Access, b: Access)
    requires |a.value| <= RPK_VALUE_MAX && |b.value| <= RPK_VALUE_MAX
    requires SignedBody(a) == SignedBody(b)
    ensures a == b
  {
    var x, y := SignedBody(a), SignedBody(b);
    assert x[..2] == Le16(a.server) && y[..2] == Le16(b.server);
    assert x[2..4] == Le16(a.client) && y[2..4] == Le16(b.client);
    assert x[4..8] == Le32(a.mux) && y[4..8] == Le32(b.mux);
    assert x[10..26] == a.clientNonce && y[10..26] == b.clientNonce;
    assert x[26..42] == a.serverNonce && y[26..42] == b.serverNonce;
    assert x[42..] == a.value && y[42..] == b.value;
    Le16RoundTrip(a.server);
    Le16RoundTrip(b.server);
    Le16RoundTrip(a.client);
    Le16RoundTrip(b.client);
    Le32RoundTrip(a.mux);
    Le32RoundTrip(b.mux);
  }

  /** Fills the body behind a moving offset. */
  method BuildSignedBody(a: Access, body: array<byte>) returns (o: nat)
    requires |a.value| <= RPK_VALUE_MAX && body.Length == RPK_BODY_MAX
    modifies body
    ensures o <= body.Length && body[..o] == SignedBody(a)
  {
    assert body[..0] == [];
    AppendTo(Le16(a.server), body, 0);
    o := 2;
    AppendTo(Le16(a.client), body, o);
    o := o + 2;
    AppendTo(Le32(a.mux), body, o);
    o := o + 4;
    AppendTo(Le16(|a.value|), body, o);
    o := o + 2;
    AppendTo(a.clientNonce, body, o);
    o := o + RPK_NONCE_LEN;
    AppendTo(a.serverNonce, body, o);
    o := o + RPK_NONCE_LEN;
    AppendTo(a.value, body, o);
    o := o + |a.value|;
  }

  /** The message a signed access signs. */
  function AccessTranscript(role: byte, a: Access): seq<byte>
    requires |a.value| <= RPK_VALUE_MAX
  {
    Transcript(role, SignedBody(a))
  }

  lemma AccessTranscriptInjective(role: byte, a: Access, role': byte, b: Access)
    requires |a.value| <= RPK_VALUE_MAX && |b.value| <= RPK_VALUE_MAX
    ensures AccessTranscript(role, a) == AccessTranscript(role', b) <==> role == role' && a == b
  {
    TranscriptInjective(role, SignedBody(a), role', SignedBody(b));
    if SignedBody(a) == SignedBody(b) {
      SignedBodyInjective(a, b);
    }
  }
}
