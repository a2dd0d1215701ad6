/**
 * The AEAD layer: AES-128-GCM reduced to what its callers rely on (a counter
 * mode keystream and a tag over key, nonce, AAD and text, both arbitrary
 * functions), the AAD layout, and seal / open in both modes.
 */
module Aead {
  import opened Bytes

  const KEY_SIZE := 16
  const NONCE_SIZE := 12
  const TAG_SIZE := 16
  const RAND_SIZE := 12
  const MAX_PROTECTED := 32
  const AAD_MAX := 12 + 2 * RAND_SIZE + MAX_PROTECTED
  const KEY_USE_LIMIT := 1_000_000

  const DIR_READ_RESPONSE: byte := 0x02
  const DIR_WRITE_REQUEST: byte := 0x04
  const DIR_READ_POLL_RESPONSE: byte := 0x06
  const DIR_WRITE_POLL_REQUEST: byte := 0x07

  type Key = s: seq<byte> | |s| == KEY_SIZE witness Zeros(KEY_SIZE)
  type Nonce = s: seq<byte> | |s| == NONCE_SIZE witness Zeros(NONCE_SIZE)
  type Tag = s: seq<byte> | |s| == TAG_SIZE witness Zeros(TAG_SIZE)

  /** Everything one GCM tag is computed over. */
  datatype Query = Query(key: Key, nonce: Nonce, aad: seq<byte>, text: seq<byte>)

  /** Any keystream and any tag function; AES-GCM is one instance. */
  datatype Gcm = Gcm(keystream: (Key, Nonce, nat) -> byte, tag: Query -> Tag)

  /** Two different queries with one tag: what a forger would have to find. */
  ghost predicate Collide(g: Gcm, q: Query, r: Query) {
    q != r && g.tag(q) == g.tag(r)
  }

  /* ---- The wire key_id byte: encrypt, cyclic-arm, 2 reserved bits, base id ---- */

  predicate IsEncrypt(kid: byte) { kid >= 0x80 }

  predicate IsCyclic(kid: byte) { kid / 0x40 % 2 == 1 }

  function ReservedBits(kid: byte): byte { kid / 0x10 % 4 }

  function BaseId(kid: byte): byte { kid % 0x10 }

  /** The key_id with bit 6 forced on. */
  function ArmId(kid: byte): byte { if IsCyclic(kid) then kid else kid + 0x40 }

  function Mechanism(kid: byte): byte { if IsEncrypt(kid) then 0x81 else 0x01 }

  /* ---- AAD ---- */

  datatype Context = Context(direction: byte, keyId: byte, serverDev: u16, clientDev: u16, dataId: u32)
  datatype Randoms = Randoms(client: Nonce, server: Nonce)

  predicate TakesRandoms(direction: byte) {
    direction == DIR_READ_RESPONSE || direction == DIR_WRITE_REQUEST
  }

  function Tail(direction: byte, randoms: Option<Randoms>): seq<byte> {
    if TakesRandoms(direction) && randoms.Some? then randoms.value.client + randoms.value.server else []
  }

  function Prefix(ctx: Context, dataLen: u16): (r: seq<byte>)
    ensures |r| == 12
  {
    [0x01, Mechanism(ctx.keyId), ctx.direction, ctx.keyId, ctx.serverDev % 0x100, ctx.clientDev % 0x100]
    + Le32(ctx.dataId) + Le16(dataLen)
  }

  function Aad(ctx: Context, randoms: Option<Randoms>, data: seq<byte>): seq<byte>
    requires |data| <= MAX_PROTECTED
  {
    Prefix(ctx, |data|) + Tail(ctx.direction, randoms) + data
  }

  /** The context fields as far as one-byte device ids can tell them apart. */
  predicate SameContext(a: Context, b: Context) {
    && a.direction == b.direction && a.keyId == b.keyId && a.dataId == b.dataId
    && a.serverDev % 0x100 == b.serverDev % 0x100
    && a.clientDev % 0x100 == b.clientDev % 0x100
  }

  lemma PrefixInjective(a: Context, b: Context, m: u16, n: u16)
    requires Prefix(a, m) == Prefix(b, n)
    ensures SameContext(a, b) && m == n
  {
    var p, q := Prefix(a, m), Prefix(b, n);
    assert p[6..10] == Le32(a.dataId) && q[6..10] == Le32(b.dataId);
    assert p[10..12] == Le16(m) && q[10..12] == Le16(n);
    Le32RoundTrip(a.dataId);
    Le32RoundTrip(b.dataId);
    Le16RoundTrip(m);
    Le16RoundTrip(n);
    assert p[2] == q[2] && p[3] == q[3] && p[4] == q[4] && p[5] == q[5];
  }

  /** Two AADs are equal exactly when every bound field, the tail and the data are. */
  lemma AadInjective(a: Context, ra: Option<Randoms>, da: seq<byte>,
                     b: Context, rb: Option<Randoms>, db: seq<byte>)
    requires |da| <= MAX_PROTECTED && |db| <= MAX_PROTECTED
    ensures Aad(a, ra, da) == Aad(b, rb, db)
       <==> SameContext(a, b) && Tail(a.direction, ra) == Tail(b.direction, rb) && da == db
  {
    var x, y := Aad(a, ra, da), Aad(b, rb, db);
    var ta, tb := Tail(a.direction, ra), Tail(b.direction, rb);
    assert x[..12] == Prefix(a, |da|) && y[..12] == Prefix(b, |db|);
    if x == y {
      PrefixInjective(a, b, |da|, |db|);
      assert |ta| == |tb|;
      assert x[12..12 + |ta|] == ta && y[12..12 + |tb|] == tb;
      assert x[12 + |ta|..] == da && y[12 + |tb|..] == db;
    }
  }

  /* ---- Nonces ---- */

  /** Nonce of poll `counter`: the base with the big-endian counter xored into its low 32 bits. */
  function SessionNonce(base: Nonce, counter: u32): Nonce {
    base[..8] + XorSeq(base[8..], Be32(counter))
  }

  lemma SessionNonceInjective(base: Nonce, c: u32, d: u32)
    requires SessionNonce(base, c) == SessionNonce(base, d)
    ensures c == d
  {
    assert SessionNonce(base, c)[8..] == XorSeq(base[8..], Be32(c));
    assert SessionNonce(base, d)[8..] == XorSeq(base[8..], Be32(d));
    XorSeqInjective(base[8..], Be32(c), Be32(d));
    Be32Injective(c, d);
  }

  /** The arming nonce is the session nonce of counter 0. */
  lemma SessionNonceZero(base: Nonce)
    ensures SessionNonce(base, 0) == base
  {
    var low := base[8..];
    forall i | 0 <= i < 4 ensures XorSeq(low, Be32(0))[i] == low[i] {
      XorZero(low[i]);
    }
    assert XorSeq(low, Be32(0)) == low;
  }

  /* ---- Seal and open ---- */

  function Keystream(g: Gcm, key: Key, nonce: Nonce, n: nat): (r: seq<byte>)
    ensures |r| == n
  {
    seq<byte>(n, i requires 0 <= i < n => g.keystream(key, nonce, i))
  }

  /** Counter mode: the text is xored with the keystream, so it inverts itself. */
  function Crypt(g: Gcm, key: Key, nonce: Nonce, text: seq<byte>): (r: seq<byte>)
    ensures |r| == |text|
  {
    XorSeq(text, Keystream(g, key, nonce, |text|))
  }

  lemma CryptInvertsItself(g: Gcm, key: Key, nonce: Nonce, text: seq<byte>)
    ensures Crypt(g, key, nonce, Crypt(g, key, nonce, text)) == text
  {
    XorSeqCancels(text, Keystream(g, key, nonce, |text|));
  }

  /** Encrypting, the text goes through GCM; authenticating only, it ends the AAD. */
  function QueryFor(key: Key, nonce: Nonce, ctx: Context, randoms: Option<Randoms>, text: seq<byte>): Query
    requires |text| <= MAX_PROTECTED
  {
    if IsEncrypt(ctx.keyId)
    then Query(key, nonce, Aad(ctx, randoms, []), text)
    else Query(key, nonce, Aad(ctx, randoms, text), [])
  }

  lemma QueryBinds(k: Key, n: Nonce, a: Context, ra: Option<Randoms>, s: seq<byte>,
                   l: Key, m: Nonce, b: Context, rb: Option<Randoms>, t: seq<byte>)
    requires |s| <= MAX_PROTECTED && |t| <= MAX_PROTECTED
    ensures QueryFor(k, n, a, ra, s) == QueryFor(l, m, b, rb, t)
       <==> k == l && n == m && SameContext(a, b) && Tail(a.direction, ra) == Tail(b.direction, rb) && s == t
  {
    AadInjective(a, ra, [], b, rb, []);
    AadInjective(a, ra, s, b, rb, t);
    AadInjective(a, ra, [], b, rb, t);
    AadInjective(a, ra, s, b, rb, []);
  }

  datatype Sealed = Sealed(text: seq<byte>, tag: Tag)

  function Seal(g: Gcm, key: Key, nonce: Nonce, ctx: Context, randoms: Option<Randoms>,
                plain: seq<byte>): (r: Option<Sealed>)
    ensures r.Some? <==> |plain| <= MAX_PROTECTED
    ensures r.Some? ==> |r.value.text| == |plain|
  {
    if |plain| > MAX_PROTECTED then None
    else
      var text := if IsEncrypt(ctx.keyId) then Crypt(g, key, nonce, plain) else plain;
      Some(Sealed(text, g.tag(QueryFor(key, nonce, ctx, randoms, text))))
  }

  function Open(g: Gcm, key: Key, nonce: Nonce, ctx: Context, randoms: Option<Randoms>,
                text: seq<byte>, tag: Tag): (r: Option<seq<byte>>)
    ensures r.Some? ==> |r.value| == |text| <= MAX_PROTECTED
  {
    if |text| > MAX_PROTECTED || g.tag(QueryFor(key, nonce, ctx, randoms, text)) != tag then None
    else Some(if IsEncrypt(ctx.keyId) then Crypt(g, key, nonce, text) else text)
  }

  /** In both modes, opening under the sealing parameters returns the plaintext. */
  lemma OpenInvertsSeal(g: Gcm, key: Key, nonce: Nonce, ctx: Context, randoms: Option<Randoms>, plain: seq<byte>)
    requires |plain| <= MAX_PROTECTED
    ensures var s := Seal(g, key, nonce, ctx, randoms, plain).value;
            Open(g, key, nonce, ctx, randoms, s.text, s.tag) == Some(plain)
  {
    CryptInvertsItself(g, key, nonce, plain);
  }

  /**
   * A sealed frame opens under other parameters, or with another text, only by
   * a tag collision: key, nonce, direction, key_id, both ids, data_id, randoms
   * and text are all bound.
   */
  lemma OpenBindsEveryField(g: Gcm, key: Key, nonce: Nonce, ctx: Context, randoms: Option<Randoms>, plain: seq<byte>,
                            key': Key, nonce': Nonce, ctx': Context, randoms': Option<Randoms>, text': seq<byte>)
    requires |plain| <= MAX_PROTECTED
    ensures var s := Seal(g, key, nonce, ctx, randoms, plain).value;
            var r := Open(g, key', nonce', ctx', randoms', text', s.tag);
            && (r.Some? ==>
                || (&& key == key' && nonce == nonce' && SameContext(ctx, ctx') && s.text == text'
                    && Tail(ctx.direction, randoms) == Tail(ctx'.direction, randoms') && r.value == plain)
                || Collide(g, QueryFor(key, nonce, ctx, randoms, s.text),
                           QueryFor(key', nonce', ctx', randoms', text')))
  {
    var s := Seal(g, key, nonce, ctx, randoms, plain).value;
    if |text'| <= MAX_PROTECTED {
      QueryBinds(key, nonce, ctx, randoms, s.text, key', nonce', ctx', randoms', text');
      OpenInvertsSeal(g, key, nonce, ctx, randoms, plain);
    }
  }

  /* ---- The buffer-filling routines ---- */

  /** Writes the AAD behind a moving offset; 68 bytes are always enough. */
  method AadBuild(ctx: Context, randoms: Option<Randoms>, data: seq<byte>, aad: array<byte>) returns (p: nat)
    requires aad.Length == AAD_MAX && |data| <= MAX_PROTECTED
    modifies aad
    ensures p <= aad.Length && aad[..p] == Aad(ctx, randoms, data)
  {
    aad[0], aad[1], aad[2], aad[3] := 0x01, Mechanism(ctx.keyId), ctx.direction, ctx.keyId;
    aad[4], aad[5] := ctx.serverDev % 0x100, ctx.clientDev % 0x100;
    p := 6;
    assert aad[..p] == Prefix(ctx, |data|)[..6];
    CopyTo(Le32(ctx.dataId), aad, p);
    p := p + 4;
    assert aad[..p] == aad[..6] + aad[6..10] == Prefix(ctx, |data|)[..10];
    CopyTo(Le16(|data|), aad, p);
    p := p + 2;
    assert aad[..p] == aad[..10] + aad[10..12];
    assert aad[..p] == Prefix(ctx, |data|);
    if TakesRandoms(ctx.direction) && randoms.Some? {
      CopyTo(randoms.value.client, aad, p);
      p := p + RAND_SIZE;
      assert aad[..p] == aad[..12] + aad[12..24] == Prefix(ctx, |data|) + randoms.value.client;
      CopyTo(randoms.value.server, aad, p);
      p := p + RAND_SIZE;
      assert aad[..p] == aad[..24] + aad[24..36];
    }
    assert aad[..p] == Prefix(ctx, |data|) + Tail(ctx.direction, randoms);
    ghost var head := aad[..p];
    CopyTo(data, aad, p);
    p := p + |data|;
    assert aad[..p] == head + data;
  }

  /** The nonce loop; `out` may be either input. */
  method XorNonce(client: array<byte>, server: array<byte>, out: array<byte>)
    requires client.Length == server.Length == out.Length == NONCE_SIZE
    modifies out
    ensures out[..] == XorSeq(old(client[..]), old(server[..]))
  {
    var i := 0;
    while i < NONCE_SIZE
      invariant 0 <= i <= NONCE_SIZE
      invariant forall j :: 0 <= j < i ==> out[j] == Xor(old(client[j]), old(server[j]))
      invariant forall j :: i <= j < NONCE_SIZE ==> client[j] == old(client[j]) && server[j] == old(server[j])
    {
      out[i] := Xor(client[i], server[i]);
      i := i + 1;
    }
  }

  method SealInto(g: Gcm, key: Key, nonce: Nonce, ctx: Context, randoms: Option<Randoms>, plain: seq<byte>,
                  cipherOut: array<byte>, tagOut: array<byte>) returns (ok: bool)
    requires cipherOut.Length >= |plain| && tagOut.Length == TAG_SIZE && cipherOut != tagOut
    modifies cipherOut, tagOut
    ensures ok <==> |plain| <= MAX_PROTECTED
    ensures ok ==> Seal(g, key, nonce, ctx, randoms, plain) == Some(Sealed(cipherOut[..|plain|], tagOut[..]))
  {
    if |plain| > MAX_PROTECTED {
      return false;
    }
    var aad := new byte[AAD_MAX];
    if IsEncrypt(ctx.keyId) {
      var n := AadBuild(ctx, randoms, [], aad);
      var text := Crypt(g, key, nonce, plain);
      CopyTo(text, cipherOut, 0);
      CopyTo(g.tag(Query(key, nonce, aad[..n], text)), tagOut, 0);
      assert cipherOut[..|plain|] == text;
    } else {
      var n := AadBuild(ctx, randoms, plain, aad);
      CopyTo(g.tag(Query(key, nonce, aad[..n], [])), tagOut, 0);
      CopyTo(plain, cipherOut, 0);
      assert cipherOut[..|plain|] == plain;
    }
    assert tagOut[..] == tagOut[0..TAG_SIZE];
    return true;
  }

  /**
   * On a wrong tag the encrypting mode has already written and wiped as many
   * bytes as the text is long; authenticating only, the buffer is untouched.
   */
  method OpenInto(g: Gcm, key: Key, nonce: Nonce, ctx: Context, randoms: Option<Randoms>, text: seq<byte>, tag: Tag,
                  plainOut: array<byte>) returns (ok: bool)
    requires plainOut.Length >= |text|
    modifies plainOut
    ensures Open(g, key, nonce, ctx, randoms, text, tag) == if ok then Some(plainOut[..|text|]) else None
    ensures !ok ==>
              plainOut[..|text|] == (if IsEncrypt(ctx.keyId) && |text| <= MAX_PROTECTED then Zeros(|text|) else old(plainOut[..|text|]))
    ensures plainOut[|text|..] == old(plainOut[|text|..])
  {
    if |text| > MAX_PROTECTED {
      return false;
    }
    var aad := new byte[AAD_MAX];
    if IsEncrypt(ctx.keyId) {
      var n := AadBuild(ctx, randoms, [], aad);
      var plain := Crypt(g, key, nonce, text);
      AppendTo(plain, plainOut, 0);
      assert plainOut[..|text|] == plain;
      if g.tag(Query(key, nonce, aad[..n], text)) != tag {
        AppendTo(Zeros(|text|), plainOut, 0);
        assert plainOut[..|text|] == Zeros(|text|);
        return false;
      }
    } else {
      var n := AadBuild(ctx, randoms, text, aad);
      if g.tag(Query(key, nonce, aad[..n], [])) != tag {
        return false;
      }
      AppendTo(text, plainOut, 0);
      assert plainOut[..|text|] == text;
    }
    return true;
  }
}
