/**
 * Client and server composed: exactly when a single-shot or armed access and
 * a poll succeed, what they then deliver, and whole runs of polls.
 */
module Tunnel {
  import opened Bytes
  import opened Aborts
  import opened Aead
  import opened Channel
  import opened SecureOd
  import opened SecureProto

  predicate At<A>(d: Sod<A>, i: nat, dataId: u32) {
    i < |d.entries| && FindIndex(d.entries, dataId) == i
  }

  predicate HoldsKey(keys: KeyStore, base: byte, key: Key) { base in keys && keys[base].key == key }

  /** The two sides name the same server as far as one-byte device ids go. */
  predicate SameServer<A>(p: Port<A>, call: Call) { p.deviceId % 0x100 == call.device % 0x100 }

  predicate ReadHookOk<A>(p: Port<A>, app: A, e: Entry) {
    var h := p.readBefore(app, e.dataId);
    h.abort == NO_ABORT && |h.plain| == e.dataLen
  }

  predicate WriteHookOk<A>(p: Port<A>, app: A, keys: KeyStore, kid: byte, e: Entry, plain: seq<byte>) {
    p.writeAfter(app, keys, kid, e.dataId, plain).abort == NO_ABORT
  }

  /* ---- Single-shot and armed reads ---- */

  function PassOneRequest(call: Call, random: Nonce, env: Env): Request {
    Request(call.client, [call.keyId] + random, env.now, env.random, REPLY_MAX)
  }

  /** Pass 1 reaches the read handler of an entry that has one, and no other answer looks like success. */
  lemma ChallengeReaches<A>(p: Port<A>, d: Sod<A>, i: nat, call: Call, random: Nonce, env: Env)
    requires d.Valid() && At(d, i, call.dataId) && env.fate == Delivered
    ensures var q := PassOneRequest(call, random, env);
            var r := Exchange(p, d, call.client, call.dataId, q.body, env);
            var a := ArmRead(p, d.entries[i], d.readSlots[i], d.app, d.keys, q);
            && (WriteAnswer(r.reply) == SecOk <==> d.entries[i].secureRo && a.reply.Deferred?)
            && (d.entries[i].secureRo ==>
                  r == Round(d.(readSlots := d.readSlots[i := a.slot], app := a.app), Some(a.reply), None))
  {
    hide ArmRead, ReadPoll, WritePoll, ArmWrite, Deliver, ApplyPassTwo;
  }

  /** The fetch that follows a successful Pass 1 gets the prepared response exactly while it is fresh. */
  lemma FetchDelivers<A>(p: Port<A>, d: Sod<A>, i: nat, call: Call, env: Env)
    requires d.Valid() && At(d, i, call.dataId) && env.fate == Delivered
    requires d.entries[i].secureRo && d.readSlots[i].inUse
    requires RAND_SIZE + TAG_SIZE <= |d.readSlots[i].prepared| <= RESPONSE_MAX
    ensures var s := d.readSlots[i];
            var r := Exchange(p, d, call.client, call.dataId, [], env);
            var slot := if s.cyclic then s.(prepared := [], armedAt := env.now) else s.(inUse := false);
            if ChallengeFresh(env.now, s.armedAt) then
              r == Round(d.(readSlots := d.readSlots[i := slot]), Some(Accepted(s.prepared)), None)
            else
              ReadAnswer(r.reply, RESPONSE_MAX).Got? ==> |ReadAnswer(r.reply, RESPONSE_MAX).data| < RAND_SIZE + TAG_SIZE
  {
    hide ArmRead, ReadPoll, WritePoll, VerifyApply;
  }

  predicate Grants<A>(p: Port<A>, e: Entry, s: ReadSlot, app: A, keys: KeyStore, kid: byte, client: u16, env: Env) {
    && KeyAccepted(e, keys, kid) && env.random.Some?
    && p.accessAllowed(app, OpRead, e.dataId) && p.roleAllowed(app, OpRead, BaseId(kid), e.dataId)
    && !(s.clientDev != client && Held(s.inUse, s.cyclic, s.armedAt, env.now))
    && ReadHookOk(p, app, e)
  }

  /** What the server seals for a granted Pass 1. */
  function SealedFor<A>(p: Port<A>, e: Entry, key: Key, app: A, call: Call, random: Nonce, serverRandom: Nonce): Sealed
    requires ReadHookOk(p, app, e) && e.dataLen <= MAX_PROTECTED
  {
    Seal(p.gcm, key, XorSeq(random, serverRandom), ContextOf(p, DIR_READ_RESPONSE, call.keyId, call.client, e),
         Some(Randoms(random, serverRandom)), p.readBefore(app, e.dataId).plain).value
  }

  lemma GrantedArms<A>(p: Port<A>, e: Entry, s: ReadSlot, app: A, keys: KeyStore, call: Call, random: Nonce, env: Env)
    requires e.dataLen <= MAX_PROTECTED
    ensures var a := ArmRead(p, e, s, app, keys, PassOneRequest(call, random, env));
            && (a.reply.Deferred? <==> Grants(p, e, s, app, keys, call.keyId, call.client, env))
            && (a.reply.Deferred? ==>
                  var sealed := SealedFor(p, e, keys[BaseId(call.keyId)].key, app, call, random, env.random.value);
                  var cyclic := IsCyclic(call.keyId);
                  && a.slot == ReadSlot(true, cyclic, call.client, env.now, env.random.value + sealed.text + sealed.tag,
                                        if cyclic then call.keyId else 0,
                                        if cyclic then XorSeq(random, env.random.value) else Zeros(NONCE_SIZE), 0)
                  && a.app == p.readBefore(app, e.dataId).app)
  {
    hide Seal;
    var q := PassOneRequest(call, random, env);
    assert q.body[1..] == random;
  }

  lemma ResponseSplits(serverRandom: Nonce, text: seq<byte>, tag: Tag)
    ensures var r := serverRandom + text + tag;
            r[..12] == serverRandom && r[12..12 + |text|] == text && r[12 + |text|..] == tag
  {
  }

  /** The client's opening of a response that was sealed for it. */
  lemma ResponseOpens<A>(p: Port<A>, e: Entry, key: Key, app: A, call: Call, bufSize: nat, random: Nonce, serverRandom: Nonce)
    requires ReadHookOk(p, app, e) && e.dataLen <= MAX_PROTECTED && e.dataId == call.dataId
    ensures var sealed := SealedFor(p, e, key, app, call, random, serverRandom);
            var r := OpenResponse(p.gcm, call, bufSize, random, serverRandom + sealed.text + sealed.tag);
            && (key == call.key && SameServer(p, call) && e.dataLen <= bufSize ==>
                  r == (SecOk, p.readBefore(app, e.dataId).plain))
            && (r.0 == SecOk ==>
                  || (key == call.key && SameServer(p, call) && e.dataLen <= bufSize)
                  || Collide(p.gcm, ServerReadQuery(p, e, key, app, call, random, serverRandom),
                             ClientReadQuery(call, random, serverRandom, sealed.text)))
  {
    var sealed := SealedFor(p, e, key, app, call, random, serverRandom);
    var nonce, randoms := XorSeq(random, serverRandom), Some(Randoms(random, serverRandom));
    var plain := p.readBefore(app, e.dataId).plain;
    var ctx, ctx' := ContextOf(p, DIR_READ_RESPONSE, call.keyId, call.client, e), ServerContext(DIR_READ_RESPONSE, call);
    ResponseSplits(serverRandom, sealed.text, sealed.tag);
    QueryBinds(key, nonce, ctx, randoms, sealed.text, call.key, nonce, ctx', randoms, sealed.text);
    OpenInvertsSeal(p.gcm, key, nonce, ctx, randoms, plain);
  }

  function ServerReadQuery<A>(p: Port<A>, e: Entry, key: Key, app: A, call: Call, random: Nonce, serverRandom: Nonce): Query
    requires ReadHookOk(p, app, e) && e.dataLen <= MAX_PROTECTED
  {
    QueryFor(key, XorSeq(random, serverRandom), ContextOf(p, DIR_READ_RESPONSE, call.keyId, call.client, e),
             Some(Randoms(random, serverRandom)), SealedFor(p, e, key, app, call, random, serverRandom).text)
  }

  function ClientReadQuery(call: Call, random: Nonce, serverRandom: Nonce, text: seq<byte>): Query
    requires |text| <= MAX_PROTECTED
  {
    QueryFor(call.key, XorSeq(random, serverRandom), ServerContext(DIR_READ_RESPONSE, call),
             Some(Randoms(random, serverRandom)), text)
  }

  /** What has to be in order for a read to succeed, all of it known before the call. */
  predicate ReadReady<A>(p: Port<A>, d: Sod<A>, i: nat, call: Call, bufSize: nat, random: Option<Nonce>, e1: Env, e2: Env)
    requires d.Shaped() && i < |d.entries|
  {
    var e := d.entries[i];
    && KeyIdUsable(call.keyId) && random.Some?
    && e1.fate == Delivered && e2.fate == Delivered && ChallengeFresh(e2.now, e1.now)
    && e.secureRo && Grants(p, e, d.readSlots[i], d.app, d.keys, call.keyId, call.client, e1)
    && e.dataLen <= bufSize && SameServer(p, call) && HoldsKey(d.keys, BaseId(call.keyId), call.key)
  }

  /** The response was sealed under one query and opened under another with the same tag. */
  ghost predicate ReadCollides<A>(p: Port<A>, d: Sod<A>, i: nat, call: Call, random: Option<Nonce>, e1: Env)
    requires d.Valid() && i < |d.entries|
  {
    var e, base := d.entries[i], BaseId(call.keyId);
    && base in d.keys && random.Some? && e1.random.Some? && ReadHookOk(p, d.app, e)
    && var key := d.keys[base].key;
       Collide(p.gcm, ServerReadQuery(p, e, key, d.app, call, random.value, e1.random.value),
               ClientReadQuery(call, random.value, e1.random.value,
                               SealedFor(p, e, key, d.app, call, random.value, e1.random.value).text))
  }

  /** The server's read slot and the client's session belong to one cyclic session. */
  predicate ReadLinked<A>(d: Sod<A>, i: nat, call: Call, sess: Session)
    requires d.Shaped() && i < |d.entries|
  {
    var s := d.readSlots[i];
    && sess.inUse && s.inUse && s.cyclic
    && sess.dataId == d.entries[i].dataId && s.clientDev == call.client
    && s.keyId == sess.keyId && s.nonceBase == sess.nonceBase
  }

  /** The server after a successful read: the slot is freed, or holds a new session. */
  function AfterRead<A>(p: Port<A>, d: Sod<A>, i: nat, call: Call, random: Nonce, e1: Env, e2: Env): Sod<A>
    requires d.Shaped() && i < |d.entries|
    requires ReadHookOk(p, d.app, d.entries[i]) && d.entries[i].dataLen <= MAX_PROTECTED
    requires BaseId(call.keyId) in d.keys && e1.random.Some?
  {
    var e, serverRandom := d.entries[i], e1.random.value;
    var sealed := SealedFor(p, e, d.keys[BaseId(call.keyId)].key, d.app, call, random, serverRandom);
    var slot := if IsCyclic(call.keyId)
                then ReadSlot(true, true, call.client, e2.now, [], call.keyId, XorSeq(random, serverRandom), 0)
                else ReadSlot(false, false, call.client, e1.now, serverRandom + sealed.text + sealed.tag, 0,
                              Zeros(NONCE_SIZE), 0);
    d.(readSlots := d.readSlots[i := slot], app := p.readBefore(d.app, e.dataId).app)
  }

  /** Once armed: the fetch and the opening. */
  lemma ArmedReadCorrect<A>(p: Port<A>, d: Sod<A>, i: nat, call: Call, bufSize: nat, random: Nonce, e1: Env, e2: Env)
    requires d.Valid() && At(d, i, call.dataId) && d.entries[i].secureRo
    requires KeyIdUsable(call.keyId) && e1.fate == Delivered
    requires Grants(p, d.entries[i], d.readSlots[i], d.app, d.keys, call.keyId, call.client, e1)
    ensures var r := ReadFlow(p, d, call, bufSize, Some(random), e1, e2);
            && (ReadReady(p, d, i, call, bufSize, Some(random), e1, e2) ==>
                  r == Access(AfterRead(p, d, i, call, random, e1, e2), SecOk, p.readBefore(d.app, call.dataId).plain,
                              XorSeq(random, e1.random.value), None))
            && (r.status == SecOk ==>
                  ReadReady(p, d, i, call, bufSize, Some(random), e1, e2) || ReadCollides(p, d, i, call, Some(random), e1))
  {
    hide Exchange, OpenResponse, Seal, QueryFor, Collide, ArmRead;
    var e, q := d.entries[i], PassOneRequest(call, random, e1);
    ChallengeReaches(p, d, i, call, random, e1);
    GrantedArms(p, e, d.readSlots[i], d.app, d.keys, call, random, e1);
    var d1 := Exchange(p, d, call.client, call.dataId, q.body, e1).sod;
    var key := d.keys[BaseId(call.keyId)].key;
    ResponseSplits(e1.random.value, SealedFor(p, e, key, d.app, call, random, e1.random.value).text,
                   SealedFor(p, e, key, d.app, call, random, e1.random.value).tag);
    ResponseOpens(p, e, key, d.app, call, bufSize, random, e1.random.value);
    if e2.fate == Delivered {
      FetchDelivers(p, d1, i, call, e2);
    } else {
      LostMeansTimeout(p, d1, call.client, call.dataId, [], e2);
    }
  }

  lemma LostMeansTimeout<A>(p: Port<A>, d: Sod<A>, client: u16, dataId: u32, body: seq<byte>, env: Env)
    requires d.Shaped() && env.fate != Delivered
    ensures Exchange(p, d, client, dataId, body, env).reply == None
  {
    hide Dispatch;
  }

  /**
   * A read (armed when bit 6 of the key id is set) succeeds when everything is
   * ready and then returns exactly what the host supplied; it succeeds
   * otherwise only by a tag collision.
   */
  lemma ReadCorrect<A>(p: Port<A>, d: Sod<A>, i: nat, call: Call, bufSize: nat, random: Option<Nonce>, e1: Env, e2: Env)
    requires d.Valid() && At(d, i, call.dataId)
    ensures var r := ReadFlow(p, d, call, bufSize, random, e1, e2);
            && (ReadReady(p, d, i, call, bufSize, random, e1, e2) ==>
                  r == Access(AfterRead(p, d, i, call, random.value, e1, e2), SecOk, p.readBefore(d.app, call.dataId).plain,
                              XorSeq(random.value, e1.random.value), None))
            && (r.status == SecOk ==>
                  ReadReady(p, d, i, call, bufSize, random, e1, e2) || ReadCollides(p, d, i, call, random, e1))
  {
    hide Exchange, OpenResponse, ReadCollides, AfterRead, ArmRead;
    if KeyIdUsable(call.keyId) && random.Some? {
      if e1.fate != Delivered {
        LostMeansTimeout(p, d, call.client, call.dataId, [call.keyId] + random.value, e1);
      } else {
        ChallengeReaches(p, d, i, call, random.value, e1);
        GrantedArms(p, d.entries[i], d.readSlots[i], d.app, d.keys, call, random.value, e1);
        if WriteAnswer(Exchange(p, d, call.client, call.dataId, [call.keyId] + random.value, e1).reply) == SecOk {
          ArmedReadCorrect(p, d, i, call, bufSize, random.value, e1, e2);
        }
      }
    }
  }

  /* ---- Single-shot and armed writes ---- */

  /** Pass 1 of a write hands out a random: this client may write, and the slot is not another's. */
  predicate Challenges<A>(p: Port<A>, d: Sod<A>, i: nat, client: u16, env: Env)
    requires d.Shaped() && i < |d.entries|
  {
    var e, w := d.entries[i], d.writeSlots[i];
    && e.secureWo && env.random.Some? && !(e.secureRo && Deliverable(d.readSlots[i], env.now))
    && p.accessAllowed(d.app, OpWrite, e.dataId)
    && !(w.clientDev != client && Held(w.inUse, w.cyclic, w.armedAt, env.now))
  }

  lemma ChallengeHasRandom<A>(p: Port<A>, d: Sod<A>, i: nat, client: u16, env: Env)
    requires d.Shaped() && i < |d.entries| && Challenges(p, d, i, client, env)
    ensures env.random.Some? && d.entries[i].secureWo
  {
  }

  function ChallengedSlot(client: u16, env: Env): WriteSlot
    requires env.random.Some?
  {
    WriteSlot(true, false, client, env.now, 0, env.random.value, Zeros(NONCE_SIZE), 0)
  }

  lemma ChallengeAnswered<A>(p: Port<A>, d: Sod<A>, i: nat, client: u16, dataId: u32, env: Env)
    requires d.Valid() && At(d, i, dataId) && env.fate == Delivered
    ensures var r := Exchange(p, d, client, dataId, [], env);
            var answer := ReadAnswer(r.reply, RAND_SIZE);
            && (answer.Got? && |answer.data| == RAND_SIZE <==> Challenges(p, d, i, client, env))
            && (Challenges(p, d, i, client, env) ==>
                  r == Round(d.(writeSlots := d.writeSlots[i := ChallengedSlot(client, env)]),
                             Some(Accepted(env.random.value)), None))
  {
    hide ArmRead, ReadPoll, WritePoll, VerifyApply;
    assert WholeResponse(d.readSlots[i]);
  }

  /** What has to be in order for a write to succeed, all of it known before the call. */
  predicate WriteReady<A>(p: Port<A>, d: Sod<A>, i: nat, call: Call, plain: seq<byte>, random: Option<Nonce>, e1: Env, e2: Env)
    requires d.Shaped() && i < |d.entries|
  {
    var e, base := d.entries[i], BaseId(call.keyId);
    && KeyIdUsable(call.keyId) && random.Some? && 0 < |plain| == e.dataLen
    && e1.fate == Delivered && e2.fate == Delivered && ChallengeFresh(e2.now, e1.now)
    && Challenges(p, d, i, call.client, e1)
    && KeyAccepted(e, d.keys, call.keyId) && p.roleAllowed(d.app, OpWrite, base, e.dataId)
    && HoldsKey(d.keys, base, call.key) && SameServer(p, call)
    && WriteHookOk(p, d.app, d.keys, base, e, plain)
  }

  function ClientWriteQuery(g: Gcm, call: Call, random: Nonce, serverRandom: Nonce, plain: seq<byte>): Query
    requires |plain| <= MAX_PROTECTED
  {
    var nonce, randoms := XorSeq(random, serverRandom), Some(Randoms(random, serverRandom));
    var ctx := ServerContext(DIR_WRITE_REQUEST, call);
    QueryFor(call.key, nonce, ctx, randoms, Seal(g, call.key, nonce, ctx, randoms, plain).value.text)
  }

  function ServerWriteQuery<A>(p: Port<A>, e: Entry, key: Key, call: Call, random: Nonce, serverRandom: Nonce,
                               plain: seq<byte>): Query
    requires |plain| <= MAX_PROTECTED
  {
    var nonce, randoms := XorSeq(random, serverRandom), Some(Randoms(random, serverRandom));
    var text := Seal(p.gcm, call.key, nonce, ServerContext(DIR_WRITE_REQUEST, call), randoms, plain).value.text;
    QueryFor(key, nonce, ContextOf(p, DIR_WRITE_REQUEST, call.keyId, call.client, e), randoms, text)
  }

  ghost predicate WriteCollides<A>(p: Port<A>, d: Sod<A>, i: nat, call: Call, plain: seq<byte>, random: Option<Nonce>, e1: Env)
    requires d.Valid() && i < |d.entries|
  {
    var base := BaseId(call.keyId);
    && base in d.keys && random.Some? && e1.random.Some? && |plain| <= MAX_PROTECTED
    && Collide(p.gcm, ClientWriteQuery(p.gcm, call, random.value, e1.random.value, plain),
               ServerWriteQuery(p, d.entries[i], d.keys[base].key, call, random.value, e1.random.value, plain))
  }

  lemma FrameSplits(kid: byte, random: Nonce, text: seq<byte>, tag: Tag)
    ensures var f := [kid] + random + text + tag;
            && f[0] == kid && f[1..13] == random
            && f[13..13 + |text|] == text && f[13 + |text|..] == tag
  {
  }

  /** The server's opening of a Pass-2 frame. */
  lemma FrameOpens<A>(p: Port<A>, e: Entry, key: Key, call: Call, random: Nonce, env: Env, plain: seq<byte>)
    requires |plain| == e.dataLen <= MAX_PROTECTED && e.dataId == call.dataId && env.random.Some?
    ensures var sr := env.random.value;
            var r := OpenPassTwo(p, e, ChallengedSlot(call.client, env), key, PassTwoFrame(p.gcm, call, random, sr, plain));
            && (key == call.key && SameServer(p, call) ==> r == Some(plain))
            && (r.Some? ==>
                  || (key == call.key && SameServer(p, call))
                  || Collide(p.gcm, ClientWriteQuery(p.gcm, call, random, sr, plain),
                             ServerWriteQuery(p, e, key, call, random, sr, plain)))
  {
    var sr := env.random.value;
    var nonce, randoms := XorSeq(random, sr), Some(Randoms(random, sr));
    var ctx, ctx' := ServerContext(DIR_WRITE_REQUEST, call), ContextOf(p, DIR_WRITE_REQUEST, call.keyId, call.client, e);
    var sealed := Seal(p.gcm, call.key, nonce, ctx, randoms, plain).value;
    FrameSplits(call.keyId, random, sealed.text, sealed.tag);
    QueryBinds(call.key, nonce, ctx, randoms, sealed.text, key, nonce, ctx', randoms, sealed.text);
    OpenInvertsSeal(p.gcm, call.key, nonce, ctx, randoms, plain);
  }

  /** A Pass-2 frame reaches the write handler of an entry that has one. */
  lemma PassTwoReaches<A>(p: Port<A>, d: Sod<A>, i: nat, client: u16, dataId: u32, frame: seq<byte>, env: Env)
    requires d.Valid() && At(d, i, dataId) && env.fate == Delivered
    requires d.entries[i].secureWo && !d.writeSlots[i].cyclic && |frame| > 1 + RAND_SIZE
    ensures var q := Request(client, frame, env.now, env.random, REPLY_MAX);
            var v := VerifyApply(p, d.entries[i], d.writeSlots[i], d.app, d.keys, d.lastKid, q);
            Exchange(p, d, client, dataId, frame, env)
              == Round(d.(writeSlots := d.writeSlots[i := v.slot], app := v.app, keys := v.keys, lastKid := v.lastKid),
                       Some(v.reply), v.commit)
  {
    hide VerifyApply, ArmRead, ReadPoll, WritePoll, ArmWrite;
  }

  /** The tag query that a Pass-2 frame is checked against. */
  function PassTwoQuery<A>(p: Port<A>, e: Entry, w: WriteSlot, key: Key, body: seq<byte>): Query
    requires |body| == 1 + RAND_SIZE + e.dataLen + TAG_SIZE && e.dataLen <= MAX_PROTECTED
  {
    QueryFor(key, XorSeq(body[1..13], w.serverRandom), ContextOf(p, DIR_WRITE_REQUEST, body[0], w.clientDev, e),
             Some(Randoms(body[1..13], w.serverRandom)), body[13..13 + e.dataLen])
  }

  /** A committed Pass 2 had a slot in use and a tag that verified. */
  lemma CommitChecked<A>(p: Port<A>, e: Entry, w: WriteSlot, app: A, keys: KeyStore, lastKid: byte, q: Request)
    requires e.dataLen <= MAX_PROTECTED && VerifyApply(p, e, w, app, keys, lastKid, q).commit.Some?
    ensures w.inUse && |q.body| == 1 + RAND_SIZE + e.dataLen + TAG_SIZE && BaseId(q.body[0]) in keys
    ensures p.gcm.tag(PassTwoQuery(p, e, w, keys[BaseId(q.body[0])].key, q.body)) == q.body[13 + e.dataLen..]
    ensures VerifyApply(p, e, w, app, keys, lastKid, q).slot.inUse == IsCyclic(q.body[0])
  {
    hide XorSeq, Crypt, QueryFor, IsCyclic;
  }

  lemma PassTwoAnswers<A>(p: Port<A>, e: Entry, w: WriteSlot, app: A, keys: KeyStore, lastKid: byte, q: Request)
    ensures var r := VerifyApply(p, e, w, app, keys, lastKid, q); r.reply.Refused? || r.commit.Some?
  {
    hide OpenPassTwo, PassTwoCheck;
  }

  /** The server after a successful write: the value is with the host; the slot is freed, or holds a new session. */
  function AfterWrite<A>(p: Port<A>, d: Sod<A>, i: nat, call: Call, plain: seq<byte>, random: Nonce, e1: Env, e2: Env): Sod<A>
    requires d.Shaped() && i < |d.entries| && e1.random.Some?
  {
    var base, w := BaseId(call.keyId), ChallengedSlot(call.client, e1);
    var h := p.writeAfter(d.app, d.keys, base, d.entries[i].dataId, plain);
    var slot := if IsCyclic(call.keyId)
                then w.(cyclic := true, keyId := call.keyId, nonceBase := XorSeq(random, w.serverRandom), armedAt := e2.now)
                else w.(inUse := false, keyId := call.keyId);
    d.(writeSlots := d.writeSlots[i := slot], app := h.app, keys := h.keys, lastKid := base)
  }

  /** Once challenged: the frame and what the server makes of it. */
  lemma ChallengedWriteCorrect<A>(p: Port<A>, d: Sod<A>, i: nat, call: Call, plain: seq<byte>, random: Nonce, e1: Env, e2: Env)
    requires d.Valid() && At(d, i, call.dataId)
    requires KeyIdUsable(call.keyId) && 0 < |plain| <= MAX_PROTECTED && e1.fate == Delivered
    requires Challenges(p, d, i, call.client, e1)
    ensures var r := WriteFlow(p, d, call, plain, Some(random), e1, e2);
            && (WriteReady(p, d, i, call, plain, Some(random), e1, e2) ==>
                  r == Access(AfterWrite(p, d, i, call, plain, random, e1, e2), SecOk, [], XorSeq(random, e1.random.value),
                              Some(Commit(plain, BaseId(call.keyId), 0, IsCyclic(call.keyId)))))
            && (r.status == SecOk ==>
                  || WriteReady(p, d, i, call, plain, Some(random), e1, e2)
                  || WriteCollides(p, d, i, call, plain, Some(random), e1))
  {
    assert d.entries[i].secureWo && e1.random.Some?;
    hide Exchange, OpenPassTwo, Seal, QueryFor, Collide, PassTwoFrame, Challenges;
    var e, sr := d.entries[i], e1.random.value;
    ChallengeAnswered(p, d, i, call.client, call.dataId, e1);
    var d1 := Exchange(p, d, call.client, call.dataId, [], e1).sod;
    var frame := PassTwoFrame(p.gcm, call, random, sr, plain);
    FrameStartsWithKeyId(p.gcm, call, random, sr, plain);
    if e2.fate == Delivered {
      PassTwoReaches(p, d1, i, call.client, call.dataId, frame, e2);
      if |plain| == e.dataLen && BaseId(call.keyId) in d.keys {
        FrameOpens(p, e, d.keys[BaseId(call.keyId)].key, call, random, e1, plain);
        assert d1.writeSlots[i] == ChallengedSlot(call.client, e1);
        assert d1.writeSlots[i := ChallengedSlot(call.client, e1)] == d1.writeSlots;
      }
    } else {
      LostMeansTimeout(p, d1, call.client, call.dataId, frame, e2);
    }
  }

  lemma FrameStartsWithKeyId(g: Gcm, call: Call, random: Nonce, serverRandom: Nonce, plain: seq<byte>)
    requires |plain| <= MAX_PROTECTED
    ensures var f := PassTwoFrame(g, call, random, serverRandom, plain); f[0] == call.keyId && f[1..13] == random
  {
  }

  /**
   * A write (armed when bit 6 of the key id is set) succeeds when everything
   * is ready and then commits exactly the caller's bytes; it succeeds
   * otherwise only by a tag collision.
   */
  lemma WriteCorrect<A>(p: Port<A>, d: Sod<A>, i: nat, call: Call, plain: seq<byte>, random: Option<Nonce>, e1: Env, e2: Env)
    requires d.Valid() && At(d, i, call.dataId)
    ensures var r := WriteFlow(p, d, call, plain, random, e1, e2);
            && (WriteReady(p, d, i, call, plain, random, e1, e2) ==>
                  r == Access(AfterWrite(p, d, i, call, plain, random.value, e1, e2), SecOk, [],
                              XorSeq(random.value, e1.random.value),
                              Some(Commit(plain, BaseId(call.keyId), 0, IsCyclic(call.keyId)))))
            && (r.status == SecOk ==>
                  || WriteReady(p, d, i, call, plain, random, e1, e2)
                  || WriteCollides(p, d, i, call, plain, random, e1))
  {
    hide Exchange, PassTwoFrame, WriteCollides, AfterWrite;
    if KeyIdUsable(call.keyId) && 0 < |plain| <= MAX_PROTECTED {
      if e1.fate != Delivered {
        LostMeansTimeout(p, d, call.client, call.dataId, [], e1);
      } else {
        ChallengeAnswered(p, d, i, call.client, call.dataId, e1);
        if Challenges(p, d, i, call.client, e1) && random.Some? {
          ChallengedWriteCorrect(p, d, i, call, plain, random.value, e1, e2);
        }
      }
    }
  }
}
