/**
 * Polls of a cyclic session, client and server composed: exactly when one
 * succeeds, and whole runs of them after arming, up to the key-use limit.
 */
module PollRuns {
  import opened Bytes
  import opened Aead
  import opened Channel
  import opened SecureOd
  import opened SecureProto
  import opened Tunnel

  /* ---- One read poll ---- */

  predicate PollReadReady<A>(p: Port<A>, d: Sod<A>, i: nat, call: Call, sess: Session, plainMax: nat, env: Env)
    requires d.Shaped() && i < |d.entries|
  {
    var e, s := d.entries[i], d.readSlots[i];
    var base := BaseId(s.keyId);
    && env.fate == Delivered && SessionFresh(env.now, s.armedAt) && e.secureRo
    && sess.counter == s.counter < KEY_USE_LIMIT
    && p.accessAllowed(d.app, OpRead, e.dataId) && p.roleAllowed(d.app, OpRead, base, e.dataId)
    && ReadHookOk(p, d.app, e) && HoldsKey(d.keys, base, call.key)
    && SameServer(p, call) && e.dataLen <= plainMax
  }

  function AfterPollRead<A>(p: Port<A>, d: Sod<A>, i: nat, env: Env): Sod<A>
    requires d.Shaped() && i < |d.entries| && d.readSlots[i].counter < KEY_USE_LIMIT
  {
    var s := d.readSlots[i];
    d.(readSlots := d.readSlots[i := s.(counter := s.counter + 1, armedAt := env.now)],
       app := p.readBefore(d.app, d.entries[i].dataId).app)
  }

  /** What the server seals for poll `counter`. */
  function PollSealed<A>(p: Port<A>, e: Entry, s: ReadSlot, key: Key, counter: u32, app: A): Sealed
    requires ReadHookOk(p, app, e) && e.dataLen <= MAX_PROTECTED
  {
    Seal(p.gcm, key, SessionNonce(s.nonceBase, counter), ContextOf(p, DIR_READ_POLL_RESPONSE, s.keyId, s.clientDev, e),
         None, p.readBefore(app, e.dataId).plain).value
  }

  function ServerPollQuery<A>(p: Port<A>, e: Entry, s: ReadSlot, key: Key, counter: u32, app: A): Query
    requires ReadHookOk(p, app, e) && e.dataLen <= MAX_PROTECTED
  {
    QueryFor(key, SessionNonce(s.nonceBase, counter), ContextOf(p, DIR_READ_POLL_RESPONSE, s.keyId, s.clientDev, e),
             None, PollSealed(p, e, s, key, counter, app).text)
  }

  function ClientPollQuery(call: Call, sess: Session, counter: u32, text: seq<byte>): Query
    requires |text| <= MAX_PROTECTED
  {
    QueryFor(call.key, SessionNonce(sess.nonceBase, counter), PollContext(DIR_READ_POLL_RESPONSE, call, sess), None, text)
  }

  /** One tag for the query the server sealed under and the different one the client opened under. */
  ghost predicate PollReadCollides<A>(p: Port<A>, d: Sod<A>, i: nat, call: Call, sess: Session)
    requires d.Valid() && i < |d.entries|
  {
    var e, s := d.entries[i], d.readSlots[i];
    && s.counter < KEY_USE_LIMIT && sess.counter < KEY_USE_LIMIT
    && BaseId(s.keyId) in d.keys && ReadHookOk(p, d.app, e)
    && var key := d.keys[BaseId(s.keyId)].key;
       Collide(p.gcm, ServerPollQuery(p, e, s, key, s.counter + 1, d.app),
               ClientPollQuery(call, sess, sess.counter + 1, PollSealed(p, e, s, key, s.counter + 1, d.app).text))
  }

  predicate PollServed<A>(p: Port<A>, e: Entry, s: ReadSlot, app: A, keys: KeyStore, low: byte, now: u16) {
    && SessionFresh(now, s.armedAt) && s.counter < KEY_USE_LIMIT && low == (s.counter + 1) % 0x100
    && p.accessAllowed(app, OpRead, e.dataId) && p.roleAllowed(app, OpRead, BaseId(s.keyId), e.dataId)
    && ReadHookOk(p, app, e) && BaseId(s.keyId) in keys
  }

  /** The poll handler on a session of its client: when it serves, and what. */
  lemma PollIsServed<A>(p: Port<A>, e: Entry, s: ReadSlot, app: A, keys: KeyStore, client: u16, low: byte, env: Env)
    requires e.dataLen <= MAX_PROTECTED && s.inUse && s.cyclic && s.clientDev == client
    ensures var r := ReadPoll(p, e, s, app, keys, Request(client, [low], env.now, env.random, REPLY_MAX));
            if PollServed(p, e, s, app, keys, low, env.now) then
              var sealed := PollSealed(p, e, s, keys[BaseId(s.keyId)].key, s.counter + 1, app);
              && r.reply == Accepted([low] + sealed.text + sealed.tag)
              && r.slot == s.(counter := s.counter + 1, armedAt := env.now)
              && r.app == p.readBefore(app, e.dataId).app
            else
              r.reply.Refused? && (r.slot == s || r.slot == s.(inUse := false))
  {
    hide Seal, SessionNonce;
  }

  /** A one-byte body on a live session goes to the poll handler. */
  lemma PollReaches<A>(p: Port<A>, d: Sod<A>, i: nat, client: u16, dataId: u32, low: byte, env: Env)
    requires d.Valid() && At(d, i, dataId) && env.fate != RequestLost
    requires d.entries[i].secureRo && d.readSlots[i].inUse && d.readSlots[i].cyclic
    ensures var a := ReadPoll(p, d.entries[i], d.readSlots[i], d.app, d.keys,
                              Request(client, [low], env.now, env.random, REPLY_MAX));
            Exchange(p, d, client, dataId, [low], env)
              == Round(d.(readSlots := d.readSlots[i := a.slot], app := a.app),
                       if env.fate == Delivered then Some(a.reply) else None, None)
  {
    hide ReadPoll, ArmRead, WritePoll, VerifyApply, ArmWrite;
  }

  lemma PollReplySplits(low: byte, text: seq<byte>, tag: Tag)
    ensures var r := [low] + text + tag; r[0] == low && r[1..1 + |text|] == text && r[1 + |text|..] == tag
  {
  }

  /** The client's opening of a served poll. */
  lemma PollOpens<A>(p: Port<A>, e: Entry, s: ReadSlot, key: Key, app: A, call: Call, sess: Session, counter: u32,
                     plainMax: nat)
    requires e.dataLen <= MAX_PROTECTED && ReadHookOk(p, app, e)
    requires s.clientDev == call.client && s.keyId == sess.keyId && s.nonceBase == sess.nonceBase
    requires sess.dataId == e.dataId && counter % 0x100 == (s.counter + 1) % 0x100 && s.counter < KEY_USE_LIMIT
    ensures var sealed := PollSealed(p, e, s, key, s.counter + 1, app);
            var r := OpenPollReply(p.gcm, call, sess, counter, plainMax, [(s.counter + 1) % 0x100] + sealed.text + sealed.tag);
            var ready := counter == s.counter + 1 && key == call.key && SameServer(p, call) && e.dataLen <= plainMax;
            && (ready ==> r == (SecOk, p.readBefore(app, e.dataId).plain))
            && (r.0 == SecOk ==> ready || Collide(p.gcm, ServerPollQuery(p, e, s, key, s.counter + 1, app),
                                                  ClientPollQuery(call, sess, counter, sealed.text)))
  {
    var plain := p.readBefore(app, e.dataId).plain;
    var nonce, nonce' := SessionNonce(s.nonceBase, s.counter + 1), SessionNonce(sess.nonceBase, counter);
    var ctx := ContextOf(p, DIR_READ_POLL_RESPONSE, s.keyId, s.clientDev, e);
    var ctx' := PollContext(DIR_READ_POLL_RESPONSE, call, sess);
    var sealed := PollSealed(p, e, s, key, s.counter + 1, app);
    PollReplySplits((s.counter + 1) % 0x100, sealed.text, sealed.tag);
    QueryBinds(key, nonce, ctx, None, sealed.text, call.key, nonce', ctx', None, sealed.text);
    OpenInvertsSeal(p.gcm, key, nonce, ctx, None, plain);
    if nonce == nonce' {
      SessionNonceInjective(s.nonceBase, s.counter + 1, counter);
    }
  }

  /**
   * A read poll succeeds when both counters agree and everything is ready, and
   * then returns the host's value of this moment and moves both counters; it
   * succeeds otherwise only by a tag collision.
   */
  lemma PollReadCorrect<A>(p: Port<A>, d: Sod<A>, i: nat, call: Call, sess: Session, plainMax: nat, env: Env)
    requires d.Valid() && At(d, i, sess.dataId) && d.entries[i].secureRo && ReadLinked(d, i, call, sess)
    ensures var r := PollRead(p, d, call, sess, plainMax, env);
            && (PollReadReady(p, d, i, call, sess, plainMax, env) ==>
                  r == Poll(AfterPollRead(p, d, i, env), sess.(counter := sess.counter + 1), SecOk,
                            p.readBefore(d.app, sess.dataId).plain, None))
            && (r.status == SecOk ==>
                  PollReadReady(p, d, i, call, sess, plainMax, env) || PollReadCollides(p, d, i, call, sess))
  {
    hide Exchange, OpenPollReply, ReadPoll, Collide, QueryFor, Seal;
    var e, s := d.entries[i], d.readSlots[i];
    if sess.counter < KEY_USE_LIMIT {
      var low := (sess.counter + 1) % 0x100;
      if env.fate != Delivered {
        LostMeansTimeout(p, d, call.client, sess.dataId, [low], env);
      } else {
        PollReaches(p, d, i, call.client, sess.dataId, low, env);
        PollIsServed(p, e, s, d.app, d.keys, call.client, low, env);
        if PollServed(p, e, s, d.app, d.keys, low, env.now) {
          PollOpens(p, e, s, d.keys[BaseId(s.keyId)].key, d.app, call, sess, sess.counter + 1, plainMax);
        }
      }
    }
  }

  /* ---- Runs of read polls ---- */

  /** The host's state after it has supplied `n` values. */
  function AppAfterReads<A>(p: Port<A>, app: A, dataId: u32, n: nat): A {
    if n == 0 then app else p.readBefore(AppAfterReads(p, app, dataId, n - 1), dataId).app
  }

  predicate ReadPermitted<A>(p: Port<A>, e: Entry, base: byte, app: A) {
    p.accessAllowed(app, OpRead, e.dataId) && p.roleAllowed(app, OpRead, base, e.dataId) && ReadHookOk(p, app, e)
  }

  /** The host permits and supplies each of the next `n` reads. */
  ghost predicate ReadsPermitted<A>(p: Port<A>, e: Entry, base: byte, app: A, n: nat) {
    forall k :: 0 <= k < n ==> ReadPermitted(p, e, base, AppAfterReads(p, app, e.dataId, k))
  }

  function LastNow(armedAt: u16, envs: seq<Env>): u16 {
    if envs == [] then armedAt else envs[|envs| - 1].now
  }

  predicate TimelyAt(armedAt: u16, envs: seq<Env>, k: nat)
    requires k < |envs|
  {
    envs[k].fate == Delivered && SessionFresh(envs[k].now, LastNow(armedAt, envs[..k]))
  }

  /** Nothing is lost, and no gap between requests exceeds the idle timeout. */
  ghost predicate Timely(armedAt: u16, envs: seq<Env>) {
    forall k :: 0 <= k < |envs| ==> TimelyAt(armedAt, envs, k)
  }

  lemma TimelyPrefix(armedAt: u16, envs: seq<Env>, n: nat)
    requires Timely(armedAt, envs) && n <= |envs|
    ensures Timely(armedAt, envs[..n])
  {
    forall k | 0 <= k < n ensures TimelyAt(armedAt, envs[..n], k) {
      assert TimelyAt(armedAt, envs, k) && envs[..n][..k] == envs[..k];
    }
  }

  ghost predicate ReadSessionReady<A>(p: Port<A>, d: Sod<A>, i: nat, call: Call, sess: Session, plainMax: nat, n: nat)
    requires d.Shaped() && i < |d.entries|
  {
    var e, s := d.entries[i], d.readSlots[i];
    && e.secureRo && ReadLinked(d, i, call, sess) && s.counter == sess.counter
    && HoldsKey(d.keys, BaseId(s.keyId), call.key) && SameServer(p, call) && e.dataLen <= plainMax
    && ReadsPermitted(p, e, BaseId(s.keyId), d.app, n)
  }

  /** The server after `n` served polls of the session, the last one at `now`. */
  function SodAfterReads<A>(p: Port<A>, d: Sod<A>, i: nat, n: nat, now: u16): Sod<A>
    requires d.Shaped() && i < |d.entries| && d.readSlots[i].counter + n <= KEY_USE_LIMIT
  {
    var s := d.readSlots[i];
    d.(readSlots := d.readSlots[i := s.(counter := s.counter + n, armedAt := now)],
       app := AppAfterReads(p, d.app, d.entries[i].dataId, n))
  }

  lemma NextSod<A>(p: Port<A>, d: Sod<A>, i: nat, n: nat, now: u16, env: Env)
    requires d.Shaped() && i < |d.entries| && d.readSlots[i].counter + n + 1 <= KEY_USE_LIMIT
    ensures AfterPollRead(p, SodAfterReads(p, d, i, n, now), i, env) == SodAfterReads(p, d, i, n + 1, env.now)
  {
    assert AppAfterReads(p, d.app, d.entries[i].dataId, n + 1)
        == p.readBefore(AppAfterReads(p, d.app, d.entries[i].dataId, n), d.entries[i].dataId).app;
  }

  lemma NthReadPollReady<A>(p: Port<A>, d: Sod<A>, i: nat, call: Call, sess: Session, plainMax: nat, envs: seq<Env>, n: nat)
    requires d.Valid() && At(d, i, sess.dataId) && ReadSessionReady(p, d, i, call, sess, plainMax, |envs|)
    requires n < |envs| && TimelyAt(d.readSlots[i].armedAt, envs, n) && sess.counter + |envs| <= KEY_USE_LIMIT
    ensures var before := SodAfterReads(p, d, i, n, LastNow(d.readSlots[i].armedAt, envs[..n]));
            var sess' := sess.(counter := sess.counter + n);
            && before.Valid() && At(before, i, sess.dataId) && ReadLinked(before, i, call, sess')
            && PollReadReady(p, before, i, call, sess', plainMax, envs[n])
  {
    hide SameServer, ReadHookOk, FindIndex;
    assert ReadPermitted(p, d.entries[i], BaseId(d.readSlots[i].keyId), AppAfterReads(p, d.app, sess.dataId, n));
  }

  /** The values that the host supplies to `n` reads, in order. */
  function ValuesRead<A>(p: Port<A>, app: A, dataId: u32, n: nat): (values: seq<seq<byte>>)
    ensures |values| == n
    ensures forall k :: 0 <= k < n ==> values[k] == p.readBefore(AppAfterReads(p, app, dataId, k), dataId).plain
  {
    if n == 0 then [] else ValuesRead(p, app, dataId, n - 1) + [p.readBefore(AppAfterReads(p, app, dataId, n - 1), dataId).plain]
  }

  lemma ReadSessionPrefix<A>(p: Port<A>, d: Sod<A>, i: nat, call: Call, sess: Session, plainMax: nat, n: nat, m: nat)
    requires d.Shaped() && i < |d.entries| && ReadSessionReady(p, d, i, call, sess, plainMax, n) && m <= n
    ensures ReadSessionReady(p, d, i, call, sess, plainMax, m)
  {
    hide ReadPermitted;
  }

  /** Every poll within the key-use limit delivers the host's value of its moment, and the counters stay equal. */
  lemma {:induction false} AllReadPollsSucceed<A>(p: Port<A>, d: Sod<A>, i: nat, call: Call, sess: Session, plainMax: nat,
                                                  envs: seq<Env>)
    requires d.Valid() && At(d, i, sess.dataId) && ReadSessionReady(p, d, i, call, sess, plainMax, |envs|)
    requires Timely(d.readSlots[i].armedAt, envs) && sess.counter + |envs| <= KEY_USE_LIMIT
    ensures sess.counter == d.readSlots[i].counter
    ensures ReadPolls(p, d, call, sess, plainMax, envs)
              == PollRun(SodAfterReads(p, d, i, |envs|, LastNow(d.readSlots[i].armedAt, envs)),
                         sess.(counter := sess.counter + |envs|), SecOk, ValuesRead(p, d.app, sess.dataId, |envs|))
  {
    var s := d.readSlots[i];
    if envs == [] {
      assert d.readSlots[i := s] == d.readSlots;
    } else {
      var n := |envs| - 1;
      var before, now := ReadPolls(p, d, call, sess, plainMax, envs[..n]), LastNow(s.armedAt, envs[..n]);
      assert TimelyAt(s.armedAt, envs, n) && d.entries[i].dataId == sess.dataId && d.entries[i].secureRo && s.counter == sess.counter;
      hide ReadSessionReady, ReadPollStep, PollReadReady, ReadLinked, AfterPollRead, FindIndex, SodAfterReads, AppAfterReads, Timely, TimelyAt;
      TimelyPrefix(s.armedAt, envs, n);
      ReadSessionPrefix(p, d, i, call, sess, plainMax, n + 1, n);
      AllReadPollsSucceed(p, d, i, call, sess, plainMax, envs[..n]);
      NthReadPollReady(p, d, i, call, sess, plainMax, envs, n);
      NextSod(p, d, i, n, now, envs[n]);
      SodAfterReadsApp(p, d, i, n, now);
      NextReadPoll(p, before, i, call, plainMax, envs[n]);
    }
  }

  lemma SodAfterReadsApp<A>(p: Port<A>, d: Sod<A>, i: nat, n: nat, now: u16)
    requires d.Shaped() && i < |d.entries| && d.readSlots[i].counter + n <= KEY_USE_LIMIT
    ensures var r := SodAfterReads(p, d, i, n, now);
            r.Shaped() && r.entries == d.entries && r.app == AppAfterReads(p, d.app, d.entries[i].dataId, n)
  {
  }

  /** One more poll of a run that has succeeded so far. */
  lemma NextReadPoll<A>(p: Port<A>, before: PollRun<A>, i: nat, call: Call, plainMax: nat, env: Env)
    requires before.sod.Valid() && At(before.sod, i, before.sess.dataId) && before.sod.entries[i].secureRo
    requires ReadLinked(before.sod, i, call, before.sess) && before.status == SecOk
    requires PollReadReady(p, before.sod, i, call, before.sess, plainMax, env)
    ensures ReadPollStep(p, before, call, plainMax, env)
              == PollRun(AfterPollRead(p, before.sod, i, env), before.sess.(counter := before.sess.counter + 1), SecOk,
                         before.values + [p.readBefore(before.sod.app, before.sess.dataId).plain])
  {
    hide PollRead, PollReadReady, PollReadCollides, AfterPollRead;
    PollReadCorrect(p, before.sod, i, call, before.sess, plainMax, env);
  }

  /** At the key-use limit the client refuses to poll, and sends nothing. */
  lemma ReadLimitStops<A>(p: Port<A>, d: Sod<A>, call: Call, sess: Session, plainMax: nat, env: Env)
    requires d.Shaped() && sess.counter >= KEY_USE_LIMIT
    ensures PollRead(p, d, call, sess, plainMax, env) == Poll(d, sess, Protocol, [], None)
  {
  }

  /* ---- One write poll ---- */

  /** The server's write slot and the client's session belong to one cyclic session. */
  predicate WriteLinked<A>(d: Sod<A>, i: nat, call: Call, sess: Session)
    requires d.Shaped() && i < |d.entries|
  {
    var w := d.writeSlots[i];
    && sess.inUse && w.inUse && w.cyclic
    && sess.dataId == d.entries[i].dataId && w.clientDev == call.client
    && w.keyId == sess.keyId && w.nonceBase == sess.nonceBase
  }

  predicate PollWriteReady<A>(p: Port<A>, d: Sod<A>, i: nat, call: Call, sess: Session, plain: seq<byte>, env: Env)
    requires d.Shaped() && i < |d.entries|
  {
    var e, w := d.entries[i], d.writeSlots[i];
    var base := BaseId(w.keyId);
    && env.fate == Delivered && SessionFresh(env.now, w.armedAt) && e.secureWo
    && sess.counter == w.counter < KEY_USE_LIMIT
    && p.roleAllowed(d.app, OpWrite, base, e.dataId) && HoldsKey(d.keys, base, call.key) && SameServer(p, call)
    && 0 < |plain| == e.dataLen && WriteHookOk(p, d.app, d.keys, d.lastKid, e, plain)
  }

  function AfterPollWrite<A>(p: Port<A>, d: Sod<A>, i: nat, plain: seq<byte>, env: Env): Sod<A>
    requires d.Shaped() && i < |d.entries| && d.writeSlots[i].counter < KEY_USE_LIMIT
  {
    var w := d.writeSlots[i];
    var h := p.writeAfter(d.app, d.keys, d.lastKid, d.entries[i].dataId, plain);
    d.(writeSlots := d.writeSlots[i := w.(counter := w.counter + 1, armedAt := env.now)], app := h.app, keys := h.keys)
  }

  function PollText(g: Gcm, call: Call, sess: Session, counter: u32, plain: seq<byte>): (text: seq<byte>)
    requires |plain| <= MAX_PROTECTED
    ensures |text| == |plain|
  {
    Seal(g, call.key, SessionNonce(sess.nonceBase, counter), PollContext(DIR_WRITE_POLL_REQUEST, call, sess), None,
         plain).value.text
  }

  /** The query a write poll is sealed under. */
  function SentQuery(g: Gcm, call: Call, sess: Session, counter: u32, plain: seq<byte>): Query
    requires |plain| <= MAX_PROTECTED
  {
    QueryFor(call.key, SessionNonce(sess.nonceBase, counter), PollContext(DIR_WRITE_POLL_REQUEST, call, sess), None,
             PollText(g, call, sess, counter, plain))
  }

  /** The query the server checks it against. */
  function CheckedQuery<A>(p: Port<A>, e: Entry, w: WriteSlot, key: Key, counter: u32, text: seq<byte>): Query
    requires |text| <= MAX_PROTECTED
  {
    QueryFor(key, SessionNonce(w.nonceBase, counter), ContextOf(p, DIR_WRITE_POLL_REQUEST, w.keyId, w.clientDev, e),
             None, text)
  }

  /** One tag for the query the client sealed under and the different one the server checked. */
  ghost predicate PollWriteCollides<A>(p: Port<A>, d: Sod<A>, i: nat, call: Call, sess: Session, plain: seq<byte>)
    requires d.Valid() && i < |d.entries|
  {
    var e, w := d.entries[i], d.writeSlots[i];
    && |plain| <= MAX_PROTECTED && sess.counter < KEY_USE_LIMIT
    && var sent := SentQuery(p.gcm, call, sess, sess.counter + 1, plain);
       var frame := PollFrame(p.gcm, call, sess, sess.counter + 1, plain);
       || (&& BaseId(w.keyId) in d.keys && w.counter < KEY_USE_LIMIT
           && Collide(p.gcm, sent, CheckedQuery(p, e, w, d.keys[BaseId(w.keyId)].key, w.counter + 1,
                                                PollText(p.gcm, call, sess, sess.counter + 1, plain))))
       || (&& |plain| == RAND_SIZE + e.dataLen && BaseId(frame[0]) in d.keys
           && Collide(p.gcm, sent, PassTwoQuery(p, e, w, d.keys[BaseId(frame[0])].key, frame)))
  }

  /** A poll-sized body on a live session goes to the poll handler; any other length, to the Pass-2 handler. */
  lemma PollWriteReaches<A>(p: Port<A>, d: Sod<A>, i: nat, client: u16, dataId: u32, frame: seq<byte>, env: Env)
    requires d.Valid() && At(d, i, dataId) && env.fate != RequestLost
    requires d.entries[i].secureWo && d.writeSlots[i].inUse && d.writeSlots[i].cyclic && |frame| > 1 + TAG_SIZE
    ensures var q := Request(client, frame, env.now, env.random, REPLY_MAX);
            var e, w := d.entries[i], d.writeSlots[i];
            var a := if |frame| == 1 + e.dataLen + TAG_SIZE then WritePoll(p, e, w, d.app, d.keys, d.lastKid, q)
                     else VerifyApply(p, e, w, d.app, d.keys, d.lastKid, q);
            Exchange(p, d, client, dataId, frame, env)
              == Round(d.(writeSlots := d.writeSlots[i := a.slot], app := a.app, keys := a.keys, lastKid := a.lastKid),
                       if env.fate == Delivered then Some(a.reply) else None, a.commit)
  {
    hide ReadPoll, ArmRead, WritePoll, VerifyApply, ArmWrite;
  }

  predicate PollAdmitted<A>(p: Port<A>, e: Entry, w: WriteSlot, app: A, keys: KeyStore, low: byte, now: u16) {
    && SessionFresh(now, w.armedAt) && w.counter < KEY_USE_LIMIT && low == (w.counter + 1) % 0x100
    && p.roleAllowed(app, OpWrite, BaseId(w.keyId), e.dataId) && BaseId(w.keyId) in keys
  }

  function OpenPoll<A>(p: Port<A>, e: Entry, w: WriteSlot, key: Key, counter: u32, body: seq<byte>): Option<seq<byte>>
    requires |body| == 1 + e.dataLen + TAG_SIZE
  {
    Open(p.gcm, key, SessionNonce(w.nonceBase, counter), ContextOf(p, DIR_WRITE_POLL_REQUEST, w.keyId, w.clientDev, e),
         None, body[1..1 + e.dataLen], body[1 + e.dataLen..])
  }

  /** The poll handler on a session of its client: when it commits, and what. */
  lemma PollIsCommitted<A>(p: Port<A>, e: Entry, w: WriteSlot, app: A, keys: KeyStore, lastKid: byte, q: Request)
    requires |q.body| == 1 + e.dataLen + TAG_SIZE && w.inUse && w.cyclic && w.clientDev == q.client
    ensures var r := WritePoll(p, e, w, app, keys, lastKid, q);
            if PollAdmitted(p, e, w, app, keys, q.body[0], q.now) then
              var plain := OpenPoll(p, e, w, keys[BaseId(w.keyId)].key, w.counter + 1, q.body);
              if plain.Some? && WriteHookOk(p, app, keys, lastKid, e, plain.value) then
                var h := p.writeAfter(app, keys, lastKid, e.dataId, plain.value);
                r == WriteOutcome(w.(counter := w.counter + 1, armedAt := q.now), h.app, h.keys, lastKid, Accepted([]),
                                  Some(Commit(plain.value, BaseId(w.keyId), w.counter + 1, false)))
              else r.reply.Refused? && r.slot == w && r.commit.None?
            else r.reply.Refused? && r.commit.None? && (r.slot == w || r.slot == w.(inUse := false))
  {
    hide Open, SessionNonce;
  }

  lemma PollFrameSplits(g: Gcm, call: Call, sess: Session, counter: u32, plain: seq<byte>)
    requires |plain| <= MAX_PROTECTED
    ensures var f := PollFrame(g, call, sess, counter, plain);
            && f[0] == counter % 0x100
            && f[1..1 + |plain|] == PollText(g, call, sess, counter, plain)
            && f[1 + |plain|..] == g.tag(SentQuery(g, call, sess, counter, plain))
  {
    hide QueryFor, SessionNonce, Crypt;
  }

  /** The server's opening of a poll frame under its own counter. */
  lemma PollFrameOpens<A>(p: Port<A>, e: Entry, w: WriteSlot, key: Key, call: Call, sess: Session, counter: u32,
                          plain: seq<byte>)
    requires |plain| == e.dataLen <= MAX_PROTECTED && w.counter < KEY_USE_LIMIT
    requires w.clientDev == call.client && w.keyId == sess.keyId && w.nonceBase == sess.nonceBase && sess.dataId == e.dataId
    ensures var r := OpenPoll(p, e, w, key, w.counter + 1, PollFrame(p.gcm, call, sess, counter, plain));
            var ready := counter == w.counter + 1 && key == call.key && SameServer(p, call);
            && (ready ==> r == Some(plain))
            && (r.Some? ==> ready || Collide(p.gcm, SentQuery(p.gcm, call, sess, counter, plain),
                                             CheckedQuery(p, e, w, key, w.counter + 1,
                                                          PollText(p.gcm, call, sess, counter, plain))))
  {
    var nonce, nonce' := SessionNonce(sess.nonceBase, counter), SessionNonce(w.nonceBase, w.counter + 1);
    var ctx := PollContext(DIR_WRITE_POLL_REQUEST, call, sess);
    var ctx' := ContextOf(p, DIR_WRITE_POLL_REQUEST, w.keyId, w.clientDev, e);
    var text := PollText(p.gcm, call, sess, counter, plain);
    PollFrameSplits(p.gcm, call, sess, counter, plain);
    QueryBinds(call.key, nonce, ctx, None, text, key, nonce', ctx', None, text);
    OpenInvertsSeal(p.gcm, call.key, nonce, ctx, None, plain);
    if nonce == nonce' {
      SessionNonceInjective(sess.nonceBase, counter, w.counter + 1);
    }
  }

  /** A poll frame accepted as a Pass 2 is a collision: the two directions differ. */
  lemma MistakenPassTwo<A>(p: Port<A>, d: Sod<A>, i: nat, call: Call, sess: Session, plain: seq<byte>, env: Env)
    requires d.Valid() && i < |d.entries| && 0 < |plain| <= MAX_PROTECTED && sess.counter < KEY_USE_LIMIT
    requires |plain| != d.entries[i].dataLen
    ensures var frame := PollFrame(p.gcm, call, sess, sess.counter + 1, plain);
            var r := VerifyApply(p, d.entries[i], d.writeSlots[i], d.app, d.keys, d.lastKid,
                                 Request(call.client, frame, env.now, env.random, REPLY_MAX));
            r.reply.Refused? || (r.commit.Some? && PollWriteCollides(p, d, i, call, sess, plain))
  {
    hide VerifyApply, PollFrame, PollText, SentQuery, XorSeq, QueryFor;
    var e, w := d.entries[i], d.writeSlots[i];
    var frame := PollFrame(p.gcm, call, sess, sess.counter + 1, plain);
    var q := Request(call.client, frame, env.now, env.random, REPLY_MAX);
    PassTwoAnswers(p, e, w, d.app, d.keys, d.lastKid, q);
    if VerifyApply(p, e, w, d.app, d.keys, d.lastKid, q).commit.Some? {
      CommitChecked(p, e, w, d.app, d.keys, d.lastKid, q);
      PollFrameSplits(p.gcm, call, sess, sess.counter + 1, plain);
      assert frame[13 + e.dataLen..] == frame[1 + |plain|..];
      PassTwoIsNoPoll(p, e, w, d.keys[BaseId(frame[0])].key, frame, call, sess, sess.counter + 1, plain);
    }
  }

  /** The two directions differ, so no frame is checked as a Pass 2 against what it was sealed under as a poll. */
  lemma PassTwoIsNoPoll<A>(p: Port<A>, e: Entry, w: WriteSlot, key: Key, frame: seq<byte>, call: Call, sess: Session, counter: u32,
                           plain: seq<byte>)
    requires |frame| == 1 + RAND_SIZE + e.dataLen + TAG_SIZE && e.dataLen <= MAX_PROTECTED && |plain| <= MAX_PROTECTED
    ensures SentQuery(p.gcm, call, sess, counter, plain) != PassTwoQuery(p, e, w, key, frame)
  {
    hide QueryFor, XorSeq, PollText, SessionNonce;
    QueryBinds(call.key, SessionNonce(sess.nonceBase, counter), PollContext(DIR_WRITE_POLL_REQUEST, call, sess), None,
               PollText(p.gcm, call, sess, counter, plain), key, XorSeq(frame[1..13], w.serverRandom),
               ContextOf(p, DIR_WRITE_REQUEST, frame[0], w.clientDev, e), Some(Randoms(frame[1..13], w.serverRandom)),
               frame[13..13 + e.dataLen]);
  }

  /**
   * A write poll succeeds when both counters agree and everything is ready,
   * and then commits the caller's bytes under that counter and moves both; it
   * succeeds otherwise only by a tag collision.
   */
  lemma PollWriteCorrect<A>(p: Port<A>, d: Sod<A>, i: nat, call: Call, sess: Session, plain: seq<byte>, env: Env)
    requires d.Valid() && At(d, i, sess.dataId) && d.entries[i].secureWo && WriteLinked(d, i, call, sess)
    ensures var r := PollWrite(p, d, call, sess, plain, env);
            && (PollWriteReady(p, d, i, call, sess, plain, env) ==>
                  r == Poll(AfterPollWrite(p, d, i, plain, env), sess.(counter := sess.counter + 1), SecOk, [],
                            Some(Commit(plain, BaseId(sess.keyId), sess.counter + 1, false))))
            && (r.status == SecOk ==>
                  PollWriteReady(p, d, i, call, sess, plain, env) || PollWriteCollides(p, d, i, call, sess, plain))
  {
    hide Exchange, PollFrame, OpenPoll, WritePoll, VerifyApply, Collide, QueryFor, PollText, SessionNonce;
    var e, w := d.entries[i], d.writeSlots[i];
    if sess.counter < KEY_USE_LIMIT && 0 < |plain| <= MAX_PROTECTED {
      var frame := PollFrame(p.gcm, call, sess, sess.counter + 1, plain);
      PollFrameSplits(p.gcm, call, sess, sess.counter + 1, plain);
      if env.fate != Delivered {
        LostMeansTimeout(p, d, call.client, sess.dataId, frame, env);
      } else {
        PollWriteReaches(p, d, i, call.client, sess.dataId, frame, env);
        if |plain| != e.dataLen {
          MistakenPassTwo(p, d, i, call, sess, plain, env);
        } else {
          PollIsCommitted(p, e, w, d.app, d.keys, d.lastKid, Request(call.client, frame, env.now, env.random, REPLY_MAX));
          if PollAdmitted(p, e, w, d.app, d.keys, frame[0], env.now) {
            PollFrameOpens(p, e, w, d.keys[BaseId(w.keyId)].key, call, sess, sess.counter + 1, plain);
          }
        }
      }
    }
  }

  /* ---- Runs of write polls ---- */

  datatype Host<+A> = Host(app: A, keys: KeyStore)

  /** The host's state and the key store after `n` more writes of the same value. */
  function HostAfterWrites<A>(p: Port<A>, app: A, keys: KeyStore, lastKid: byte, dataId: u32, plain: seq<byte>, n: nat): Host<A> {
    if n == 0 then Host(app, keys)
    else
      var before := HostAfterWrites(p, app, keys, lastKid, dataId, plain, n - 1);
      var h := p.writeAfter(before.app, before.keys, lastKid, dataId, plain);
      Host(h.app, h.keys)
  }

  predicate WritePermitted<A>(p: Port<A>, e: Entry, base: byte, key: Key, lastKid: byte, host: Host<A>, plain: seq<byte>) {
    && p.roleAllowed(host.app, OpWrite, base, e.dataId) && HoldsKey(host.keys, base, key)
    && WriteHookOk(p, host.app, host.keys, lastKid, e, plain)
  }

  ghost predicate WriteSessionReady<A>(p: Port<A>, d: Sod<A>, i: nat, call: Call, sess: Session, plain: seq<byte>, n: nat)
    requires d.Shaped() && i < |d.entries|
  {
    var e, w := d.entries[i], d.writeSlots[i];
    && e.secureWo && WriteLinked(d, i, call, sess) && w.counter == sess.counter
    && SameServer(p, call) && 0 < |plain| == e.dataLen
    && forall k :: 0 <= k < n ==>
         WritePermitted(p, e, BaseId(w.keyId), call.key, d.lastKid,
                        HostAfterWrites(p, d.app, d.keys, d.lastKid, e.dataId, plain, k), plain)
  }

  lemma NextWritePoll<A>(p: Port<A>, before: PollRun<A>, i: nat, call: Call, plain: seq<byte>, env: Env)
    requires before.sod.Valid() && At(before.sod, i, before.sess.dataId) && before.sod.entries[i].secureWo
    requires WriteLinked(before.sod, i, call, before.sess) && before.status == SecOk
    requires PollWriteReady(p, before.sod, i, call, before.sess, plain, env)
    ensures WritePollStep(p, before, call, plain, env)
              == PollRun(AfterPollWrite(p, before.sod, i, plain, env), before.sess.(counter := before.sess.counter + 1),
                         SecOk, before.values + [plain])
  {
    hide PollWrite, PollWriteReady, PollWriteCollides, AfterPollWrite;
    PollWriteCorrect(p, before.sod, i, call, before.sess, plain, env);
  }

  /** Every write poll within the key-use limit commits the value once, and the counters stay equal. */
  lemma {:induction false} AllWritePollsSucceed<A>(p: Port<A>, d: Sod<A>, i: nat, call: Call, sess: Session, plain: seq<byte>,
                                                   envs: seq<Env>)
    requires d.Valid() && At(d, i, sess.dataId) && WriteSessionReady(p, d, i, call, sess, plain, |envs|)
    requires Timely(d.writeSlots[i].armedAt, envs) && sess.counter + |envs| <= KEY_USE_LIMIT
    ensures var n := |envs|;
            var w := d.writeSlots[i];
            var run := WritePolls(p, d, call, sess, plain, envs);
            var host := HostAfterWrites(p, d.app, d.keys, d.lastKid, sess.dataId, plain, n);
            && run.status == SecOk && run.sess == sess.(counter := sess.counter + n)
            && run.sod == d.(writeSlots := d.writeSlots[i := w.(counter := w.counter + n, armedAt := LastNow(w.armedAt, envs))],
                             app := host.app, keys := host.keys)
            && |run.values| == n
            && forall k :: 0 <= k < n ==> run.values[k] == plain
  {
    hide WritePollStep, SameServer, WriteHookOk;
    var w := d.writeSlots[i];
    if envs == [] {
      assert d.writeSlots[i := w] == d.writeSlots;
    } else {
      var n := |envs| - 1;
      TimelyPrefix(w.armedAt, envs, n);
      AllWritePollsSucceed(p, d, i, call, sess, plain, envs[..n]);
      assert TimelyAt(w.armedAt, envs, n);
      assert WritePermitted(p, d.entries[i], BaseId(w.keyId), call.key, d.lastKid,
                            HostAfterWrites(p, d.app, d.keys, d.lastKid, sess.dataId, plain, n), plain);
      NextWritePoll(p, WritePolls(p, d, call, sess, plain, envs[..n]), i, call, plain, envs[n]);
    }
  }

  lemma WriteLimitStops<A>(p: Port<A>, d: Sod<A>, call: Call, sess: Session, plain: seq<byte>, env: Env)
    requires d.Shaped() && sess.counter >= KEY_USE_LIMIT && sess.inUse && 0 < |plain| <= MAX_PROTECTED
    ensures PollWrite(p, d, call, sess, plain, env) == Poll(d, sess, Protocol, [], None)
  {
  }

  /* ---- Arming and polling ---- */

  function Within(n: nat): nat { if n <= KEY_USE_LIMIT then n else KEY_USE_LIMIT }

  /**
   * Arm, then poll any number of times: the first million polls deliver the
   * host's values with both counters at the number of polls; the next one is
   * refused by the client.
   */
  lemma ReadSessionCorrect<A>(p: Port<A>, d: Sod<A>, i: nat, call: Call, bufSize: nat, random: Option<Nonce>, e1: Env, e2: Env,
                              polls: seq<Env>)
    requires d.Valid() && At(d, i, call.dataId) && ReadReady(p, d, i, Armed(call), bufSize, random, e1, e2)
    requires Timely(e2.now, polls)
    requires ReadsPermitted(p, d.entries[i], BaseId(call.keyId), p.readBefore(d.app, call.dataId).app, Within(|polls|))
    ensures var first := ReadFlow(p, d, Armed(call), bufSize, random, e1, e2);
            var sess := ArmedSession(NO_CYCLE, Armed(call), first);
            var run := ReadPolls(p, first.sod, call, sess, bufSize, polls);
            var app := p.readBefore(d.app, call.dataId).app;
            && first.status == SecOk && first.plain == p.readBefore(d.app, call.dataId).plain
            && run.status == (if |polls| <= KEY_USE_LIMIT then SecOk else Protocol)
            && |run.values| == Within(|polls|) == run.sess.counter == run.sod.readSlots[i].counter
            && forall k :: 0 <= k < |run.values| ==>
                 run.values[k] == p.readBefore(AppAfterReads(p, app, call.dataId, k), call.dataId).plain
  {
    hide ReadFlow, ReadPollStep, PollRead, ReadCollides, ReadHookOk, SealedFor;
    ReadCorrect(p, d, i, Armed(call), bufSize, random, e1, e2);
    var first := ReadFlow(p, d, Armed(call), bufSize, random, e1, e2);
    var sess := ArmedSession(NO_CYCLE, Armed(call), first);
    var n := Within(|polls|);
    TimelyPrefix(e2.now, polls, n);
    AllReadPollsSucceed(p, first.sod, i, call, sess, bufSize, polls[..n]);
    if n == |polls| {
      assert polls[..n] == polls;
    } else {
      ReadRunStops(p, first.sod, call, sess, bufSize, polls, n);
    }
  }

  lemma ReadRunStops<A>(p: Port<A>, d: Sod<A>, call: Call, sess: Session, plainMax: nat, polls: seq<Env>, n: nat)
    requires d.Shaped() && n < |polls| && ReadPolls(p, d, call, sess, plainMax, polls[..n]).status == SecOk
    requires ReadPolls(p, d, call, sess, plainMax, polls[..n]).sess.counter >= KEY_USE_LIMIT
    ensures ReadPolls(p, d, call, sess, plainMax, polls)
              == ReadPolls(p, d, call, sess, plainMax, polls[..n]).(status := Protocol)
  {
    hide PollRead;
    var before := ReadPolls(p, d, call, sess, plainMax, polls[..n]);
    assert polls[..n + 1][..n] == polls[..n];
    ReadLimitStops(p, before.sod, call, before.sess, plainMax, polls[n]);
    ReadPollsStop(p, d, call, sess, plainMax, polls, n + 1);
  }

  lemma WriteRunStops<A>(p: Port<A>, d: Sod<A>, call: Call, sess: Session, plain: seq<byte>, polls: seq<Env>, n: nat)
    requires d.Shaped() && n < |polls| && WritePolls(p, d, call, sess, plain, polls[..n]).status == SecOk
    requires WritePolls(p, d, call, sess, plain, polls[..n]).sess.counter >= KEY_USE_LIMIT
    requires WritePolls(p, d, call, sess, plain, polls[..n]).sess.inUse && 0 < |plain| <= MAX_PROTECTED
    ensures WritePolls(p, d, call, sess, plain, polls)
              == WritePolls(p, d, call, sess, plain, polls[..n]).(status := Protocol)
  {
    hide PollWrite;
    var before := WritePolls(p, d, call, sess, plain, polls[..n]);
    assert polls[..n + 1][..n] == polls[..n];
    WriteLimitStops(p, before.sod, call, before.sess, plain, polls[n]);
    WritePollsStop(p, d, call, sess, plain, polls, n + 1);
  }

  /** The host after the armed write and `n` polls: it took the value that often. */
  function HostAfterSession<A>(p: Port<A>, d: Sod<A>, call: Call, plain: seq<byte>, n: nat): Host<A> {
    var base := BaseId(call.keyId);
    var h := p.writeAfter(d.app, d.keys, base, call.dataId, plain);
    HostAfterWrites(p, h.app, h.keys, base, call.dataId, plain, n)
  }

  /** After the armed write, the host permits and takes the value `n` times more. */
  ghost predicate WritesPermitted<A>(p: Port<A>, d: Sod<A>, i: nat, call: Call, plain: seq<byte>, n: nat)
    requires i < |d.entries|
  {
    var base := BaseId(call.keyId);
    var h := p.writeAfter(d.app, d.keys, base, call.dataId, plain);
    forall k :: 0 <= k < n ==>
      WritePermitted(p, d.entries[i], base, call.key, base, HostAfterWrites(p, h.app, h.keys, base, call.dataId, plain, k), plain)
  }

  /** The same for writes: each of the first million polls commits the value exactly once, and the host took each. */
  lemma WriteSessionCorrect<A>(p: Port<A>, d: Sod<A>, i: nat, call: Call, plain: seq<byte>, random: Option<Nonce>,
                               e1: Env, e2: Env, polls: seq<Env>)
    requires d.Valid() && At(d, i, call.dataId) && WriteReady(p, d, i, Armed(call), plain, random, e1, e2)
    requires Timely(e2.now, polls)
    requires WritesPermitted(p, d, i, call, plain, Within(|polls|))
    ensures var first := WriteFlow(p, d, Armed(call), plain, random, e1, e2);
            var sess := ArmedSession(NO_CYCLE, Armed(call), first);
            var run := WritePolls(p, first.sod, call, sess, plain, polls);
            && first.status == SecOk && first.commit.Some? && first.commit.value.plain == plain
            && run.status == (if |polls| <= KEY_USE_LIMIT then SecOk else Protocol)
            && |run.values| == Within(|polls|) == run.sess.counter == run.sod.writeSlots[i].counter
            && (forall k :: 0 <= k < |run.values| ==> run.values[k] == plain)
            && var host := HostAfterSession(p, d, call, plain, Within(|polls|));
               run.sod.app == host.app && run.sod.keys == host.keys
  {
    hide WriteFlow, WritePollStep, PollWrite, WriteCollides, WriteHookOk, Challenges;
    WriteCorrect(p, d, i, Armed(call), plain, random, e1, e2);
    ChallengeHasRandom(p, d, i, call.client, e1);
    var first := WriteFlow(p, d, Armed(call), plain, random, e1, e2);
    var sess := ArmedSession(NO_CYCLE, Armed(call), first);
    var n := Within(|polls|);
    TimelyPrefix(e2.now, polls, n);
    AllWritePollsSucceed(p, first.sod, i, call, sess, plain, polls[..n]);
    if n == |polls| {
      assert polls[..n] == polls;
    } else {
      WriteRunStops(p, first.sod, call, sess, plain, polls, n);
    }
  }
}
