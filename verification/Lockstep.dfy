/**
 * Cyclic sessions over a channel that may lose any request or reply, with
 * other traffic in between: how far the two counters can drift, and what the
 * two sides have then exchanged.
 */
module Lockstep {
  import opened Bytes
  import opened Aborts
  import opened Aead
  import opened Channel
  import opened SecureOd
  import opened SodRuns
  import opened SecureProto
  import opened Tunnel
  import opened PollRuns

  /* ---- Read sessions ---- */

  /** A poll by the session's client, any request by a bystander, or a change of keys and host state. */
  datatype ReadEvent<+A> = OwnPoll(env: Env) | Foreign(x: Input) | Aside(app: A, keys: KeyStore)

  /** `got`: what the client accepted; `served`: what the server sealed for polls. Both since arming. */
  datatype ReadTrail<+A> = ReadTrail(sod: Sod<A>, sess: Session, got: seq<seq<byte>>, served: seq<seq<byte>>)

  function ReadStep<A>(p: Port<A>, i: nat, call: Call, plainMax: nat, st: ReadTrail<A>, ev: ReadEvent<A>): (r: ReadTrail<A>)
    requires st.sod.Shaped() && i < |st.sod.entries|
    ensures r.sod.Shaped() && r.sod.entries == st.sod.entries
  {
    match ev
    case Foreign(x) => st.(sod := Dispatch(p, st.sod, x.dataId, x.q).sod)
    case Aside(app, keys) => st.(sod := st.sod.(app := app, keys := keys))
    case OwnPoll(env) =>
      var r := PollRead(p, st.sod, call, st.sess, plainMax, env);
      var advanced := r.sod.readSlots[i].counter > st.sod.readSlots[i].counter;
      ReadTrail(r.sod, r.sess, if r.status == SecOk then st.got + [r.plain] else st.got,
                if advanced then st.served + [p.readBefore(st.sod.app, st.sess.dataId).plain] else st.served)
  }

  function ReadTrailOf<A>(p: Port<A>, i: nat, call: Call, plainMax: nat, st: ReadTrail<A>, events: seq<ReadEvent<A>>): (r: ReadTrail<A>)
    requires st.sod.Shaped() && i < |st.sod.entries|
    ensures r.sod.Shaped() && r.sod.entries == st.sod.entries
  {
    if events == [] then st
    else
      var n := |events| - 1;
      ReadStep(p, i, call, plainMax, ReadTrailOf(p, i, call, plainMax, st, events[..n]), events[n])
  }

  /** A request of another client, or of this client to another entry. */
  predicate Bystander<A>(d: Sod<A>, i: nat, call: Call, x: Input) { x.q.client != call.client || !Hits(d, i, x) }

  /** Nobody else uses the client's node id on the session's entry. */
  predicate OthersOnly<A>(st: ReadTrail<A>, i: nat, call: Call, events: seq<ReadEvent<A>>) {
    forall k :: 0 <= k < |events| && events[k].Foreign? ==> Bystander(st.sod, i, call, events[k].x)
  }

  /** No poll of the run meets a tag collision. */
  ghost predicate CleanReads<A>(p: Port<A>, i: nat, call: Call, plainMax: nat, st: ReadTrail<A>, events: seq<ReadEvent<A>>)
    requires st.sod.Shaped() && i < |st.sod.entries|
  {
    events != [] ==>
      var n := |events| - 1;
      var before := ReadTrailOf(p, i, call, plainMax, st, events[..n]);
      && CleanReads(p, i, call, plainMax, st, events[..n])
      && (events[n].OwnPoll? && before.sod.Valid() ==> !PollReadCollides(p, before.sod, i, call, before.sess))
  }

  predicate ReadAlive<A>(d: Sod<A>, i: nat, call: Call)
    requires d.Shaped() && i < |d.entries|
  {
    d.readSlots[i].inUse && d.readSlots[i].cyclic && d.readSlots[i].clientDev == call.client
  }

  ghost predicate InStep<A>(i: nat, call: Call, st: ReadTrail<A>) {
    && st.sod.Valid() && At(st.sod, i, st.sess.dataId) && st.sod.entries[i].secureRo && st.sess.inUse
    && |st.got| == st.sess.counter <= |st.served| <= st.sess.counter + 1
    && (ReadAlive(st.sod, i, call) ==> ReadLinked(st.sod, i, call, st.sess) && st.sod.readSlots[i].counter == |st.served|)
  }

  predicate Agree(got: seq<seq<byte>>, served: seq<seq<byte>>) { got <= served }

  /** Requests of bystanders can end the session but not touch its counter, key or nonce base. */
  lemma ForeignKeepsReadSession<A>(p: Port<A>, d: Sod<A>, i: nat, call: Call, x: Input)
    requires d.Valid() && i < |d.entries| && Bystander(d, i, call, x)
    ensures var r := Dispatch(p, d, x.dataId, x.q).sod;
            ReadAlive(r, i, call) ==>
              && ReadAlive(d, i, call)
              && var s, s' := d.readSlots[i], r.readSlots[i];
                 s'.counter == s.counter && s'.keyId == s.keyId && s'.nonceBase == s.nonceBase
  {
    hide Seal, SessionNonce, WritePoll, VerifyApply, ArmWrite;
    if !Hits(d, i, x) {
      OtherEntryUntouched(p, d, i, x);
    }
  }

  /** Without a session at the server, a poll gets nothing and starts nothing. */
  lemma PollWithoutSession<A>(p: Port<A>, d: Sod<A>, i: nat, call: Call, sess: Session, plainMax: nat, env: Env)
    requires d.Valid() && At(d, i, sess.dataId) && sess.inUse && !ReadAlive(d, i, call)
    ensures var r := PollRead(p, d, call, sess, plainMax, env);
            r.status != SecOk && r.sess == sess && r.sod.readSlots[i] == d.readSlots[i]
  {
    hide Seal, SessionNonce, WritePoll, VerifyApply, ArmRead, Open;
  }

  /** A poll in a live session is served only when the counters agree; otherwise nothing is accepted. */
  lemma PollOutcome<A>(p: Port<A>, i: nat, call: Call, plainMax: nat, st: ReadTrail<A>, env: Env)
    requires InStep(i, call, st) && ReadAlive(st.sod, i, call)
    ensures var s := st.sod.readSlots[i];
            var r := PollRead(p, st.sod, call, st.sess, plainMax, env);
            var s' := r.sod.readSlots[i];
            && r.sess == (if r.status == SecOk then st.sess.(counter := s.counter + 1) else st.sess)
            && (if s'.counter > s.counter then s.counter == st.sess.counter && s' == s.(counter := s.counter + 1, armedAt := env.now)
                else r.status != SecOk && (s' == s || s' == s.(inUse := false)))
            && (r.status == SecOk && !PollReadCollides(p, st.sod, i, call, st.sess) ==>
                  r.plain == p.readBefore(st.sod.app, st.sess.dataId).plain)
  {
    hide Exchange, OpenPollReply, ReadPoll, PollReadCollides, ReadHookOk, PollSealed;
    var d, s, e := st.sod, st.sod.readSlots[i], st.sod.entries[i];
    var low := (st.sess.counter + 1) % 0x100;
    if st.sess.counter < KEY_USE_LIMIT && env.fate != RequestLost {
      PollReaches(p, d, i, call.client, st.sess.dataId, low, env);
      PollIsServed(p, e, s, d.app, d.keys, call.client, low, env);
      PollReadCorrect(p, d, i, call, st.sess, plainMax, env);
    } else if env.fate == RequestLost {
      PollExchangeIsDispatch(p, d, call.client, st.sess.dataId, [low], env);
    }
  }

  /** A poll in a live session: the server moves at most one step ahead of the client. */
  lemma PollInSession<A>(p: Port<A>, i: nat, call: Call, plainMax: nat, st: ReadTrail<A>, env: Env)
    requires InStep(i, call, st) && ReadAlive(st.sod, i, call)
    ensures InStep(i, call, ReadStep(p, i, call, plainMax, st, OwnPoll(env)))
    ensures var r := ReadStep(p, i, call, plainMax, st, OwnPoll(env));
            && (|st.served| == |st.got| + 1 ==> r.got == st.got && r.served == st.served)
            && (Agree(st.got, st.served) && !PollReadCollides(p, st.sod, i, call, st.sess) ==> Agree(r.got, r.served))
  {
    hide PollRead, PollReadCollides;
    PollOutcome(p, i, call, plainMax, st, env);
    PollKeepsValid(p, st.sod, call, st.sess, plainMax, env);
  }

  lemma PollExchangeIsDispatch<A>(p: Port<A>, d: Sod<A>, client: u16, dataId: u32, body: seq<byte>, env: Env)
    requires d.Shaped()
    ensures var r := Exchange(p, d, client, dataId, body, env);
            if env.fate == RequestLost then r == Round(d, None, None)
            else r.sod == Dispatch(p, d, dataId, Request(client, body, env.now, env.random, REPLY_MAX)).sod
  {
    hide Dispatch;
  }

  lemma ReadStepKeepsStep<A>(p: Port<A>, i: nat, call: Call, plainMax: nat, st: ReadTrail<A>, ev: ReadEvent<A>)
    requires InStep(i, call, st) && (ev.Foreign? ==> Bystander(st.sod, i, call, ev.x))
    ensures InStep(i, call, ReadStep(p, i, call, plainMax, st, ev))
    ensures var r := ReadStep(p, i, call, plainMax, st, ev);
            && ((ReadAlive(st.sod, i, call) ==> |st.served| == |st.got| + 1) ==> r.got == st.got && r.served == st.served)
            && (Agree(st.got, st.served) && (ev.OwnPoll? ==> !PollReadCollides(p, st.sod, i, call, st.sess)) ==>
                  Agree(r.got, r.served))
            && (ReadAlive(r.sod, i, call) ==> ReadAlive(st.sod, i, call))
  {
    hide Exchange, Dispatch, PollReadCollides, PollRead;
    match ev {
      case Aside(_, _) =>
      case Foreign(x) =>
        ForeignKeepsReadSession(p, st.sod, i, call, x);
        DispatchKeepsValid(p, st.sod, x.dataId, x.q);
      case OwnPoll(env) =>
        if ReadAlive(st.sod, i, call) {
          PollInSession(p, i, call, plainMax, st, env);
        } else {
          PollWithoutSession(p, st.sod, i, call, st.sess, plainMax, env);
          PollKeepsValid(p, st.sod, call, st.sess, plainMax, env);
        }
    }
  }

  lemma PollKeepsValid<A>(p: Port<A>, d: Sod<A>, call: Call, sess: Session, plainMax: nat, env: Env)
    requires d.Valid()
    ensures PollRead(p, d, call, sess, plainMax, env).sod.Valid()
  {
    hide Dispatch, OpenPollReply;
    if sess.counter < KEY_USE_LIMIT {
      DispatchKeepsValid(p, d, sess.dataId,
                         Request(call.client, [(sess.counter + 1) % 0x100], env.now, env.random, REPLY_MAX));
    }
  }

  /**
   * Over every run with losses and foreign traffic: while the session lives
   * both sides hold one nonce base and key id, and the server's counter equals
   * the client's or is one ahead. The client accepted a prefix of what the
   * server sealed, value by value and counter by counter.
   */
  lemma {:induction false} LossyReadLockstep<A>(p: Port<A>, i: nat, call: Call, plainMax: nat, st: ReadTrail<A>,
                                                events: seq<ReadEvent<A>>)
    requires InStep(i, call, st) && OthersOnly(st, i, call, events)
    ensures var r := ReadTrailOf(p, i, call, plainMax, st, events);
            && InStep(i, call, r)
            && (ReadAlive(r.sod, i, call) ==>
                  r.sess.counter <= r.sod.readSlots[i].counter <= r.sess.counter + 1)
            && (Agree(st.got, st.served) && CleanReads(p, i, call, plainMax, st, events) ==> Agree(r.got, r.served))
            && (ReadAlive(r.sod, i, call) ==> ReadAlive(st.sod, i, call))
  {
    hide ReadStep, PollReadCollides;
    if events != [] {
      var n := |events| - 1;
      LossyReadLockstep(p, i, call, plainMax, st, events[..n]);
      ReadStepKeepsStep(p, i, call, plainMax, ReadTrailOf(p, i, call, plainMax, st, events[..n]), events[n]);
    }
  }

  /**
   * Once a reply is lost the session is over for good: from a server that is
   * one ahead (or has dropped the session), no later poll is served or accepted.
   */
  lemma {:induction false} LostReplyEndsSession<A>(p: Port<A>, i: nat, call: Call, plainMax: nat, st: ReadTrail<A>,
                                                   events: seq<ReadEvent<A>>)
    requires InStep(i, call, st) && OthersOnly(st, i, call, events)
    requires ReadAlive(st.sod, i, call) ==> st.sod.readSlots[i].counter == st.sess.counter + 1
    ensures var r := ReadTrailOf(p, i, call, plainMax, st, events);
            && r.got == st.got && r.served == st.served && r.sess.counter == st.sess.counter
  {
    hide ReadStep, PollReadCollides;
    if events != [] {
      var n := |events| - 1;
      LostReplyEndsSession(p, i, call, plainMax, st, events[..n]);
      LossyReadLockstep(p, i, call, plainMax, st, events[..n]);
      ReadStepKeepsStep(p, i, call, plainMax, ReadTrailOf(p, i, call, plainMax, st, events[..n]), events[n]);
    }
  }

  /** A read poll that anybody sends under the client's node id. */
  function Spoof(call: Call, st: Session, env: Env): Request
    requires st.counter < KEY_USE_LIMIT
  {
    Request(call.client, [(st.counter + 1) % 0x100], env.now, env.random, REPLY_MAX)
  }

  /**
   * Read polls are not authenticated: to the server such a poll is one of the
   * client's whose reply is lost. If it is served, the session is over: no
   * later poll of the client is served or accepted.
   */
  lemma SpoofedPollEndsSession<A>(p: Port<A>, i: nat, call: Call, plainMax: nat, st: ReadTrail<A>, env: Env,
                                  events: seq<ReadEvent<A>>)
    requires InStep(i, call, st) && ReadAlive(st.sod, i, call) && st.sess.counter < KEY_USE_LIMIT
    requires PollServed(p, st.sod.entries[i], st.sod.readSlots[i], st.sod.app, st.sod.keys, (st.sess.counter + 1) % 0x100, env.now)
    requires OthersOnly(st, i, call, events)
    ensures var after := ReadStep(p, i, call, plainMax, st, OwnPoll(env.(fate := ReplyLost)));
            && after.sod == Dispatch(p, st.sod, st.sess.dataId, Spoof(call, st.sess, env)).sod
            && after.sess == st.sess && after.got == st.got
            && after.sod.readSlots[i].counter == st.sess.counter + 1
            && ReadTrailOf(p, i, call, plainMax, after, events).got == st.got
  {
    hide Dispatch, OpenPollReply, ReadTrailOf, PollReadCollides, ReadPoll;
    var lost := env.(fate := ReplyLost);
    var low := (st.sess.counter + 1) % 0x100;
    PollReaches(p, st.sod, i, call.client, st.sess.dataId, low, lost);
    PollIsServed(p, st.sod.entries[i], st.sod.readSlots[i], st.sod.app, st.sod.keys, call.client, low, lost);
    PollOutcome(p, i, call, plainMax, st, lost);
    ReadStepKeepsStep(p, i, call, plainMax, st, OwnPoll(lost));
    LostReplyEndsSession(p, i, call, plainMax, ReadStep(p, i, call, plainMax, st, OwnPoll(lost)), events);
  }

  /** A successful armed read starts a session in step, with nothing polled yet. */
  lemma ArmingStartsReadSession<A>(p: Port<A>, d: Sod<A>, i: nat, call: Call, bufSize: nat, random: Option<Nonce>,
                                   e1: Env, e2: Env)
    requires d.Valid() && At(d, i, call.dataId) && ReadReady(p, d, i, Armed(call), bufSize, random, e1, e2)
    ensures var first := ReadFlow(p, d, Armed(call), bufSize, random, e1, e2);
            var st := ReadTrail(first.sod, ArmedSession(NO_CYCLE, Armed(call), first), [], []);
            InStep(i, call, st) && ReadAlive(st.sod, i, call) && Agree(st.got, st.served)
  {
    hide ReadFlow, ReadCollides, SealedFor;
    ReadCorrect(p, d, i, Armed(call), bufSize, random, e1, e2);
  }

  /* ---- Write sessions ---- */

  /** A write poll by the session's client, a poll-sized frame replayed under its node id,
   *  a request of another client, or a change of keys and host state. */
  datatype WriteEvent<+A> =
    | OwnWrite(plain: seq<byte>, env: Env)
    | Replay(body: seq<byte>, env: Env)
    | Other(x: Input)
    | Apart(app: A, keys: KeyStore)

  datatype Record = Record(counter: nat, plain: seq<byte>)

  /** `sent`: what the client sealed; `acked`: its successful polls; `commits`: the server's committed polls. */
  datatype WriteTrail<+A> = WriteTrail(sod: Sod<A>, sess: Session, sent: set<Record>, acked: seq<seq<byte>>,
                                       commits: seq<seq<byte>>)

  function Logged(commits: seq<seq<byte>>, commit: Option<Commit>): seq<seq<byte>> {
    if commit.Some? then commits + [commit.value.plain] else commits
  }

  predicate Seals(sess: Session, plain: seq<byte>) {
    sess.inUse && 0 < |plain| <= MAX_PROTECTED && sess.counter < KEY_USE_LIMIT
  }

  function WriteStep<A>(p: Port<A>, i: nat, call: Call, st: WriteTrail<A>, ev: WriteEvent<A>): (r: WriteTrail<A>)
    requires st.sod.Shaped() && i < |st.sod.entries|
    ensures r.sod.Shaped() && r.sod.entries == st.sod.entries
  {
    match ev
    case Other(x) => st.(sod := Dispatch(p, st.sod, x.dataId, x.q).sod)
    case Apart(app, keys) => st.(sod := st.sod.(app := app, keys := keys))
    case Replay(body, env) =>
      var r := Exchange(p, st.sod, call.client, st.sess.dataId, body, env);
      st.(sod := r.sod, commits := Logged(st.commits, r.commit))
    case OwnWrite(plain, env) =>
      var r := PollWrite(p, st.sod, call, st.sess, plain, env);
      WriteTrail(r.sod, r.sess, if Seals(st.sess, plain) then st.sent + {Record(st.sess.counter + 1, plain)} else st.sent,
                 if r.status == SecOk then st.acked + [plain] else st.acked, Logged(st.commits, r.commit))
  }

  predicate WriteAlive<A>(d: Sod<A>, i: nat, call: Call)
    requires d.Shaped() && i < |d.entries|
  {
    d.writeSlots[i].inUse && d.writeSlots[i].cyclic && d.writeSlots[i].clientDev == call.client
  }

  /** A tag that verifies for a query the client never sealed. */
  ghost predicate Forged<A>(p: Port<A>, i: nat, call: Call, st: WriteTrail<A>, body: seq<byte>)
    requires st.sod.Valid() && i < |st.sod.entries|
  {
    var e, w := st.sod.entries[i], st.sod.writeSlots[i];
    && |body| == 1 + e.dataLen + TAG_SIZE && BaseId(w.keyId) in st.sod.keys && w.counter < KEY_USE_LIMIT
    && var checked := CheckedQuery(p, e, w, st.sod.keys[BaseId(w.keyId)].key, w.counter + 1, body[1..1 + e.dataLen]);
       && p.gcm.tag(checked) == body[1 + e.dataLen..]
       && forall r :: r in st.sent && |r.plain| <= MAX_PROTECTED && r.counter <= KEY_USE_LIMIT ==>
            SentQuery(p.gcm, call, st.sess, r.counter, r.plain) != checked
  }

  /** A Pass-2 frame that passes every check and the tag while the client's slot is in use. */
  predicate Reopens<A>(p: Port<A>, d: Sod<A>, i: nat, call: Call, x: Input)
    requires d.Shaped() && i < |d.entries|
  {
    var e, w := d.entries[i], d.writeSlots[i];
    && Hits(d, i, x) && RouteOf(e, d.readSlots[i], w, x.q) == ToVerify
    && w.inUse && w.clientDev == call.client
    && PassTwoCheck(p, e, w, d.app, d.keys, x.q) == NO_ABORT
    && OpenPassTwo(p, e, w, d.keys[BaseId(x.q.body[0])].key, x.q.body).Some?
  }

  /**
   * What the events of a session may be: replays are poll-sized and carry no
   * forged tag, own polls meet no tag collision, and other requests come from
   * bystanders and are not a second Pass 2 that verifies for the live slot.
   */
  ghost predicate Honest<A>(p: Port<A>, i: nat, call: Call, st: WriteTrail<A>, ev: WriteEvent<A>)
    requires st.sod.Valid() && i < |st.sod.entries|
  {
    match ev
    case OwnWrite(plain, _) => !PollWriteCollides(p, st.sod, i, call, st.sess, plain)
    case Replay(body, _) => |body| == 1 + st.sod.entries[i].dataLen + TAG_SIZE && !Forged(p, i, call, st, body)
    case Apart(_, _) => true
    case Other(x) => Bystander(st.sod, i, call, x) && !Reopens(p, st.sod, i, call, x)
  }

  ghost predicate WriteInStep<A>(i: nat, call: Call, st: WriteTrail<A>) {
    && st.sod.Valid() && At(st.sod, i, st.sess.dataId) && st.sod.entries[i].secureWo && st.sess.inUse
    && st.sod.entries[i].dataLen > 0
    && |st.acked| == st.sess.counter <= |st.commits| <= st.sess.counter + 1
    && st.acked <= st.commits && st.sess.counter <= KEY_USE_LIMIT
    && (forall r :: r in st.sent ==> 1 <= r.counter <= st.sess.counter + 1 && |r.plain| <= MAX_PROTECTED)
    && (forall k :: 0 <= k < |st.commits| ==> Record(k + 1, st.commits[k]) in st.sent)
    && (WriteAlive(st.sod, i, call) ==>
          WriteLinked(st.sod, i, call, st.sess) && st.sod.writeSlots[i].counter == |st.commits|)
  }

  lemma OtherKeepsWriteSession<A>(p: Port<A>, d: Sod<A>, i: nat, call: Call, x: Input)
    requires d.Valid() && i < |d.entries| && Bystander(d, i, call, x) && !Reopens(p, d, i, call, x)
    ensures var r := Dispatch(p, d, x.dataId, x.q).sod;
            WriteAlive(r, i, call) ==> WriteAlive(d, i, call) && r.writeSlots[i] == d.writeSlots[i]
  {
    hide ReadPoll, ArmRead, Deliver, Open, OpenPassTwo, PassTwoCheck, CheckCounter, KeyAccepted;
    if !Hits(d, i, x) {
      OtherEntryUntouched(p, d, i, x);
    }
  }

  /** A poll frame that verifies and is no forgery carries a value the client sealed for that very counter. */
  lemma ReplayedValue<A>(p: Port<A>, i: nat, call: Call, st: WriteTrail<A>, body: seq<byte>)
    requires WriteInStep(i, call, st) && WriteAlive(st.sod, i, call)
    requires |body| == 1 + st.sod.entries[i].dataLen + TAG_SIZE && !Forged(p, i, call, st, body)
    requires BaseId(st.sod.writeSlots[i].keyId) in st.sod.keys && st.sod.writeSlots[i].counter < KEY_USE_LIMIT
    ensures var e, w := st.sod.entries[i], st.sod.writeSlots[i];
            var plain := OpenPoll(p, e, w, st.sod.keys[BaseId(w.keyId)].key, w.counter + 1, body);
            plain.Some? ==> Record(w.counter + 1, plain.value) in st.sent
  {
    hide QueryFor, SessionNonce, Crypt;
    var e, w := st.sod.entries[i], st.sod.writeSlots[i];
    var key, text := st.sod.keys[BaseId(w.keyId)].key, body[1..1 + e.dataLen];
    var nonce, ctx := SessionNonce(w.nonceBase, w.counter + 1), ContextOf(p, DIR_WRITE_POLL_REQUEST, w.keyId, w.clientDev, e);
    if OpenPoll(p, e, w, key, w.counter + 1, body).Some? {
      var r :| r in st.sent && |r.plain| <= MAX_PROTECTED && r.counter <= KEY_USE_LIMIT
               && SentQuery(p.gcm, call, st.sess, r.counter, r.plain) == CheckedQuery(p, e, w, key, w.counter + 1, text);
      var nonce', ctx' := SessionNonce(st.sess.nonceBase, r.counter), PollContext(DIR_WRITE_POLL_REQUEST, call, st.sess);
      var text' := PollText(p.gcm, call, st.sess, r.counter, r.plain);
      QueryBinds(call.key, nonce', ctx', None, text', key, nonce, ctx, None, text);
      SessionNonceInjective(w.nonceBase, r.counter, w.counter + 1);
      SealedTextOpens(p.gcm, key, nonce, ctx', ctx, r.plain);
    }
  }

  lemma SealedTextOpens(g: Gcm, key: Key, nonce: Nonce, a: Context, b: Context, plain: seq<byte>)
    requires |plain| <= MAX_PROTECTED && SameContext(a, b)
    ensures var text := Seal(g, key, nonce, a, None, plain).value.text;
            forall tag :: Open(g, key, nonce, b, None, text, tag).Some? ==>
              Open(g, key, nonce, b, None, text, tag).value == plain
  {
    CryptInvertsItself(g, key, nonce, plain);
  }

  /** Without a session at the server, neither a poll nor a replay commits anything. */
  lemma FrameWithoutSession<A>(p: Port<A>, d: Sod<A>, i: nat, client: u16, dataId: u32, frame: seq<byte>, env: Env)
    requires d.Valid() && At(d, i, dataId) && d.entries[i].secureWo && |frame| > 1 + TAG_SIZE
    requires !(d.writeSlots[i].inUse && d.writeSlots[i].cyclic && d.writeSlots[i].clientDev == client)
    ensures var r := Exchange(p, d, client, dataId, frame, env);
            var w := d.writeSlots[i];
            var v := VerifyApply(p, d.entries[i], w, d.app, d.keys, d.lastKid,
                                 Request(client, frame, env.now, env.random, REPLY_MAX));
            || (r.commit.None? && WriteAnswer(r.reply) != SecOk
                && (r.sod.writeSlots[i] == w || r.sod.writeSlots[i].inUse == false))
            || (|frame| == 1 + RAND_SIZE + d.entries[i].dataLen + TAG_SIZE && v.commit.Some?)
  {
    hide ReadPoll, ArmRead, ArmWrite, OpenPassTwo, Open, SessionNonce;
  }

  lemma ExchangeKeepsValid<A>(p: Port<A>, d: Sod<A>, client: u16, dataId: u32, body: seq<byte>, env: Env)
    requires d.Valid()
    ensures Exchange(p, d, client, dataId, body, env).sod.Valid()
  {
    hide Dispatch;
    DispatchKeepsValid(p, d, dataId, Request(client, body, env.now, env.random, REPLY_MAX));
  }

  lemma ReplayKeepsStep<A>(p: Port<A>, i: nat, call: Call, st: WriteTrail<A>, body: seq<byte>, env: Env)
    requires WriteInStep(i, call, st) && Honest(p, i, call, st, Replay(body, env))
    ensures WriteInStep(i, call, WriteStep(p, i, call, st, Replay(body, env)))
    ensures var r := WriteStep(p, i, call, st, Replay(body, env));
            && (WriteAlive(r.sod, i, call) ==> WriteAlive(st.sod, i, call))
            && ((WriteAlive(st.sod, i, call) ==> |st.commits| == |st.acked| + 1) ==>
                  r.acked == st.acked && r.commits == st.commits)
  {
    hide Exchange, WritePoll, VerifyApply, OpenPoll, Forged;
    var d, w, e := st.sod, st.sod.writeSlots[i], st.sod.entries[i];
    ExchangeKeepsValid(p, d, call.client, st.sess.dataId, body, env);
    if env.fate == RequestLost {
      PollExchangeIsDispatch(p, d, call.client, st.sess.dataId, body, env);
    } else if !WriteAlive(d, i, call) {
      FrameWithoutSession(p, d, i, call.client, st.sess.dataId, body, env);
    } else {
      PollWriteReaches(p, d, i, call.client, st.sess.dataId, body, env);
      PollIsCommitted(p, e, w, d.app, d.keys, d.lastKid, Request(call.client, body, env.now, env.random, REPLY_MAX));
      if PollAdmitted(p, e, w, d.app, d.keys, body[0], env.now) {
        ReplayedValue(p, i, call, st, body);
      }
    }
  }

  /** The client's own frame commits exactly its value under the next counter, or it is refused or lost. */
  lemma OwnFrame<A>(p: Port<A>, i: nat, call: Call, st: WriteTrail<A>, plain: seq<byte>, env: Env)
    requires WriteInStep(i, call, st) && Honest(p, i, call, st, OwnWrite(plain, env)) && Seals(st.sess, plain)
    ensures var d, w := st.sod, st.sod.writeSlots[i];
            var r := Exchange(p, d, call.client, st.sess.dataId, PollFrame(p.gcm, call, st.sess, st.sess.counter + 1, plain), env);
            if r.commit.Some? then
              && WriteAlive(d, i, call) && w.counter == st.sess.counter && r.commit.value.plain == plain
              && r.sod.writeSlots[i] == w.(counter := w.counter + 1, armedAt := env.now)
              && (WriteAnswer(r.reply) == SecOk <==> env.fate == Delivered)
            else
              && WriteAnswer(r.reply) != SecOk
              && (r.sod.writeSlots[i] == w || !r.sod.writeSlots[i].inUse)
  {
    hide Exchange, WritePoll, VerifyApply, OpenPoll, PollFrame, Collide, PollText, QueryFor, WriteHookOk;
    var d, w, e := st.sod, st.sod.writeSlots[i], st.sod.entries[i];
    var frame := PollFrame(p.gcm, call, st.sess, st.sess.counter + 1, plain);
    PollFrameSplits(p.gcm, call, st.sess, st.sess.counter + 1, plain);
    MistakenUnlessEqual(p, i, call, st, plain, env);
    if env.fate == RequestLost {
      PollExchangeIsDispatch(p, d, call.client, st.sess.dataId, frame, env);
    } else if !WriteAlive(d, i, call) {
      FrameWithoutSession(p, d, i, call.client, st.sess.dataId, frame, env);
    } else {
      PollWriteReaches(p, d, i, call.client, st.sess.dataId, frame, env);
      if |plain| == e.dataLen {
        PollIsCommitted(p, e, w, d.app, d.keys, d.lastKid, Request(call.client, frame, env.now, env.random, REPLY_MAX));
        if PollAdmitted(p, e, w, d.app, d.keys, frame[0], env.now) {
          PollFrameOpens(p, e, w, d.keys[BaseId(w.keyId)].key, call, st.sess, st.sess.counter + 1, plain);
        }
      }
    }
  }

  /** The same of the whole poll, the client's session included. */
  lemma OwnPollOutcome<A>(p: Port<A>, i: nat, call: Call, st: WriteTrail<A>, plain: seq<byte>, env: Env)
    requires WriteInStep(i, call, st) && Honest(p, i, call, st, OwnWrite(plain, env))
    ensures var d, w := st.sod, st.sod.writeSlots[i];
            var r := PollWrite(p, d, call, st.sess, plain, env);
            var w' := r.sod.writeSlots[i];
            && r.sod.Valid()
            && r.sess == (if r.status == SecOk then st.sess.(counter := st.sess.counter + 1) else st.sess)
            && (if r.commit.Some? then
                  && Seals(st.sess, plain) && WriteAlive(d, i, call) && w.counter == st.sess.counter
                  && r.commit.value.plain == plain && w' == w.(counter := w.counter + 1, armedAt := env.now)
                else r.status != SecOk && (w' == w || !w'.inUse))
  {
    hide Exchange, PollFrame, PollWriteCollides, WriteAnswer, FindIndex;
    if Seals(st.sess, plain) {
      var frame := PollFrame(p.gcm, call, st.sess, st.sess.counter + 1, plain);
      ExchangeKeepsValid(p, st.sod, call.client, st.sess.dataId, frame, env);
      OwnFrame(p, i, call, st, plain, env);
    }
  }

  lemma OwnWriteKeepsStep<A>(p: Port<A>, i: nat, call: Call, st: WriteTrail<A>, plain: seq<byte>, env: Env)
    requires WriteInStep(i, call, st) && Honest(p, i, call, st, OwnWrite(plain, env))
    ensures WriteInStep(i, call, WriteStep(p, i, call, st, OwnWrite(plain, env)))
    ensures var r := WriteStep(p, i, call, st, OwnWrite(plain, env));
            && (WriteAlive(r.sod, i, call) ==> WriteAlive(st.sod, i, call))
            && ((WriteAlive(st.sod, i, call) ==> |st.commits| == |st.acked| + 1) ==>
                  r.acked == st.acked && r.commits == st.commits)
  {
    hide PollWrite, PollWriteCollides, FindIndex;
    OwnPollOutcome(p, i, call, st, plain, env);
    var st' := WriteStep(p, i, call, st, OwnWrite(plain, env));
    assert st.sent <= st'.sent;
    forall k | 0 <= k < |st'.commits| ensures Record(k + 1, st'.commits[k]) in st'.sent {
      if k < |st.commits| {
        assert Record(k + 1, st.commits[k]) in st.sent;
      }
    }
  }

  lemma MistakenUnlessEqual<A>(p: Port<A>, i: nat, call: Call, st: WriteTrail<A>, plain: seq<byte>, env: Env)
    requires WriteInStep(i, call, st) && Honest(p, i, call, st, OwnWrite(plain, env)) && Seals(st.sess, plain)
    ensures var frame := PollFrame(p.gcm, call, st.sess, st.sess.counter + 1, plain);
            var e, w := st.sod.entries[i], st.sod.writeSlots[i];
            var v := VerifyApply(p, e, w, st.sod.app, st.sod.keys, st.sod.lastKid,
                                 Request(call.client, frame, env.now, env.random, REPLY_MAX));
            v.commit.None? && v.reply.Refused? && (v.slot == w || !v.slot.inUse)
  {
    hide OpenPassTwo, PollFrame, PollWriteCollides;
    if |plain| != st.sod.entries[i].dataLen {
      MistakenPassTwo(p, st.sod, i, call, st.sess, plain, env);
    }
  }

  lemma WriteStepKeepsStep<A>(p: Port<A>, i: nat, call: Call, st: WriteTrail<A>, ev: WriteEvent<A>)
    requires WriteInStep(i, call, st) && Honest(p, i, call, st, ev)
    ensures WriteInStep(i, call, WriteStep(p, i, call, st, ev))
    ensures var r := WriteStep(p, i, call, st, ev);
            && (WriteAlive(r.sod, i, call) ==> WriteAlive(st.sod, i, call))
            && ((WriteAlive(st.sod, i, call) ==> |st.commits| == |st.acked| + 1) ==>
                  r.acked == st.acked && r.commits == st.commits)
  {
    hide Dispatch, Exchange, PollWrite, PollWriteCollides, Forged;
    match ev {
      case Apart(_, _) =>
      case Other(x) =>
        OtherKeepsWriteSession(p, st.sod, i, call, x);
        DispatchKeepsValid(p, st.sod, x.dataId, x.q);
      case Replay(body, env) => ReplayKeepsStep(p, i, call, st, body, env);
      case OwnWrite(plain, env) => OwnWriteKeepsStep(p, i, call, st, plain, env);
    }
  }

  function WriteTrailOf<A>(p: Port<A>, i: nat, call: Call, st: WriteTrail<A>, events: seq<WriteEvent<A>>): (r: WriteTrail<A>)
    requires st.sod.Shaped() && i < |st.sod.entries|
    ensures r.sod.Shaped() && r.sod.entries == st.sod.entries
  {
    if events == [] then st
    else
      var n := |events| - 1;
      WriteStep(p, i, call, WriteTrailOf(p, i, call, st, events[..n]), events[n])
  }

  ghost predicate HonestRun<A>(p: Port<A>, i: nat, call: Call, st: WriteTrail<A>, events: seq<WriteEvent<A>>)
    requires st.sod.Shaped() && i < |st.sod.entries|
  {
    events != [] ==>
      var n := |events| - 1;
      var before := WriteTrailOf(p, i, call, st, events[..n]);
      HonestRun(p, i, call, st, events[..n]) && before.sod.Valid() && Honest(p, i, call, before, events[n])
  }

  /**
   * Over every run of one write session, with losses, replays and foreign
   * traffic: the server's counter equals the client's or is one ahead, the
   * acknowledged values are a prefix of the committed ones, and the k-th
   * committed value is one that the client sealed for counter k.
   */
  lemma {:induction false} LossyWriteLockstep<A>(p: Port<A>, i: nat, call: Call, st: WriteTrail<A>, events: seq<WriteEvent<A>>)
    requires WriteInStep(i, call, st) && HonestRun(p, i, call, st, events)
    ensures var r := WriteTrailOf(p, i, call, st, events);
            && WriteInStep(i, call, r)
            && r.acked <= r.commits && |r.acked| <= |r.commits| <= |r.acked| + 1
            && (forall k :: 0 <= k < |r.commits| ==> Record(k + 1, r.commits[k]) in r.sent)
            && (WriteAlive(r.sod, i, call) ==>
                  && WriteAlive(st.sod, i, call)
                  && r.sess.counter <= r.sod.writeSlots[i].counter <= r.sess.counter + 1)
  {
    hide WriteStep, Honest;
    if events != [] {
      var n := |events| - 1;
      LossyWriteLockstep(p, i, call, st, events[..n]);
      WriteStepKeepsStep(p, i, call, WriteTrailOf(p, i, call, st, events[..n]), events[n]);
    }
  }

  /** Once an acknowledgement is lost, nothing more is acknowledged or committed in the session. */
  lemma {:induction false} LostAckEndsSession<A>(p: Port<A>, i: nat, call: Call, st: WriteTrail<A>, events: seq<WriteEvent<A>>)
    requires WriteInStep(i, call, st) && HonestRun(p, i, call, st, events)
    requires WriteAlive(st.sod, i, call) ==> st.sod.writeSlots[i].counter == st.sess.counter + 1
    ensures var r := WriteTrailOf(p, i, call, st, events); r.acked == st.acked && r.commits == st.commits
  {
    hide WriteStep, Honest;
    if events != [] {
      var n := |events| - 1;
      LostAckEndsSession(p, i, call, st, events[..n]);
      LossyWriteLockstep(p, i, call, st, events[..n]);
      WriteStepKeepsStep(p, i, call, WriteTrailOf(p, i, call, st, events[..n]), events[n]);
    }
  }

  lemma ArmingStartsWriteSession<A>(p: Port<A>, d: Sod<A>, i: nat, call: Call, plain: seq<byte>, random: Option<Nonce>,
                                    e1: Env, e2: Env)
    requires d.Valid() && At(d, i, call.dataId) && WriteReady(p, d, i, Armed(call), plain, random, e1, e2)
    ensures var first := WriteFlow(p, d, Armed(call), plain, random, e1, e2);
            var st := WriteTrail(first.sod, ArmedSession(NO_CYCLE, Armed(call), first), {}, [], []);
            WriteInStep(i, call, st) && WriteAlive(st.sod, i, call)
  {
    hide WriteFlow, WriteCollides;
    WriteCorrect(p, d, i, Armed(call), plain, random, e1, e2);
  }
}
