/**
 * The same poll frame a second time: exactly when it commits again on one
 * step, and what must have happened since over a whole run.
 */
module PollReplay {
  import opened Bytes
  import opened Aead
  import opened Channel
  import opened SecureOd
  import opened SecureProto
  import opened SodRuns
  import opened Tunnel
  import opened PollRuns
  import opened PassTwoReplay

  /* ---- One step ---- */

  /** What a poll frame that committed under `counter` needs to commit again. */
  predicate PollRepeatAdmitted<A>(p: Port<A>, e: Entry, w: WriteSlot, app: A, keys: KeyStore, lastKid: byte, plain: seq<byte>,
                                  counter: u32, now: u16) {
    && w.inUse && w.cyclic && SessionFresh(now, w.armedAt) && w.counter + 1 == counter
    && p.roleAllowed(app, OpWrite, BaseId(w.keyId), e.dataId) && WriteHookOk(p, app, keys, lastKid, e, plain)
  }

  /** A poll that opens carries the tag of its query. */
  lemma OpenPollChecks<A>(p: Port<A>, e: Entry, w: WriteSlot, key: Key, c: u32, body: seq<byte>)
    requires |body| == 1 + e.dataLen + TAG_SIZE && e.dataLen <= MAX_PROTECTED
    ensures OpenPoll(p, e, w, key, c, body).Some? ==> p.gcm.tag(PollQuery(p, e, w, key, c, body)) == body[1 + e.dataLen..]
  {
    hide SessionNonce, Crypt;
  }

  lemma PollNeedsSession<A>(p: Port<A>, e: Entry, w: WriteSlot, app: A, keys: KeyStore, lastKid: byte, q: Request)
    ensures WritePoll(p, e, w, app, keys, lastKid, q).commit.Some? ==>
              |q.body| == 1 + e.dataLen + TAG_SIZE && w.inUse && w.cyclic && w.clientDev == q.client
  {
    hide Open, SessionNonce;
  }

  /** A committed poll and the query that its tag verified for. */
  lemma PollChecked<A>(p: Port<A>, e: Entry, w: WriteSlot, app: A, keys: KeyStore, lastKid: byte, q: Request)
    requires e.dataLen <= MAX_PROTECTED && WritePoll(p, e, w, app, keys, lastKid, q).commit.Some?
    ensures w.inUse && w.cyclic && w.clientDev == q.client && |q.body| == 1 + e.dataLen + TAG_SIZE
    ensures PollAdmitted(p, e, w, app, keys, q.body[0], q.now)
    ensures var key, r := keys[BaseId(w.keyId)].key, WritePoll(p, e, w, app, keys, lastKid, q);
            && p.gcm.tag(PollQuery(p, e, w, key, w.counter + 1, q.body)) == q.body[1 + e.dataLen..]
            && OpenPoll(p, e, w, key, w.counter + 1, q.body) == Some(r.commit.value.plain)
            && WriteHookOk(p, app, keys, lastKid, e, r.commit.value.plain)
            && r.slot == w.(counter := w.counter + 1, armedAt := q.now)
            && r.commit == Some(Commit(r.commit.value.plain, BaseId(w.keyId), w.counter + 1, false))
  {
    hide WritePoll, OpenPoll, PollQuery, WriteHookOk;
    PollNeedsSession(p, e, w, app, keys, lastKid, q);
    PollIsCommitted(p, e, w, app, keys, lastKid, q);
    OpenPollChecks(p, e, w, keys[BaseId(w.keyId)].key, w.counter + 1, q.body);
  }

  lemma OneSessionOneOpening<A>(p: Port<A>, e: Entry, w: WriteSlot, w': WriteSlot, key: Key, c: u32, body: seq<byte>)
    requires |body| == 1 + e.dataLen + TAG_SIZE
    requires SameSession(w, w')
    ensures OpenPoll(p, e, w', key, c, body) == OpenPoll(p, e, w, key, c, body)
  {
  }

  predicate SameSession(w: WriteSlot, w': WriteSlot) {
    w'.clientDev == w.clientDev && w'.keyId == w.keyId && w'.nonceBase == w.nonceBase
  }

  lemma PollAgainAtCounter<A>(p: Port<A>, e: Entry, w: WriteSlot, app: A, keys: KeyStore, lastKid: byte, q: Request,
                              w': WriteSlot, app': A, keys': KeyStore, lastKid': byte, q': Request)
    requires e.dataLen <= MAX_PROTECTED && WritePoll(p, e, w, app, keys, lastKid, q).commit.Some?
    requires q'.body == q.body && q'.client == q.client && SameSession(w, w') && w'.counter == w.counter
    requires BaseId(w.keyId) in keys && HoldsKey(keys', BaseId(w.keyId), keys[BaseId(w.keyId)].key)
    ensures var c, again := WritePoll(p, e, w, app, keys, lastKid, q).commit, WritePoll(p, e, w', app', keys', lastKid', q');
            var admitted := PollRepeatAdmitted(p, e, w', app', keys', lastKid', c.value.plain, c.value.counter, q'.now);
            && (again.commit.Some? <==> admitted)
            && (admitted ==> again.commit == c && again.slot == w'.(counter := c.value.counter, armedAt := q'.now))
  {
    hide WritePoll, OpenPoll, PollQuery, SessionFresh, WriteHookOk, BaseId;
    PollChecked(p, e, w, app, keys, lastKid, q);
    OneSessionOneOpening(p, e, w, w', keys[BaseId(w.keyId)].key, w.counter + 1, q.body);
    if w'.inUse && w'.cyclic {
      PollIsCommitted(p, e, w', app', keys', lastKid', q');
    } else {
      PollNeedsSession(p, e, w', app', keys', lastKid', q');
    }
  }

  lemma PollAgainElsewhere<A>(p: Port<A>, e: Entry, w: WriteSlot, app: A, keys: KeyStore, lastKid: byte, q: Request,
                              w': WriteSlot, app': A, keys': KeyStore, lastKid': byte, q': Request)
    requires e.dataLen <= MAX_PROTECTED && WritePoll(p, e, w, app, keys, lastKid, q).commit.Some?
    requires q'.body == q.body && SameSession(w, w') && w'.counter != w.counter
    requires BaseId(w.keyId) in keys && HoldsKey(keys', BaseId(w.keyId), keys[BaseId(w.keyId)].key)
    ensures w.counter < KEY_USE_LIMIT && |q.body| == 1 + e.dataLen + TAG_SIZE
    ensures var key := keys[BaseId(w.keyId)].key;
            WritePoll(p, e, w', app', keys', lastKid', q').commit.Some? ==>
              w'.counter < KEY_USE_LIMIT && Collide(p.gcm, PollQuery(p, e, w, key, w.counter + 1, q.body),
                                                    PollQuery(p, e, w', key, w'.counter + 1, q.body))
  {
    hide WritePoll, OpenPoll, PollQuery, SessionFresh, SessionNonce, WriteHookOk, BaseId;
    PollChecked(p, e, w, app, keys, lastKid, q);
    var key := keys[BaseId(w.keyId)].key;
    if WritePoll(p, e, w', app', keys', lastKid', q').commit.Some? {
      PollChecked(p, e, w', app', keys', lastKid', q');
      OtherCounterOtherQuery(p, e, w, w', key, key, w.counter + 1, w'.counter + 1, q.body);
    }
  }

  /**
   * After a committed poll, its frame again from the same client, on a slot
   * with the session's key id and nonce base: under the same key it commits the
   * same value exactly when the slot is live and back at the counter of the
   * first time, and host and role policy agree; otherwise only by a tag
   * collision.
   */
  lemma RepeatedPollCommits<A>(p: Port<A>, e: Entry, w: WriteSlot, app: A, keys: KeyStore, lastKid: byte, q: Request,
                               w': WriteSlot, app': A, keys': KeyStore, lastKid': byte, q': Request)
    requires e.dataLen <= MAX_PROTECTED && WritePoll(p, e, w, app, keys, lastKid, q).commit.Some?
    requires q'.body == q.body && q'.client == q.client && SameSession(w, w')
    requires BaseId(w.keyId) in keys && HoldsKey(keys', BaseId(w.keyId), keys[BaseId(w.keyId)].key)
    ensures |q.body| == 1 + e.dataLen + TAG_SIZE
    ensures var r, again := WritePoll(p, e, w, app, keys, lastKid, q), WritePoll(p, e, w', app', keys', lastKid', q');
            var key, c := keys[BaseId(w.keyId)].key, r.commit.value;
            && (PollRepeatAdmitted(p, e, w', app', keys', lastKid', c.plain, c.counter, q'.now) ==>
                  again.commit == r.commit && again.slot == w'.(counter := c.counter, armedAt := q'.now))
            && (again.commit.Some? ==>
                  || PollRepeatAdmitted(p, e, w', app', keys', lastKid', c.plain, c.counter, q'.now)
                  || (w'.counter < KEY_USE_LIMIT && Collide(p.gcm, PollQuery(p, e, w, key, c.counter, q.body),
                                                            PollQuery(p, e, w', key, w'.counter + 1, q.body))))
  {
    hide WritePoll, PollQuery, SessionFresh, WriteHookOk, OpenPoll;
    PollChecked(p, e, w, app, keys, lastKid, q);
    if w'.counter == w.counter {
      PollAgainAtCounter(p, e, w, app, keys, lastKid, q, w', app', keys', lastKid', q');
    } else {
      PollAgainElsewhere(p, e, w, app, keys, lastKid, q, w', app', keys', lastKid', q');
    }
  }

  /** Equal queries have equal keys and nonces, and so one counter exactly if they have one nonce base. */
  lemma OtherCounterOtherQuery<A>(p: Port<A>, e: Entry, w: WriteSlot, w': WriteSlot, key: Key, key': Key, c: u32, c': u32, body: seq<byte>)
    requires |body| == 1 + e.dataLen + TAG_SIZE && e.dataLen <= MAX_PROTECTED
    ensures PollQuery(p, e, w, key, c, body) == PollQuery(p, e, w', key', c', body) ==>
              && key == key' && SessionNonce(w.nonceBase, c) == SessionNonce(w'.nonceBase, c')
              && (w.nonceBase == w'.nonceBase <==> c == c')
  {
    hide SessionNonce;
    var text := body[1..1 + e.dataLen];
    var n, n' := SessionNonce(w.nonceBase, c), SessionNonce(w'.nonceBase, c');
    QueryBinds(key, n, ContextOf(p, DIR_WRITE_POLL_REQUEST, w.keyId, w.clientDev, e), None, text,
               key', n', ContextOf(p, DIR_WRITE_POLL_REQUEST, w'.keyId, w'.clientDev, e), None, text);
    if n == n' {
      if c == c' {
        SameCounterSameBase(w.nonceBase, w'.nonceBase, c);
      } else if w.nonceBase == w'.nonceBase {
        SessionNonceInjective(w.nonceBase, c, c');
      }
    }
  }

  lemma SameCounterSameBase(a: Nonce, b: Nonce, c: u32)
    requires SessionNonce(a, c) == SessionNonce(b, c)
    ensures a == b
  {
    XorSeqCancels(a[8..], Be32(c));
    XorSeqCancels(b[8..], Be32(c));
    assert SessionNonce(a, c)[..8] == a[..8] && SessionNonce(b, c)[..8] == b[..8];
    assert SessionNonce(a, c)[8..] == XorSeq(a[8..], Be32(c)) && SessionNonce(b, c)[8..] == XorSeq(b[8..], Be32(c));
    assert a == a[..8] + a[8..] && b == b[..8] + b[8..];
  }

  /* ---- Whole runs ---- */

  /** A write poll committed on entry `i`. */
  predicate PollCommitsAt<A>(p: Port<A>, d: Sod<A>, i: nat, events: seq<Event<A>>, n: nat)
    requires d.Shaped() && i < |d.entries| && n < |events|
  {
    RoutedAt(p, d, i, events, n, ToWritePoll)
    && Dispatch(p, Run(p, d, events[..n]), events[n].x.dataId, events[n].x.q).commit.Some?
  }

  /** What one event does to nonce base and counter: only a Pass 1 or a Pass 2 replaces the base, and a Pass 1 by zeros. */
  lemma EventOnBase<A>(p: Port<A>, d: Sod<A>, i: nat, ev: Event<A>)
    requires d.Shaped() && i < |d.entries|
    ensures var w, w' := d.writeSlots[i], Happen(p, d, ev).writeSlots[i];
            var hit := ev.Ask? && Hits(d, i, ev.x);
            var arms := hit && RouteOf(d.entries[i], d.readSlots[i], w, ev.x.q) == ToArmWrite
                        && Dispatch(p, d, ev.x.dataId, ev.x.q).reply.Accepted?;
            var commits := hit && RouteOf(d.entries[i], d.readSlots[i], w, ev.x.q) == ToVerify
                           && Dispatch(p, d, ev.x.dataId, ev.x.q).commit.Some?;
            && (arms ==> w'.nonceBase == Zeros(NONCE_SIZE))
            && (!arms && !commits ==> w'.nonceBase == w.nonceBase && w'.counter >= w.counter)
  {
    hide ReadPoll, ArmRead, Deliver, VerifyApply, WritePoll, ArmWrite, Zeros;
    if ev.Ask? && Hits(d, i, ev.x) {
      var e, w, q := d.entries[i], d.writeSlots[i], ev.x.q;
      PassTwoOnBase(p, e, w, d.app, d.keys, d.lastKid, q);
      PollOnBase(p, e, w, d.app, d.keys, d.lastKid, q);
      ArmOnBase(p, e, w, d.app, d.keys, d.lastKid, q, if q.body == [] then None else Some(q.body[0]));
    } else if ev.Ask? {
      OtherEntryUntouched(p, d, i, ev.x);
    }
  }

  lemma EventOnSession<A>(p: Port<A>, d: Sod<A>, i: nat, events: seq<Event<A>>, n: nat)
    requires d.Shaped() && i < |d.entries| && n < |events|
    ensures var w, w' := Run(p, d, events[..n]).writeSlots[i], Run(p, d, events[..n + 1]).writeSlots[i];
            && (ArmsAt(p, d, i, events, n) ==> w'.nonceBase == Zeros(NONCE_SIZE))
            && (!ArmsAt(p, d, i, events, n) && !CommitsAt(p, d, i, events, n) ==>
                  w'.nonceBase == w.nonceBase && w'.counter >= w.counter)
  {
    hide Dispatch, Happen, Zeros, RouteOf;
    RunStep(p, d, events, n);
    EventOnBase(p, Run(p, d, events[..n]), i, events[n]);
  }

  lemma PassTwoOnBase<A>(p: Port<A>, e: Entry, w: WriteSlot, app: A, keys: KeyStore, lastKid: byte, q: Request)
    ensures var r := VerifyApply(p, e, w, app, keys, lastKid, q);
            r.commit.None? ==> r.slot.nonceBase == w.nonceBase && r.slot.counter == w.counter
  {
    hide OpenPassTwo, PassTwoCheck;
  }

  lemma PollOnBase<A>(p: Port<A>, e: Entry, w: WriteSlot, app: A, keys: KeyStore, lastKid: byte, q: Request)
    ensures var v := WritePoll(p, e, w, app, keys, lastKid, q).slot;
            v.nonceBase == w.nonceBase && v.counter >= w.counter
  {
    hide Open, SessionNonce, SessionFresh;
  }

  lemma ArmOnBase<A>(p: Port<A>, e: Entry, w: WriteSlot, app: A, keys: KeyStore, lastKid: byte, q: Request, kid: Option<byte>)
    ensures var r := ArmWrite(p, e, w, app, keys, lastKid, q, kid);
            if r.reply.Accepted? then r.slot.nonceBase == Zeros(NONCE_SIZE) else r.slot == w
  {
    hide KeyAccepted, HeldByOther;
  }

  /** Without a Pass-2 commit in between, the base is the old one with a counter no lower, or zeros after a Pass 1. */
  lemma {:induction false} NoCommitBetween<A>(p: Port<A>, d: Sod<A>, i: nat, events: seq<Event<A>>, j: nat, k: nat)
    requires d.Shaped() && i < |d.entries| && j <= k <= |events|
    requires forall m :: j <= m < k ==> !CommitsAt(p, d, i, events, m)
    ensures var w, w' := Run(p, d, events[..j]).writeSlots[i], Run(p, d, events[..k]).writeSlots[i];
            || (w'.nonceBase == w.nonceBase && w'.counter >= w.counter)
            || (w'.nonceBase == Zeros(NONCE_SIZE) && exists m :: j <= m < k && ArmsAt(p, d, i, events, m))
  {
    hide Happen, Run, ArmsAt, CommitsAt;
    if j < k {
      NoCommitBetween(p, d, i, events, j, k - 1);
      EventOnSession(p, d, i, events, k - 1);
    }
  }

  /** A poll-sized body, a key in place and a counter below the limit. */
  predicate PollSized<A>(p: Port<A>, d: Sod<A>, i: nat, events: seq<Event<A>>, n: nat)
    requires d.Shaped() && i < |d.entries| && n < |events|
  {
    var before := Run(p, d, events[..n]);
    && events[n].Ask? && |events[n].x.q.body| == 1 + d.entries[i].dataLen + TAG_SIZE
    && BaseId(before.writeSlots[i].keyId) in before.keys && before.writeSlots[i].counter < KEY_USE_LIMIT
  }

  /** What a poll of the run is checked against. */
  function PollQueryAt<A>(p: Port<A>, d: Sod<A>, i: nat, events: seq<Event<A>>, n: nat): Query
    requires d.Shaped() && i < |d.entries| && d.entries[i].dataLen <= MAX_PROTECTED && n < |events| && PollSized(p, d, i, events, n)
  {
    var before := Run(p, d, events[..n]);
    var w := before.writeSlots[i];
    PollQuery(p, d.entries[i], w, before.keys[BaseId(w.keyId)].key, w.counter + 1, events[n].x.q.body)
  }

  lemma OneQueryOneCounter<A>(p: Port<A>, d: Sod<A>, i: nat, events: seq<Event<A>>, j: nat, k: nat)
    requires d.Shaped() && i < |d.entries| && d.entries[i].dataLen <= MAX_PROTECTED && j < |events| && k < |events|
    requires PollSized(p, d, i, events, j) && PollSized(p, d, i, events, k) && events[k].x.q.body == events[j].x.q.body
    ensures var w, w' := Run(p, d, events[..j]).writeSlots[i], Run(p, d, events[..k]).writeSlots[i];
            PollQueryAt(p, d, i, events, j) == PollQueryAt(p, d, i, events, k) ==> (w.nonceBase == w'.nonceBase <==> w.counter == w'.counter)
  {
    hide Run, PollQuery, SessionNonce;
    var u, v := Run(p, d, events[..j]), Run(p, d, events[..k]);
    var w, w' := u.writeSlots[i], v.writeSlots[i];
    OtherCounterOtherQuery(p, d.entries[i], w, w', u.keys[BaseId(w.keyId)].key, v.keys[BaseId(w'.keyId)].key, w.counter + 1,
                           w'.counter + 1, events[j].x.q.body);
  }

  /** The poll handler on what the n-th event brings. */
  function PolledAt<A>(p: Port<A>, d: Sod<A>, i: nat, events: seq<Event<A>>, n: nat): WriteOutcome<A>
    requires d.Shaped() && i < |d.entries| && n < |events| && events[n].Ask?
  {
    var before := Run(p, d, events[..n]);
    WritePoll(p, d.entries[i], before.writeSlots[i], before.app, before.keys, before.lastKid, events[n].x.q)
  }

  lemma RoutedIsPolled<A>(p: Port<A>, d: Sod<A>, i: nat, events: seq<Event<A>>, n: nat)
    requires d.Shaped() && i < |d.entries| && n < |events| && RoutedAt(p, d, i, events, n, ToWritePoll)
    ensures PollCommitsAt(p, d, i, events, n) <==> PolledAt(p, d, i, events, n).commit.Some?
    ensures Run(p, d, events[..n + 1]).writeSlots[i] == PolledAt(p, d, i, events, n).slot
  {
    hide WritePoll;
    RunStep(p, d, events, n);
  }

  lemma PollOfRun<A>(p: Port<A>, d: Sod<A>, i: nat, events: seq<Event<A>>, n: nat)
    requires d.Shaped() && i < |d.entries| && d.entries[i].dataLen <= MAX_PROTECTED && n < |events| && PollCommitsAt(p, d, i, events, n)
    ensures PollSized(p, d, i, events, n)
    ensures p.gcm.tag(PollQueryAt(p, d, i, events, n)) == events[n].x.q.body[1 + d.entries[i].dataLen..]
    ensures var w, w' := Run(p, d, events[..n]).writeSlots[i], Run(p, d, events[..n + 1]).writeSlots[i];
            w'.nonceBase == w.nonceBase && w'.counter == w.counter + 1
  {
    hide Run, Dispatch, RouteOf, WritePoll, PollQuery, OpenPoll, WriteHookOk, SessionFresh;
    var before, q := Run(p, d, events[..n]), events[n].x.q;
    RoutedIsPolled(p, d, i, events, n);
    hide PollCommitsAt, RoutedAt;
    PollChecked(p, d.entries[i], before.writeSlots[i], before.app, before.keys, before.lastKid, q);
  }

  /** A Pass 2 committed between the two, or a Pass 1 alone was answered and the later poll used its base of zeros. */
  ghost predicate ReopenedBetween<A>(p: Port<A>, d: Sod<A>, i: nat, events: seq<Event<A>>, j: nat, k: nat)
    requires d.Shaped() && i < |d.entries| && j < k < |events|
  {
    || (exists m :: j < m < k && CommitsAt(p, d, i, events, m))
    || (Run(p, d, events[..k]).writeSlots[i].nonceBase == Zeros(NONCE_SIZE) && exists m :: j < m < k && ArmsAt(p, d, i, events, m))
  }

  /**
   * Over every run, two polls of one entry that committed with equal frames
   * collide, or they had one key, one nonce and one tag query: then the session
   * was opened again in between, and their counters are equal exactly if their
   * nonce bases are.
   */
  lemma PollFrameCommitsTwice<A>(p: Port<A>, d: Sod<A>, i: nat, events: seq<Event<A>>, j: nat, k: nat)
    requires d.Shaped() && i < |d.entries| && d.entries[i].dataLen <= MAX_PROTECTED && j < k < |events|
    requires PollCommitsAt(p, d, i, events, j) && PollCommitsAt(p, d, i, events, k)
    requires events[k].x.q.body == events[j].x.q.body
    ensures PollSized(p, d, i, events, j) && PollSized(p, d, i, events, k)
    ensures var w, w' := Run(p, d, events[..j]).writeSlots[i], Run(p, d, events[..k]).writeSlots[i];
            || Collide(p.gcm, PollQueryAt(p, d, i, events, j), PollQueryAt(p, d, i, events, k))
            || (&& PollQueryAt(p, d, i, events, j) == PollQueryAt(p, d, i, events, k)
                && (w.nonceBase == w'.nonceBase <==> w.counter == w'.counter)
                && ReopenedBetween(p, d, i, events, j, k))
  {
    PollOfRun(p, d, i, events, j);
    PollOfRun(p, d, i, events, k);
    hide ReopenedBetween, PollCommitsAt, Run, PollQueryAt;
    ReopenedOrLater(p, d, i, events, j, k);
    OneQueryOneCounter(p, d, i, events, j, k);
  }

  lemma ReopenedOrLater<A>(p: Port<A>, d: Sod<A>, i: nat, events: seq<Event<A>>, j: nat, k: nat)
    requires d.Shaped() && i < |d.entries| && d.entries[i].dataLen <= MAX_PROTECTED && j < k < |events|
    requires PollCommitsAt(p, d, i, events, j)
    ensures var w, w' := Run(p, d, events[..j]).writeSlots[i], Run(p, d, events[..k]).writeSlots[i];
            ReopenedBetween(p, d, i, events, j, k) || (w'.nonceBase == w.nonceBase && w'.counter > w.counter)
  {
    PollOfRun(p, d, i, events, j);
    hide ArmsAt, CommitsAt, PollCommitsAt, PollSized, Run, PollQueryAt, Zeros;
    if forall m :: j < m < k ==> !CommitsAt(p, d, i, events, m) {
      NoCommitBetween(p, d, i, events, j + 1, k);
    }
  }

  /* ---- A session without a Pass 2 ---- */

  /** What a one-byte Pass 1 makes of the slot, as a session of the client: nonce base zeros, counter 0. */
  function OneByteSession(dataId: u32, kid: byte): Session { Session(true, dataId, kid, Zeros(NONCE_SIZE), 0) }

  /**
   * A one-byte Pass 1 that is answered opens the session by itself: without any
   * Pass 2, a poll sealed under the base of zeros commits.
   */
  lemma PollWithoutPassTwo<A>(p: Port<A>, d: Sod<A>, i: nat, call: Call, kid: byte, plain: seq<byte>, e1: Env, e2: Env)
    requires d.Valid() && At(d, i, call.dataId) && e1.fate == Delivered
    requires RouteOf(d.entries[i], d.readSlots[i], d.writeSlots[i], Request(call.client, [kid], e1.now, e1.random, REPLY_MAX)) == ToArmWrite
    requires var armed := Exchange(p, d, call.client, call.dataId, [kid], e1);
             && armed.reply.Some? && armed.reply.value.Accepted?
             && PollWriteReady(p, armed.sod, i, call, OneByteSession(call.dataId, kid), plain, e2)
    ensures var armed, sess := Exchange(p, d, call.client, call.dataId, [kid], e1), OneByteSession(call.dataId, kid);
            var r := PollWrite(p, armed.sod, call, sess, plain, e2);
            && armed.commit.None? && r.status == SecOk && r.sess == sess.(counter := 1)
            && r.commit == Some(Commit(plain, BaseId(kid), 1, false))
  {
    var armed, sess := Exchange(p, d, call.client, call.dataId, [kid], e1), OneByteSession(call.dataId, kid);
    OneByteArms(p, d, i, call, kid, e1);
    hide Exchange, PollWriteReady, PollWrite, PollWriteCollides, AfterPollWrite, RouteOf, FindIndex;
    PollWriteCorrect(p, armed.sod, i, call, sess, plain, e2);
  }

  lemma OneByteArms<A>(p: Port<A>, d: Sod<A>, i: nat, call: Call, kid: byte, env: Env)
    requires d.Valid() && At(d, i, call.dataId) && env.fate == Delivered
    requires RouteOf(d.entries[i], d.readSlots[i], d.writeSlots[i], Request(call.client, [kid], env.now, env.random, REPLY_MAX)) == ToArmWrite
    ensures var armed := Exchange(p, d, call.client, call.dataId, [kid], env);
            && armed.commit.None? && armed.sod.Valid()
            && (armed.reply.Some? && armed.reply.value.Accepted? ==>
                  WriteLinked(armed.sod, i, call, OneByteSession(call.dataId, kid)) && d.entries[i].secureWo)
  {
    hide ArmRead, ReadPoll, WritePoll, VerifyApply, KeyAccepted, HeldByOther;
    DispatchKeepsValid(p, d, call.dataId, Request(call.client, [kid], env.now, env.random, REPLY_MAX));
  }
}
