/**
 * The same Pass-2 frame a second time: exactly when it commits again, and that
 * over whole runs it does so only inside the session that it opened itself.
 */
module PassTwoReplay {
  import opened Bytes
  import opened Aead
  import opened Channel
  import opened SecureOd
  import opened SecureProto
  import opened SodRuns
  import opened Tunnel

  /* ---- One step ---- */

  /** What a repeated frame still has to pass, all of it known before it arrives. */
  predicate RepeatAdmitted<A>(p: Port<A>, e: Entry, app: A, keys: KeyStore, kid: byte, plain: seq<byte>, first: u16, again: u16) {
    && ChallengeFresh(again, first) && p.roleAllowed(app, OpWrite, BaseId(kid), e.dataId)
    && WriteHookOk(p, app, keys, BaseId(kid), e, plain)
  }

  /** A slot that a Pass 2 with key id `kid` has just opened as a session. */
  function Restarted(w: WriteSlot, kid: byte, random: Nonce, now: u16): WriteSlot {
    w.(cyclic := true, keyId := kid, nonceBase := XorSeq(random, w.serverRandom), counter := 0, armedAt := now)
  }

  /**
   * After a committed Pass 2, its body again, from whomever, on whatever host
   * state, and on any slot that still has the random and the client of the
   * first time, however polls have moved it since. Under the same key it
   * commits the same value exactly when the slot is in use and fresh by its own
   * timestamp, and host and role policy agree; bit 6 then starts the session
   * over at counter 0.
   */
  lemma RepeatedFrameCommits<A>(p: Port<A>, e: Entry, w: WriteSlot, app: A, keys: KeyStore, lastKid: byte, q: Request,
                                w': WriteSlot, app': A, keys': KeyStore, lastKid': byte, q': Request)
    requires VerifyApply(p, e, w, app, keys, lastKid, q).commit.Some? && q'.body == q.body
    requires w'.serverRandom == w.serverRandom && w'.clientDev == w.clientDev
    ensures |q.body| == 1 + RAND_SIZE + e.dataLen + TAG_SIZE && BaseId(q.body[0]) in keys
    ensures var kid, r := q.body[0], VerifyApply(p, e, w, app, keys, lastKid, q);
            var again := VerifyApply(p, e, w', app', keys', lastKid', q');
            HoldsKey(keys', BaseId(kid), keys[BaseId(kid)].key) ==>
              && (again.commit.Some? <==>
                    w'.inUse && RepeatAdmitted(p, e, app', keys', kid, r.commit.value.plain, w'.armedAt, q'.now))
              && (again.commit.Some? ==>
                    && again.commit == r.commit
                    && again.slot == if IsCyclic(kid) then Restarted(w', kid, q.body[1..13], q'.now)
                                     else w'.(inUse := false, keyId := kid))
  {
    hide Open, IsCyclic;
  }

  /** On the very slot that the first commit left: never with bit 6 clear, for that slot is free. */
  lemma FirstCommitLeaves<A>(p: Port<A>, e: Entry, w: WriteSlot, app: A, keys: KeyStore, lastKid: byte, q: Request)
    requires VerifyApply(p, e, w, app, keys, lastKid, q).commit.Some?
    ensures |q.body| == 1 + RAND_SIZE + e.dataLen + TAG_SIZE
    ensures var r := VerifyApply(p, e, w, app, keys, lastKid, q).slot;
            && r.serverRandom == w.serverRandom && r.clientDev == w.clientDev && r.inUse == IsCyclic(q.body[0])
            && (r.inUse ==> r.armedAt == q.now)
  {
    hide Open, IsCyclic;
  }

  /* ---- After an armed write of the client ---- */

  /** The armed write's own frame, replayed under any node id: what it takes, and what it undoes. */
  lemma ReplayAfterArmedWrite<A>(p: Port<A>, d: Sod<A>, i: nat, call: Call, plain: seq<byte>, random: Option<Nonce>,
                                 e1: Env, e2: Env, anybody: u16, e3: Env)
    requires d.Valid() && At(d, i, call.dataId) && WriteReady(p, d, i, Armed(call), plain, random, e1, e2)
    requires e3.fate == Delivered
    ensures var after := AfterWrite(p, d, i, Armed(call), plain, random.value, e1, e2);
            var frame := PassTwoFrame(p.gcm, Armed(call), random.value, e1.random.value, plain);
            var again := Exchange(p, after, anybody, call.dataId, frame, e3);
            var base := BaseId(call.keyId);
            && WriteFlow(p, d, Armed(call), plain, random, e1, e2).sod == after
            && (HoldsKey(after.keys, base, call.key) ==>
                  && (again.commit.Some? <==>
                        RepeatAdmitted(p, d.entries[i], after.app, after.keys, Armed(call).keyId, plain, e2.now, e3.now))
                  && (again.commit.Some? ==>
                        && again.commit.value.plain == plain
                        && again.sod.writeSlots[i] == after.writeSlots[i].(armedAt := e3.now)
                        && again.sod.writeSlots[i].counter == 0))
  {
    ChallengeHasRandom(p, d, i, call.client, e1);
    hide WriteFlow, WriteCollides, Exchange, PassTwoFrame, VerifyApply, Challenges, WriteHookOk;
    var e, armed, sr := d.entries[i], Armed(call), e1.random.value;
    WriteCorrect(p, d, i, armed, plain, random, e1, e2);
    var after := AfterWrite(p, d, i, armed, plain, random.value, e1, e2);
    var frame := PassTwoFrame(p.gcm, armed, random.value, sr, plain);
    FrameStartsWithKeyId(p.gcm, armed, random.value, sr, plain);
    ReplayReaches(p, after, i, anybody, call.dataId, frame, e3);
    ReplayVerifies(p, d, i, armed, plain, random.value, e1, e2, anybody, e3);
  }

  /** A frame of Pass-2 length goes to the Pass-2 handler whatever the slot holds. */
  lemma ReplayReaches<A>(p: Port<A>, d: Sod<A>, i: nat, client: u16, dataId: u32, frame: seq<byte>, env: Env)
    requires d.Shaped() && At(d, i, dataId) && env.fate == Delivered && d.entries[i].secureWo
    requires |frame| == 1 + RAND_SIZE + d.entries[i].dataLen + TAG_SIZE
    ensures var v := VerifyApply(p, d.entries[i], d.writeSlots[i], d.app, d.keys, d.lastKid,
                                 Request(client, frame, env.now, env.random, REPLY_MAX));
            Exchange(p, d, client, dataId, frame, env)
              == Round(d.(writeSlots := d.writeSlots[i := v.slot], app := v.app, keys := v.keys, lastKid := v.lastKid),
                       Some(v.reply), v.commit)
  {
    hide VerifyApply, ArmRead, ReadPoll, WritePoll, ArmWrite;
  }

  /** The replay of the client's frame on the slot that its first arrival left. */
  lemma ReplayVerifies<A>(p: Port<A>, d: Sod<A>, i: nat, armed: Call, plain: seq<byte>, random: Nonce, e1: Env, e2: Env,
                          anybody: u16, e3: Env)
    requires d.Valid() && At(d, i, armed.dataId) && IsCyclic(armed.keyId)
    requires WriteReady(p, d, i, armed, plain, Some(random), e1, e2) && e1.random.Some?
    ensures var after := AfterWrite(p, d, i, armed, plain, random, e1, e2);
            var frame := PassTwoFrame(p.gcm, armed, random, e1.random.value, plain);
            var again := VerifyApply(p, d.entries[i], after.writeSlots[i], after.app, after.keys, after.lastKid,
                                     Request(anybody, frame, e3.now, e3.random, REPLY_MAX));
            HoldsKey(after.keys, BaseId(armed.keyId), armed.key) ==>
              && (again.commit.Some? <==>
                    RepeatAdmitted(p, d.entries[i], after.app, after.keys, armed.keyId, plain, e2.now, e3.now))
              && (again.commit.Some? ==>
                    again.commit.value.plain == plain && again.slot == after.writeSlots[i].(armedAt := e3.now)
                    && again.slot.counter == 0)
  {
    hide PassTwoFrame, OpenPassTwo, Challenges, IsCyclic;
    var e, sr, key := d.entries[i], e1.random.value, d.keys[BaseId(armed.keyId)].key;
    var frame := PassTwoFrame(p.gcm, armed, random, sr, plain);
    FrameStartsWithKeyId(p.gcm, armed, random, sr, plain);
    FrameOpens(p, e, key, armed, random, e1, plain);
    var w := ChallengedSlot(armed.client, e1);
    var q := Request(armed.client, frame, e2.now, e2.random, REPLY_MAX);
    var q' := Request(anybody, frame, e3.now, e3.random, REPLY_MAX);
    var after := AfterWrite(p, d, i, armed, plain, random, e1, e2);
    RepeatedFrameCommits(p, e, w, d.app, d.keys, d.lastKid, q, after.writeSlots[i], after.app, after.keys, after.lastKid, q');
  }

  /** Under another key than the first time, on whatever slot, it commits only by a tag collision. */
  lemma RepeatUnderOtherKeyCollides<A>(p: Port<A>, e: Entry, w: WriteSlot, app: A, keys: KeyStore, lastKid: byte, q: Request,
                                       w': WriteSlot, app': A, keys': KeyStore, lastKid': byte, q': Request)
    requires e.dataLen <= MAX_PROTECTED
    requires VerifyApply(p, e, w, app, keys, lastKid, q).commit.Some? && q'.body == q.body
    ensures |q.body| == 1 + RAND_SIZE + e.dataLen + TAG_SIZE && BaseId(q.body[0]) in keys
    ensures var base := BaseId(q.body[0]);
            var again := VerifyApply(p, e, w', app', keys', lastKid', q');
            again.commit.Some? && !HoldsKey(keys', base, keys[base].key) ==>
              base in keys' && Collide(p.gcm, PassTwoQuery(p, e, w, keys[base].key, q.body),
                                       PassTwoQuery(p, e, w', keys'[base].key, q.body))
  {
    hide XorSeq, Crypt, Aad;
    CommitChecked(p, e, w, app, keys, lastKid, q);
    if VerifyApply(p, e, w', app', keys', lastKid', q').commit.Some? {
      CommitChecked(p, e, w', app', keys', lastKid', q');
    }
  }

  /* ---- Whole runs ---- */

  /** The n-th event hits entry `i` with this route. */
  predicate RoutedAt<A>(p: Port<A>, d: Sod<A>, i: nat, events: seq<Event<A>>, n: nat, route: Route)
    requires d.Shaped() && i < |d.entries| && n < |events|
  {
    var before := Run(p, d, events[..n]);
    && events[n].Ask? && Hits(before, i, events[n].x)
    && RouteOf(before.entries[i], before.readSlots[i], before.writeSlots[i], events[n].x.q) == route
  }

  /** A successful Pass 1 on entry `i`. */
  predicate ArmsAt<A>(p: Port<A>, d: Sod<A>, i: nat, events: seq<Event<A>>, n: nat)
    requires d.Shaped() && i < |d.entries| && n < |events|
  {
    RoutedAt(p, d, i, events, n, ToArmWrite)
    && Dispatch(p, Run(p, d, events[..n]), events[n].x.dataId, events[n].x.q).reply.Accepted?
  }

  /** A Pass-2 write committed on entry `i`. */
  predicate CommitsAt<A>(p: Port<A>, d: Sod<A>, i: nat, events: seq<Event<A>>, n: nat)
    requires d.Shaped() && i < |d.entries| && n < |events|
  {
    RoutedAt(p, d, i, events, n, ToVerify)
    && Dispatch(p, Run(p, d, events[..n]), events[n].x.dataId, events[n].x.q).commit.Some?
  }

  function DrawOf<A>(ev: Event<A>): Option<Nonce> { if ev.Ask? then ev.x.q.random else None }

  /** The device's random source never repeats itself. */
  ghost predicate FreshRandoms<A>(events: seq<Event<A>>) {
    forall m, n :: 0 <= m < n < |events| && DrawOf(events[m]).Some? && DrawOf(events[n]).Some? ==>
      DrawOf(events[m]) != DrawOf(events[n])
  }

  lemma PassTwoOnWriteSlot<A>(p: Port<A>, e: Entry, w: WriteSlot, app: A, keys: KeyStore, lastKid: byte, q: Request)
    ensures var v := VerifyApply(p, e, w, app, keys, lastKid, q).slot;
            v.serverRandom == w.serverRandom && v.clientDev == w.clientDev && (v.inUse ==> w.inUse)
  {
    hide OpenPassTwo, PassTwoCheck;
  }

  lemma PollOnWriteSlot<A>(p: Port<A>, e: Entry, w: WriteSlot, app: A, keys: KeyStore, lastKid: byte, q: Request)
    ensures var v := WritePoll(p, e, w, app, keys, lastKid, q).slot;
            v.serverRandom == w.serverRandom && v.clientDev == w.clientDev && (v.inUse ==> w.inUse)
  {
    hide Open, CheckCounter, SessionNonce;
  }

  lemma ArmOnWriteSlot<A>(p: Port<A>, e: Entry, w: WriteSlot, app: A, keys: KeyStore, lastKid: byte, q: Request, kid: Option<byte>)
    ensures var r := ArmWrite(p, e, w, app, keys, lastKid, q, kid);
            if r.reply.Accepted? then r.slot.inUse && q.random == Some(r.slot.serverRandom) else r.slot == w
  {
    hide KeyAccepted, HeldByOther;
  }

  /** One event and the write slot: only an arm sets the random and puts a free slot in use. */
  lemma EventOnWriteSlot<A>(p: Port<A>, d: Sod<A>, i: nat, ev: Event<A>)
    requires d.Shaped() && i < |d.entries|
    ensures var w, w' := d.writeSlots[i], Happen(p, d, ev).writeSlots[i];
            var arms := ev.Ask? && Hits(d, i, ev.x)
                        && RouteOf(d.entries[i], d.readSlots[i], d.writeSlots[i], ev.x.q) == ToArmWrite
                        && Dispatch(p, d, ev.x.dataId, ev.x.q).reply.Accepted?;
            if arms then w'.inUse && DrawOf(ev) == Some(w'.serverRandom)
            else w'.serverRandom == w.serverRandom && w'.clientDev == w.clientDev && (w'.inUse ==> w.inUse)
  {
    hide ReadPoll, ArmRead, Deliver, VerifyApply, WritePoll, ArmWrite;
    if ev.Ask? && Hits(d, i, ev.x) {
      var e, w, body := d.entries[i], d.writeSlots[i], ev.x.q.body;
      PassTwoOnWriteSlot(p, e, w, d.app, d.keys, d.lastKid, ev.x.q);
      PollOnWriteSlot(p, e, w, d.app, d.keys, d.lastKid, ev.x.q);
      ArmOnWriteSlot(p, e, w, d.app, d.keys, d.lastKid, ev.x.q, if body == [] then None else Some(body[0]));
    } else if ev.Ask? {
      OtherEntryUntouched(p, d, i, ev.x);
    }
  }

  lemma RunStep<A>(p: Port<A>, d: Sod<A>, events: seq<Event<A>>, n: nat)
    requires d.Shaped() && n < |events|
    ensures Run(p, d, events[..n + 1]) == Happen(p, Run(p, d, events[..n]), events[n])
  {
    hide Happen;
    assert events[..n + 1][..n] == events[..n];
  }

  /** The random of a slot in use was drawn by an arm, the latest one, which no arm has followed. */
  lemma {:induction false} InUseWasArmed<A>(p: Port<A>, d: Sod<A>, i: nat, events: seq<Event<A>>, n: nat) returns (m: nat)
    requires d.Shaped() && i < |d.entries| && n <= |events|
    requires !d.writeSlots[i].inUse && Run(p, d, events[..n]).writeSlots[i].inUse
    ensures m < n && ArmsAt(p, d, i, events, m)
    ensures DrawOf(events[m]) == Some(Run(p, d, events[..n]).writeSlots[i].serverRandom)
    ensures forall k :: m < k < n ==> !ArmsAt(p, d, i, events, k)
  {
    hide Happen, Dispatch;
    if n == 0 {
      assert false;
    } else {
      var before := Run(p, d, events[..n - 1]);
      RunStep(p, d, events, n - 1);
      EventOnWriteSlot(p, before, i, events[n - 1]);
      if ArmsAt(p, d, i, events, n - 1) {
        m := n - 1;
      } else {
        m := InUseWasArmed(p, d, i, events, n - 1);
      }
    }
  }

  /** Without an arm in between, random and in-use flag can only have come from the earlier state. */
  lemma {:induction false} NoArmBetween<A>(p: Port<A>, d: Sod<A>, i: nat, events: seq<Event<A>>, j: nat, k: nat)
    requires d.Shaped() && i < |d.entries| && j <= k <= |events|
    requires forall m :: j <= m < k ==> !ArmsAt(p, d, i, events, m)
    ensures var w, w' := Run(p, d, events[..j]).writeSlots[i], Run(p, d, events[..k]).writeSlots[i];
            w'.serverRandom == w.serverRandom && w'.clientDev == w.clientDev && (w'.inUse ==> w.inUse)
  {
    hide Happen, Dispatch;
    if j < k {
      NoArmBetween(p, d, i, events, j, k - 1);
      RunStep(p, d, events, k - 1);
      EventOnWriteSlot(p, Run(p, d, events[..k - 1]), i, events[k - 1]);
      assert !ArmsAt(p, d, i, events, k - 1);
    }
  }

  /** What a commit of the run was checked against. */
  function CommitQuery<A>(p: Port<A>, d: Sod<A>, i: nat, events: seq<Event<A>>, n: nat): Query
    requires d.Shaped() && i < |d.entries| && d.entries[i].dataLen <= MAX_PROTECTED && n < |events| && events[n].Ask?
    requires |events[n].x.q.body| == 1 + RAND_SIZE + d.entries[i].dataLen + TAG_SIZE
    requires BaseId(events[n].x.q.body[0]) in Run(p, d, events[..n]).keys
  {
    var before := Run(p, d, events[..n]);
    PassTwoQuery(p, d.entries[i], before.writeSlots[i], before.keys[BaseId(events[n].x.q.body[0])].key, events[n].x.q.body)
  }

  lemma CommitOfRun<A>(p: Port<A>, d: Sod<A>, i: nat, events: seq<Event<A>>, n: nat)
    requires d.Shaped() && i < |d.entries| && d.entries[i].dataLen <= MAX_PROTECTED && n < |events| && CommitsAt(p, d, i, events, n)
    ensures |events[n].x.q.body| == 1 + RAND_SIZE + d.entries[i].dataLen + TAG_SIZE
    ensures BaseId(events[n].x.q.body[0]) in Run(p, d, events[..n]).keys && Run(p, d, events[..n]).writeSlots[i].inUse
    ensures p.gcm.tag(CommitQuery(p, d, i, events, n)) == events[n].x.q.body[13 + d.entries[i].dataLen..]
    ensures Run(p, d, events[..n + 1]).writeSlots[i].inUse == IsCyclic(events[n].x.q.body[0])
    ensures !ArmsAt(p, d, i, events, n)
  {
    hide VerifyApply, PassTwoQuery, IsCyclic, ArmWrite, ArmRead, ReadPoll, WritePoll;
    var before, q := Run(p, d, events[..n]), events[n].x.q;
    RunStep(p, d, events, n);
    CommitChecked(p, d.entries[i], before.writeSlots[i], before.app, before.keys, before.lastKid, q);
  }

  /** The Pass-2 handler on what the n-th event brings. */
  function VerifiedAt<A>(p: Port<A>, d: Sod<A>, i: nat, events: seq<Event<A>>, n: nat): WriteOutcome<A>
    requires d.Shaped() && i < |d.entries| && n < |events| && events[n].Ask?
  {
    var before := Run(p, d, events[..n]);
    VerifyApply(p, d.entries[i], before.writeSlots[i], before.app, before.keys, before.lastKid, events[n].x.q)
  }

  lemma RoutedIsVerified<A>(p: Port<A>, d: Sod<A>, i: nat, events: seq<Event<A>>, n: nat)
    requires d.Shaped() && i < |d.entries| && n < |events| && RoutedAt(p, d, i, events, n, ToVerify)
    ensures CommitsAt(p, d, i, events, n) <==> VerifiedAt(p, d, i, events, n).commit.Some?
    ensures Run(p, d, events[..n + 1]).writeSlots[i] == VerifiedAt(p, d, i, events, n).slot
  {
    hide VerifyApply;
    RunStep(p, d, events, n);
  }

  /**
   * What the frame of the commit at `j` needs at `k`, all of it known before
   * `k`: no Pass 1 was answered since, the slot is in use and fresh by its own
   * timestamp, the key is in place, and host and role policy agree.
   */
  ghost predicate RestartsAt<A>(p: Port<A>, d: Sod<A>, i: nat, events: seq<Event<A>>, j: nat, k: nat)
    requires d.Shaped() && i < |d.entries| && j < k < |events| && events[j].Ask? && events[k].Ask?
  {
    var body, keys, v := events[j].x.q.body, Run(p, d, events[..j]).keys, Run(p, d, events[..k]);
    && body != [] && BaseId(body[0]) in keys && VerifiedAt(p, d, i, events, j).commit.Some?
    && (forall m :: j < m < k ==> !ArmsAt(p, d, i, events, m))
    && v.writeSlots[i].inUse && HoldsKey(v.keys, BaseId(body[0]), keys[BaseId(body[0])].key)
    && RepeatAdmitted(p, d.entries[i], v.app, v.keys, body[0], VerifiedAt(p, d, i, events, j).commit.value.plain,
                      v.writeSlots[i].armedAt, events[k].x.q.now)
  }

  /** Both commits, and one tag for the two different queries they were checked against. */
  ghost predicate CollidesAt<A>(p: Port<A>, d: Sod<A>, i: nat, events: seq<Event<A>>, j: nat, k: nat)
    requires d.Shaped() && i < |d.entries| && d.entries[i].dataLen <= MAX_PROTECTED && j < k < |events|
    requires events[j].Ask? && events[k].Ask? && events[j].x.q.body == events[k].x.q.body
  {
    && |events[j].x.q.body| == 1 + RAND_SIZE + d.entries[i].dataLen + TAG_SIZE
    && BaseId(events[j].x.q.body[0]) in Run(p, d, events[..j]).keys && BaseId(events[j].x.q.body[0]) in Run(p, d, events[..k]).keys
    && Collide(p.gcm, CommitQuery(p, d, i, events, j), CommitQuery(p, d, i, events, k))
  }

  /** With no arm in between, slot and client are those of the first time, so the one-step condition decides. */
  lemma RepeatWithoutArm<A>(p: Port<A>, d: Sod<A>, i: nat, events: seq<Event<A>>, j: nat, k: nat)
    requires d.Shaped() && i < |d.entries| && d.entries[i].dataLen <= MAX_PROTECTED && j < k < |events|
    requires CommitsAt(p, d, i, events, j) && RoutedAt(p, d, i, events, k, ToVerify)
    requires events[k].x.q.body == events[j].x.q.body && forall m :: j < m < k ==> !ArmsAt(p, d, i, events, m)
    ensures RestartsAt(p, d, i, events, j, k) ==>
              && CommitsAt(p, d, i, events, k) && !CollidesAt(p, d, i, events, j, k) && IsCyclic(events[j].x.q.body[0])
              && VerifiedAt(p, d, i, events, k).commit == VerifiedAt(p, d, i, events, j).commit
              && Run(p, d, events[..k + 1]).writeSlots[i].counter == 0
    ensures CommitsAt(p, d, i, events, k) ==> RestartsAt(p, d, i, events, j, k) || CollidesAt(p, d, i, events, j, k)
  {
    var e, q, q' := d.entries[i], events[j].x.q, events[k].x.q;
    var u, v := Run(p, d, events[..j]), Run(p, d, events[..k]);
    CommitOfRun(p, d, i, events, j);
    RoutedIsVerified(p, d, i, events, j);
    RoutedIsVerified(p, d, i, events, k);
    hide ArmsAt, CommitsAt, RoutedAt, Happen, Run, IsCyclic, VerifyApply, RepeatAdmitted, PassTwoQuery;
    FirstCommitLeaves(p, e, u.writeSlots[i], u.app, u.keys, u.lastKid, q);
    NoArmBetween(p, d, i, events, j + 1, k);
    var w, w' := u.writeSlots[i], v.writeSlots[i];
    assert w'.serverRandom == w.serverRandom && w'.clientDev == w.clientDev;
    RepeatedFrameCommits(p, e, w, u.app, u.keys, u.lastKid, q, w', v.app, v.keys, v.lastKid, q');
    RepeatUnderOtherKeyCollides(p, e, w, u.app, u.keys, u.lastKid, q, w', v.app, v.keys, v.lastKid, q');
    QuerySeesRandomAndClient(p, e, w, w', u.keys[BaseId(q.body[0])].key, q.body);
  }

  lemma QuerySeesRandomAndClient<A>(p: Port<A>, e: Entry, w: WriteSlot, w': WriteSlot, key: Key, body: seq<byte>)
    requires |body| == 1 + RAND_SIZE + e.dataLen + TAG_SIZE && e.dataLen <= MAX_PROTECTED
    requires w'.serverRandom == w.serverRandom && w'.clientDev == w.clientDev
    ensures PassTwoQuery(p, e, w', key, body) == PassTwoQuery(p, e, w, key, body)
  {
  }

  /** A frame of Pass-2 length can only reach the Pass-2 handler. */
  lemma SameFrameSameRoute<A>(p: Port<A>, d: Sod<A>, i: nat, events: seq<Event<A>>, j: nat, k: nat)
    requires d.Shaped() && i < |d.entries| && j < |events| && k < |events| && RoutedAt(p, d, i, events, j, ToVerify)
    requires events[k].Ask? && Hits(d, i, events[k].x) && events[k].x.q.body == events[j].x.q.body
    requires |events[j].x.q.body| == 1 + RAND_SIZE + d.entries[i].dataLen + TAG_SIZE
    ensures RoutedAt(p, d, i, events, k, ToVerify)
  {
    hide Run;
  }

  /**
   * Over every run with a random source that does not repeat, on entry `i`:
   * the frame of a committed Pass 2, sent to the entry again by anybody, commits
   * if and only if the condition above holds, or its tag serves two different
   * queries, and never for both reasons. In the first case bit 6 is set, the
   * value is the same, and the session starts over at counter 0.
   */
  lemma FrameCommitsTwice<A>(p: Port<A>, d: Sod<A>, i: nat, events: seq<Event<A>>, j: nat, k: nat)
    requires d.Shaped() && i < |d.entries| && d.entries[i].dataLen <= MAX_PROTECTED && !d.writeSlots[i].inUse
    requires FreshRandoms(events) && j < k < |events| && CommitsAt(p, d, i, events, j)
    requires events[k].Ask? && Hits(d, i, events[k].x) && events[k].x.q.body == events[j].x.q.body
    ensures RestartsAt(p, d, i, events, j, k) <==> CommitsAt(p, d, i, events, k) && !CollidesAt(p, d, i, events, j, k)
    ensures RestartsAt(p, d, i, events, j, k) ==>
              && IsCyclic(events[j].x.q.body[0])
              && VerifiedAt(p, d, i, events, k).commit == VerifiedAt(p, d, i, events, j).commit
              && Run(p, d, events[..k + 1]).writeSlots[i].counter == 0
  {
    CommitOfRun(p, d, i, events, j);
    SameFrameSameRoute(p, d, i, events, j, k);
    hide ArmsAt, CommitsAt, RoutedAt, Happen, IsCyclic, VerifiedAt;
    if forall m :: j < m < k ==> !ArmsAt(p, d, i, events, m) {
      RepeatWithoutArm(p, d, i, events, j, k);
    } else if CommitsAt(p, d, i, events, k) {
      CommitOfRun(p, d, i, events, k);
      var m := InUseWasArmed(p, d, i, events, j);
      var n := InUseWasArmed(p, d, i, events, k);
      assert m < j < n;
      DifferentRandomsCollide(p, d, i, events, j, k);
    }
  }

  lemma DifferentRandomsCollide<A>(p: Port<A>, d: Sod<A>, i: nat, events: seq<Event<A>>, j: nat, k: nat)
    requires d.Shaped() && i < |d.entries| && d.entries[i].dataLen <= MAX_PROTECTED && j < |events| && k < |events|
    requires CommitsAt(p, d, i, events, j) && CommitsAt(p, d, i, events, k) && events[j].x.q.body == events[k].x.q.body
    requires Run(p, d, events[..j]).writeSlots[i].serverRandom != Run(p, d, events[..k]).writeSlots[i].serverRandom
    ensures |events[j].x.q.body| == 1 + RAND_SIZE + d.entries[i].dataLen + TAG_SIZE
    ensures BaseId(events[j].x.q.body[0]) in Run(p, d, events[..j]).keys
    ensures BaseId(events[k].x.q.body[0]) in Run(p, d, events[..k]).keys
    ensures Collide(p.gcm, CommitQuery(p, d, i, events, j), CommitQuery(p, d, i, events, k))
  {
    CommitOfRun(p, d, i, events, j);
    CommitOfRun(p, d, i, events, k);
    hide CommitsAt, Happen, Run, PassTwoQuery;
    var body, u, v := events[j].x.q.body, Run(p, d, events[..j]), Run(p, d, events[..k]);
    OtherRandomOtherQuery(p, d.entries[i], u.writeSlots[i], u.keys[BaseId(body[0])].key, v.writeSlots[i],
                          v.keys[BaseId(body[0])].key, body);
  }

  lemma OtherRandomOtherQuery<A>(p: Port<A>, e: Entry, w: WriteSlot, key: Key, w': WriteSlot, key': Key, body: seq<byte>)
    requires |body| == 1 + RAND_SIZE + e.dataLen + TAG_SIZE && e.dataLen <= MAX_PROTECTED
    requires w.serverRandom != w'.serverRandom
    ensures PassTwoQuery(p, e, w, key, body) != PassTwoQuery(p, e, w', key', body)
  {
    hide QueryFor, XorSeq;
    var cr, text := body[1..13], body[13..13 + e.dataLen];
    assert (cr + w.serverRandom)[12..] == w.serverRandom && (cr + w'.serverRandom)[12..] == w'.serverRandom;
    QueryBinds(key, XorSeq(cr, w.serverRandom), ContextOf(p, DIR_WRITE_REQUEST, body[0], w.clientDev, e),
               Some(Randoms(cr, w.serverRandom)), text, key', XorSeq(cr, w'.serverRandom),
               ContextOf(p, DIR_WRITE_REQUEST, body[0], w'.clientDev, e), Some(Randoms(cr, w'.serverRandom)), text);
  }
}
