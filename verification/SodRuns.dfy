/**
 * Safety of the secure object dictionary under every sequence of requests,
 * whoever sends them, and of changes to keys and host state in between: nonce
 * use, poll counters, challenge use, slot ownership.
 */
module SodRuns {
  import opened Bytes
  import opened Aborts
  import opened Aead
  import opened SecureOd

  datatype Input = Input(dataId: u32, q: Request)

  /** A request, or anything the rest of the device does in between to the host's state and the key store. */
  datatype Event<+A> = Ask(x: Input) | Elsewhere(app: A, keys: KeyStore)

  ghost predicate Distinct<T>(s: seq<T>) {
    forall i, j :: 0 <= i < j < |s| ==> s[i] != s[j]
  }

  function Happen<A>(p: Port<A>, d: Sod<A>, ev: Event<A>): (r: Sod<A>)
    requires d.Shaped()
    ensures r.entries == d.entries && r.Shaped()
  {
    match ev
    case Ask(x) => Dispatch(p, d, x.dataId, x.q).sod
    case Elsewhere(app, keys) => d.(app := app, keys := keys)
  }

  /** The state after a whole run. */
  function Run<A>(p: Port<A>, d: Sod<A>, events: seq<Event<A>>): (r: Sod<A>)
    requires d.Shaped()
    ensures r.entries == d.entries && r.Shaped()
  {
    if events == [] then d else Happen(p, Run(p, d, events[..|events| - 1]), events[|events| - 1])
  }

  predicate Hits<A>(d: Sod<A>, i: nat, x: Input) {
    FindIndex(d.entries, x.dataId) == i < |d.entries|
  }

  /** A request for another data_id leaves entry `i`'s slots alone. */
  lemma OtherEntryUntouched<A>(p: Port<A>, d: Sod<A>, i: nat, x: Input)
    requires d.Shaped() && i < |d.entries|
    requires !Hits(d, i, x)
    ensures var r := Dispatch(p, d, x.dataId, x.q).sod;
            r.readSlots[i] == d.readSlots[i] && r.writeSlots[i] == d.writeSlots[i]
  {
  }

  /* ---- Slot ownership ---- */

  predicate ReadHeld(s: ReadSlot, now: u16) { Held(s.inUse, s.cyclic, s.armedAt, now) }

  predicate WriteHeld(w: WriteSlot, now: u16) { Held(w.inUse, w.cyclic, w.armedAt, now) }

  /**
   * No request turns a slot that one client holds, inside its window, into a
   * slot in use by another client.
   */
  lemma HeldSlotKeepsOwner<A>(p: Port<A>, d: Sod<A>, i: nat, x: Input)
    requires d.Shaped() && i < |d.entries|
    ensures var r := Dispatch(p, d, x.dataId, x.q).sod;
            && (ReadHeld(d.readSlots[i], x.q.now) && r.readSlots[i].inUse ==>
                  r.readSlots[i].clientDev == d.readSlots[i].clientDev)
            && (WriteHeld(d.writeSlots[i], x.q.now) && r.writeSlots[i].inUse ==>
                  r.writeSlots[i].clientDev == d.writeSlots[i].clientDev)
  {
    hide Seal, Open, OpenPassTwo, SessionNonce, PassTwoCheck;
    if !Hits(d, i, x) {
      OtherEntryUntouched(p, d, i, x);
    }
  }

  /** A slot changes hands only when its window has passed, and only to the client that arms it. */
  lemma OwnerChangesOnlyWhenStale<A>(p: Port<A>, d: Sod<A>, i: nat, x: Input)
    requires d.Shaped() && i < |d.entries|
    ensures var r := Dispatch(p, d, x.dataId, x.q).sod;
            && (r.readSlots[i].inUse && r.readSlots[i].clientDev != d.readSlots[i].clientDev ==>
                  !ReadHeld(d.readSlots[i], x.q.now) && r.readSlots[i].clientDev == x.q.client)
            && (r.writeSlots[i].inUse && r.writeSlots[i].clientDev != d.writeSlots[i].clientDev ==>
                  !WriteHeld(d.writeSlots[i], x.q.now) && r.writeSlots[i].clientDev == x.q.client)
  {
    hide Seal, Open, OpenPassTwo, SessionNonce, PassTwoCheck, CheckCounter;
    HeldSlotKeepsOwner(p, d, i, x);
    if !Hits(d, i, x) {
      OtherEntryUntouched(p, d, i, x);
    }
  }

  /* ---- Nonces and deliveries of one read arming ---- */

  /** What the server did for entry `i` since its read slot was last armed. */
  datatype ReadLog = ReadLog(nonces: seq<Nonce>, delivered: nat)

  function LogRead<A>(p: Port<A>, d: Sod<A>, i: nat, log: ReadLog, x: Input): ReadLog
    requires d.Shaped() && i < |d.entries|
  {
    if !Hits(d, i, x) then log
    else
      var route := RouteOf(d.entries[i], d.readSlots[i], d.writeSlots[i], x.q);
      var r := DispatchAt(p, d, i, x.q);
      if r.nonce.Some? && route == ToArmRead then ReadLog([r.nonce.value], 0)
      else if r.nonce.Some? then log.(nonces := log.nonces + [r.nonce.value])
      else if route == ToDeliver && r.reply.Accepted? then log.(delivered := log.delivered + 1)
      else log
  }

  function ReadHistory<A>(p: Port<A>, d: Sod<A>, i: nat, events: seq<Event<A>>): ReadLog
    requires d.Shaped() && i < |d.entries|
  {
    if events == [] then ReadLog([], 0)
    else
      var n := |events| - 1;
      var log := ReadHistory(p, d, i, events[..n]);
      if events[n].Ask? then LogRead(p, Run(p, d, events[..n]), i, log, events[n].x) else log
  }

  ghost predicate ReadInv(s: ReadSlot, log: ReadLog) {
    && s.counter <= KEY_USE_LIMIT
    && Distinct(log.nonces)
    && log.delivered + (if s.inUse && s.prepared != [] then 1 else 0) <= 1
    && (s.inUse && s.cyclic ==>
          && |log.nonces| == s.counter + 1
          && forall k :: 0 <= k < |log.nonces| ==> log.nonces[k] == SessionNonce(s.nonceBase, k))
  }

  lemma NextNonceIsNew(log: seq<Nonce>, base: Nonce, counter: u32)
    requires |log| == counter
    requires forall k :: 0 <= k < |log| ==> log[k] == SessionNonce(base, k)
    ensures SessionNonce(base, counter) !in log
  {
    if k :| 0 <= k < |log| && log[k] == SessionNonce(base, counter) {
      SessionNonceInjective(base, k, counter);
    }
  }

  lemma ReadPollKeepsInv<A>(p: Port<A>, e: Entry, s: ReadSlot, app: A, keys: KeyStore, q: Request, log: ReadLog)
    requires ReadInv(s, log) && s.inUse && s.cyclic
    ensures var r := ReadPoll(p, e, s, app, keys, q);
            ReadInv(r.slot, if r.nonce.Some? then log.(nonces := log.nonces + [r.nonce.value]) else log)
  {
    var r := ReadPoll(p, e, s, app, keys, q);
    if r.nonce.Some? {
      NextNonceIsNew(log.nonces, s.nonceBase, s.counter + 1);
      assert r.nonce.value == SessionNonce(s.nonceBase, s.counter + 1);
      assert r.slot == s.(counter := s.counter + 1, armedAt := q.now);
    }
  }

  lemma ArmReadKeepsInv<A>(p: Port<A>, e: Entry, s: ReadSlot, app: A, keys: KeyStore, q: Request, log: ReadLog)
    requires ReadInv(s, log) && |q.body| == READ_CHALLENGE_LEN
    ensures var r := ArmRead(p, e, s, app, keys, q);
            ReadInv(r.slot, if r.nonce.Some? then ReadLog([r.nonce.value], 0) else log)
  {
    var r := ArmRead(p, e, s, app, keys, q);
    if r.nonce.Some? {
      SessionNonceZero(r.nonce.value);
    }
  }

  lemma ReadStepKeepsInv<A>(p: Port<A>, d: Sod<A>, i: nat, log: ReadLog, x: Input)
    requires d.Shaped() && i < |d.entries|
    requires ReadInv(d.readSlots[i], log)
    ensures ReadInv(Dispatch(p, d, x.dataId, x.q).sod.readSlots[i], LogRead(p, d, i, log, x))
  {
    hide ReadPoll, ArmRead, VerifyApply, WritePoll, ArmWrite;
    var e, s := d.entries[i], d.readSlots[i];
    if !Hits(d, i, x) {
      OtherEntryUntouched(p, d, i, x);
    } else {
      match RouteOf(e, s, d.writeSlots[i], x.q) {
        case ToReadPoll => ReadPollKeepsInv(p, e, s, d.app, d.keys, x.q, log);
        case ToArmRead => ArmReadKeepsInv(p, e, s, d.app, d.keys, x.q, log);
        case _ =>
      }
    }
  }

  /**
   * Over every run: the nonces sealed under since the last arming (the arming
   * response included) are pairwise distinct, the counter stays within the
   * key-use limit, and the prepared response is delivered at most once.
   */
  lemma {:induction false} ReadNoncesNeverRepeat<A>(p: Port<A>, d: Sod<A>, i: nat, events: seq<Event<A>>)
    requires d.Shaped() && i < |d.entries|
    requires !d.readSlots[i].inUse && d.readSlots[i].counter <= KEY_USE_LIMIT
    ensures ReadInv(Run(p, d, events).readSlots[i], ReadHistory(p, d, i, events))
  {
    if events != [] {
      var n := |events| - 1;
      ReadNoncesNeverRepeat(p, d, i, events[..n]);
      if events[n].Ask? {
        ReadStepKeepsInv(p, Run(p, d, events[..n]), i, ReadHistory(p, d, i, events[..n]), events[n].x);
      }
    }
  }

  /* ---- Committed polls of one write session ---- */

  datatype PollRecord = PollRecord(counter: u32, frame: seq<byte>, query: Query)

  /** The polls committed since the session's nonce base was last set. */
  datatype WriteLog = WriteLog(base: Nonce, polls: seq<PollRecord>)

  /** The tag query that a write poll is checked against. */
  function PollQuery<A>(p: Port<A>, e: Entry, w: WriteSlot, key: Key, counter: u32, body: seq<byte>): Query
    requires |body| == 1 + e.dataLen + TAG_SIZE && e.dataLen <= MAX_PROTECTED
  {
    QueryFor(key, SessionNonce(w.nonceBase, counter), ContextOf(p, DIR_WRITE_POLL_REQUEST, w.keyId, w.clientDev, e),
             None, body[1..1 + e.dataLen])
  }

  function LogWrite<A>(p: Port<A>, d: Sod<A>, i: nat, log: WriteLog, x: Input): WriteLog
    requires d.Shaped() && i < |d.entries|
    requires d.entries[i].dataLen <= MAX_PROTECTED
  {
    if !Hits(d, i, x) then log
    else
      var w := d.writeSlots[i];
      var r := DispatchAt(p, d, i, x.q);
      match RouteOf(d.entries[i], d.readSlots[i], w, x.q)
      case ToWritePoll =>
        if r.commit.Some? then
          var c := r.commit.value;
          log.(polls := log.polls + [PollRecord(c.counter, x.q.body,
                                                PollQuery(p, d.entries[i], w, d.keys[BaseId(w.keyId)].key, c.counter, x.q.body))])
        else log
      case ToArmWrite => if r.reply.Accepted? then WriteLog(r.sod.writeSlots[i].nonceBase, []) else log
      case ToVerify => if r.commit.Some? then WriteLog(r.sod.writeSlots[i].nonceBase, []) else log
      case _ => log
  }

  function WriteHistory<A>(p: Port<A>, d: Sod<A>, i: nat, events: seq<Event<A>>): WriteLog
    requires d.Shaped() && i < |d.entries|
    requires d.entries[i].dataLen <= MAX_PROTECTED
  {
    if events == [] then WriteLog(Zeros(NONCE_SIZE), [])
    else
      var n := |events| - 1;
      var log := WriteHistory(p, d, i, events[..n]);
      if events[n].Ask? then LogWrite(p, Run(p, d, events[..n]), i, log, events[n].x) else log
  }

  /** The n-th committed poll carries full counter n, its nonce, and a tag that verifies. */
  ghost predicate PollsInOrder(g: Gcm, log: WriteLog) {
    && |log.polls| <= KEY_USE_LIMIT
    && forall k :: 0 <= k < |log.polls| ==>
         var r := log.polls[k];
         && r.counter == k + 1
         && r.query.nonce == SessionNonce(log.base, k + 1)
         && |r.frame| >= TAG_SIZE && g.tag(r.query) == r.frame[|r.frame| - TAG_SIZE..]
         && r.frame[0] == (k + 1) % 0x100
  }

  ghost predicate WriteInv(g: Gcm, w: WriteSlot, log: WriteLog) {
    && PollsInOrder(g, log)
    && (w.inUse && w.cyclic ==> |log.polls| == w.counter && log.base == w.nonceBase)
  }

  lemma WritePollKeepsInv<A>(p: Port<A>, e: Entry, w: WriteSlot, app: A, keys: KeyStore, lastKid: byte, q: Request,
                             log: WriteLog)
    requires e.dataLen <= MAX_PROTECTED && |q.body| == 1 + e.dataLen + TAG_SIZE
    requires WriteInv(p.gcm, w, log) && w.inUse && w.cyclic
    ensures var r := WritePoll(p, e, w, app, keys, lastKid, q);
            && (r.commit.Some? ==> BaseId(w.keyId) in keys)
            && WriteInv(p.gcm, r.slot,
                 if r.commit.Some? then
                   log.(polls := log.polls + [PollRecord(r.commit.value.counter, q.body,
                     PollQuery(p, e, w, keys[BaseId(w.keyId)].key, r.commit.value.counter, q.body))])
                 else log)
  {
    hide SessionNonce, Crypt, SessionFresh;
    var r := WritePoll(p, e, w, app, keys, lastKid, q);
    if r.commit.Some? {
      var query := PollQuery(p, e, w, keys[BaseId(w.keyId)].key, w.counter + 1, q.body);
      assert q.body[1 + e.dataLen..] == q.body[|q.body| - TAG_SIZE..];
      assert p.gcm.tag(query) == q.body[|q.body| - TAG_SIZE..];
      assert r.slot == w.(counter := w.counter + 1, armedAt := q.now);
    }
  }

  lemma WriteStepKeepsInv<A>(p: Port<A>, d: Sod<A>, i: nat, log: WriteLog, x: Input)
    requires d.Shaped() && i < |d.entries|
    requires d.entries[i].dataLen <= MAX_PROTECTED
    requires WriteInv(p.gcm, d.writeSlots[i], log)
    ensures WriteInv(p.gcm, Dispatch(p, d, x.dataId, x.q).sod.writeSlots[i], LogWrite(p, d, i, log, x))
  {
    hide WritePoll, ReadPoll, ArmRead, PollQuery, Open, OpenPassTwo;
    var e, w := d.entries[i], d.writeSlots[i];
    if !Hits(d, i, x) {
      OtherEntryUntouched(p, d, i, x);
    } else {
      match RouteOf(e, d.readSlots[i], w, x.q) {
        case ToWritePoll => WritePollKeepsInv(p, e, w, d.app, d.keys, d.lastKid, x.q, log);
        case _ =>
      }
    }
  }

  /** Over every run, the polls of a session commit with counters 1, 2, 3, ... and no gap. */
  lemma {:induction false} PollsCommitInOrder<A>(p: Port<A>, d: Sod<A>, i: nat, events: seq<Event<A>>)
    requires d.Shaped() && i < |d.entries|
    requires d.entries[i].dataLen <= MAX_PROTECTED && !d.writeSlots[i].inUse
    ensures WriteInv(p.gcm, Run(p, d, events).writeSlots[i], WriteHistory(p, d, i, events))
  {
    if events != [] {
      var n := |events| - 1;
      PollsCommitInOrder(p, d, i, events[..n]);
      if events[n].Ask? {
        WriteStepKeepsInv(p, Run(p, d, events[..n]), i, WriteHistory(p, d, i, events[..n]), events[n].x);
      }
    }
  }

  lemma RepeatedFrameCollides(g: Gcm, log: WriteLog, j: nat, k: nat)
    requires PollsInOrder(g, log) && j < k < |log.polls|
    ensures log.polls[j].query.nonce != log.polls[k].query.nonce
    ensures log.polls[j].frame == log.polls[k].frame ==>
              (k - j) % 0x100 == 0 && Collide(g, log.polls[j].query, log.polls[k].query)
  {
    hide SessionNonce;
    var a, b := log.polls[j], log.polls[k];
    assert a.query.nonce == SessionNonce(log.base, j + 1) && b.query.nonce == SessionNonce(log.base, k + 1);
    if a.query.nonce == b.query.nonce {
      SessionNonceInjective(log.base, j + 1, k + 1);
    }
    assert a.frame[0] == (j + 1) % 0x100 && b.frame[0] == (k + 1) % 0x100;
    assert g.tag(a.query) == a.frame[|a.frame| - TAG_SIZE..];
    assert g.tag(b.query) == b.frame[|b.frame| - TAG_SIZE..];
  }

  /**
   * No frame commits twice in a session, even when its low byte comes round
   * again: that would be one tag for two queries with different nonces.
   */
  lemma NoPollCommitsTwice<A>(p: Port<A>, d: Sod<A>, i: nat, events: seq<Event<A>>, j: nat, k: nat)
    requires d.Shaped() && i < |d.entries|
    requires d.entries[i].dataLen <= MAX_PROTECTED && !d.writeSlots[i].inUse
    requires j < k < |WriteHistory(p, d, i, events).polls|
    ensures var polls := WriteHistory(p, d, i, events).polls;
            && polls[j].query.nonce != polls[k].query.nonce
            && (polls[j].frame == polls[k].frame ==>
                  (k - j) % 0x100 == 0 && Collide(p.gcm, polls[j].query, polls[k].query))
  {
    PollsCommitInOrder(p, d, i, events);
    RepeatedFrameCollides(p.gcm, WriteHistory(p, d, i, events), j, k);
  }

  /* ---- Refused polls ---- */

  /** A poll in a live session of the client that sends it. */
  predicate LivePoll(s: ReadSlot, w: WriteSlot, route: Route, q: Request) {
    match route
    case ToReadPoll => s.clientDev == q.client && SessionFresh(q.now, s.armedAt)
    case ToWritePoll => w.clientDev == q.client && SessionFresh(q.now, w.armedAt)
    case _ => false
  }

  predicate WrongLowByte(s: ReadSlot, w: WriteSlot, route: Route, q: Request)
    requires q.body != []
  {
    CheckCounter(if route == ToReadPoll then s.counter else w.counter, q.body[0]).Desync?
  }

  predicate BadTag<A>(p: Port<A>, e: Entry, w: WriteSlot, keys: KeyStore, q: Request)
    requires |q.body| == 1 + e.dataLen + TAG_SIZE && e.dataLen <= MAX_PROTECTED
  {
    && CheckCounter(w.counter, q.body[0]).Next?
    && BaseId(w.keyId) in keys
    && p.gcm.tag(PollQuery(p, e, w, keys[BaseId(w.keyId)].key, w.counter + 1, q.body)) != q.body[1 + e.dataLen..]
  }

  /** A poll with the wrong low byte or a bad tag is refused and changes nothing at all. */
  lemma BadPollChangesNothing<A>(p: Port<A>, d: Sod<A>, i: nat, q: Request)
    requires d.Shaped() && i < |d.entries|
    requires d.entries[i].dataLen <= MAX_PROTECTED
    requires LivePoll(d.readSlots[i], d.writeSlots[i], RouteOf(d.entries[i], d.readSlots[i], d.writeSlots[i], q), q)
    requires var e, s, w := d.entries[i], d.readSlots[i], d.writeSlots[i];
             var route := RouteOf(e, s, w, q);
             WrongLowByte(s, w, route, q) || (route == ToWritePoll && BadTag(p, e, w, d.keys, q))
    ensures DispatchAt(p, d, i, q).sod == d && DispatchAt(p, d, i, q).reply.Refused?
    ensures var e, s, w := d.entries[i], d.readSlots[i], d.writeSlots[i];
            var route, reply := RouteOf(e, s, w, q), DispatchAt(p, d, i, q).reply;
            if WrongLowByte(s, w, route, q) then
              route == ToWritePoll || q.replyMax >= 1 + e.dataLen + TAG_SIZE ==> reply == Refused(POLL_COUNTER)
            else p.roleAllowed(d.app, OpWrite, BaseId(w.keyId), e.dataId) ==> reply == Refused(TAG_VERIFY)
  {
    hide Seal, ApplyPassTwo, ArmRead, ArmWrite, SessionNonce;
    var e, s, w := d.entries[i], d.readSlots[i], d.writeSlots[i];
    if RouteOf(e, s, w, q) == ToReadPoll {
      assert d.readSlots[i := s] == d.readSlots;
    } else {
      assert d.writeSlots[i := w] == d.writeSlots;
    }
  }

  /* ---- Challenges ---- */

  /** Successful Pass-1 arms of entry `i`'s write slot, and Pass-2 writes accepted with bit 6 clear. */
  datatype Tally = Tally(arms: nat, singles: nat)

  function TallyStep<A>(p: Port<A>, d: Sod<A>, i: nat, t: Tally, x: Input): Tally
    requires d.Shaped() && i < |d.entries|
  {
    if !Hits(d, i, x) then t
    else
      var r := DispatchAt(p, d, i, x.q);
      match RouteOf(d.entries[i], d.readSlots[i], d.writeSlots[i], x.q)
      case ToArmWrite => if r.reply.Accepted? then t.(arms := t.arms + 1) else t
      case ToVerify => if r.commit.Some? && !r.commit.value.session then t.(singles := t.singles + 1) else t
      case _ => t
  }

  function TallyOf<A>(p: Port<A>, d: Sod<A>, i: nat, events: seq<Event<A>>): Tally
    requires d.Shaped() && i < |d.entries|
  {
    if events == [] then Tally(0, 0)
    else
      var n := |events| - 1;
      var t := TallyOf(p, d, i, events[..n]);
      if events[n].Ask? then TallyStep(p, Run(p, d, events[..n]), i, t, events[n].x) else t
  }

  function Token(w: WriteSlot): nat { if w.inUse then 1 else 0 }

  lemma TallyStepKeepsBalance<A>(p: Port<A>, d: Sod<A>, i: nat, t: Tally, x: Input)
    requires d.Shaped() && i < |d.entries|
    requires t.singles + Token(d.writeSlots[i]) <= t.arms
    ensures var u := TallyStep(p, d, i, t, x);
            u.singles + Token(Dispatch(p, d, x.dataId, x.q).sod.writeSlots[i]) <= u.arms
  {
    hide Seal, Open, OpenPassTwo, SessionNonce, PassTwoCheck, ReadPoll, ArmRead;
    if !Hits(d, i, x) {
      OtherEntryUntouched(p, d, i, x);
    }
  }

  /** Over every run, each accepted single-shot write has used up an arming of its own. */
  lemma {:induction false} SinglesNeverOutnumberArms<A>(p: Port<A>, d: Sod<A>, i: nat, events: seq<Event<A>>)
    requires d.Shaped() && i < |d.entries|
    requires !d.writeSlots[i].inUse
    ensures var t := TallyOf(p, d, i, events); t.singles + Token(Run(p, d, events).writeSlots[i]) <= t.arms
  {
    if events != [] {
      var n := |events| - 1;
      SinglesNeverOutnumberArms(p, d, i, events[..n]);
      if events[n].Ask? {
        TallyStepKeepsBalance(p, Run(p, d, events[..n]), i, TallyOf(p, d, i, events[..n]), events[n].x);
      }
    }
  }

  /** A Pass-2 attempt keeps the slot exactly when it succeeds with bit 6 set. */
  lemma PassTwoConsumesChallenge<A>(p: Port<A>, d: Sod<A>, i: nat, q: Request)
    requires d.Shaped() && i < |d.entries|
    requires RouteOf(d.entries[i], d.readSlots[i], d.writeSlots[i], q) == ToVerify
    ensures var r := DispatchAt(p, d, i, q);
            && (r.sod.writeSlots[i].inUse <==> r.commit.Some? && r.commit.value.session)
            && (r.commit.Some? ==> d.writeSlots[i].inUse && IsCyclic(q.body[0]) == r.commit.value.session)
            && (r.commit.Some? <==> r.reply == Accepted([]))
  {
  }
}
