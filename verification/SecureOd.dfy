/**
 * The server's secure object dictionary as transition functions: one entry's
 * read slot and write slot, the request handlers on them, and the dispatch
 * that picks a handler from the request length and the slots.
 *
 * The host application behind the port hooks is a parameter: `A` is its state
 * and `Port<A>` its hooks. Clock and random source are inputs of a request.
 */
module SecureOd {
  import opened Bytes
  import opened Aborts
  import opened Aead

  const MAX_ENTRIES := 8
  const KEY_SLOTS := 4
  const CHALLENGE_TIMEOUT_MS := 5000
  const SESSION_IDLE_TIMEOUT_MS := 60000
  const READ_CHALLENGE_LEN := 1 + RAND_SIZE
  const KEY_NONE: byte := 0
  /** Room that the device's request chain gives a reply. */
  const REPLY_MAX := 64

  /* ---- Key store ---- */

  datatype KeyRecord = KeyRecord(key: Key, idValue: u32)

  type KeyStore = m: map<byte, KeyRecord> | forall k :: k in m ==> 1 <= k <= KEY_SLOTS
    witness map[]

  /** Write-once install; the flag says whether the slot was free and in range. */
  function SetKey(keys: KeyStore, slot: byte, key: Key, idValue: u32): (r: (KeyStore, bool)) {
    if 1 <= slot <= KEY_SLOTS && slot !in keys
    then (keys[slot := KeyRecord(key, idValue)], true)
    else (keys, false)
  }

  /* ---- Entries, slots and the port ---- */

  datatype Entry = Entry(dataId: u32, keyId: byte, secureRo: bool, secureWo: bool, dataLen: u16)

  /** `prepared` is the sealed response held for Pass 2; empty means none. */
  datatype ReadSlot = ReadSlot(inUse: bool, cyclic: bool, clientDev: u16, armedAt: u16,
                               prepared: seq<byte>, keyId: byte, nonceBase: Nonce, counter: u32)

  /** A prepared response is a server random, a text and a tag. */
  predicate WholeResponse(s: ReadSlot) {
    s.prepared == [] || RAND_SIZE + TAG_SIZE <= |s.prepared| <= RAND_SIZE + MAX_PROTECTED + TAG_SIZE
  }

  datatype WriteSlot = WriteSlot(inUse: bool, cyclic: bool, clientDev: u16, armedAt: u16,
                                 keyId: byte, serverRandom: Nonce, nonceBase: Nonce, counter: u32)

  const EMPTY_READ := ReadSlot(false, false, 0, 0, [], 0, Zeros(NONCE_SIZE), 0)
  const EMPTY_WRITE := WriteSlot(false, false, 0, 0, 0, Zeros(NONCE_SIZE), Zeros(NONCE_SIZE), 0)

  datatype Op = OpRead | OpWrite

  datatype ReadHook<+A> = ReadHook(app: A, abort: byte, plain: seq<byte>)
  datatype WriteHook<+A> = WriteHook(app: A, keys: KeyStore, abort: byte)

  /** `writeAfter` also sees the key store and the base id that authorized the write. */
  datatype Port<!A> = Port(
    gcm: Gcm,
    deviceId: u16,
    accessAllowed: (A, Op, u32) -> bool,
    roleAllowed: (A, Op, byte, u32) -> bool,
    readBefore: (A, u32) -> ReadHook<A>,
    writeAfter: (A, KeyStore, byte, u32, seq<byte>) -> WriteHook<A>)

  datatype Request = Request(client: u16, body: seq<byte>, now: u16, random: Option<Nonce>, replyMax: nat)

  datatype Reply = Accepted(data: seq<byte>) | Deferred | Refused(code: byte) | NotHandled

  /* ---- Freshness and the single-client guard ---- */

  /** 16-bit subtraction of two readings of the wrapping millisecond clock. */
  function Age(now: u16, armedAt: u16): u16 { (now - armedAt) % 0x1_0000 }

  predicate ChallengeFresh(now: u16, armedAt: u16) { Age(now, armedAt) <= CHALLENGE_TIMEOUT_MS }

  predicate SessionFresh(now: u16, armedAt: u16) { Age(now, armedAt) <= SESSION_IDLE_TIMEOUT_MS }

  /** In use, by somebody, and inside the window that its kind of arming has. */
  predicate Held(inUse: bool, cyclic: bool, armedAt: u16, now: u16) {
    inUse && if cyclic then SessionFresh(now, armedAt) else ChallengeFresh(now, armedAt)
  }

  predicate HeldByOther(inUse: bool, cyclic: bool, owner: u16, armedAt: u16, q: Request) {
    owner != q.client && Held(inUse, cyclic, armedAt, q.now)
  }

  /** Two clock readings less than one wrap apart measure the true elapsed time. */
  lemma AgeIsElapsedTime(armed: nat, now: nat)
    requires armed <= now < armed + 0x1_0000
    ensures Age(now % 0x1_0000, armed % 0x1_0000) == now - armed
  {
    var a, n := armed % 0x1_0000, now % 0x1_0000;
    assert (n - a) % 0x1_0000 == (now - armed) % 0x1_0000 by {
      assert n - a == (now - armed) - 0x1_0000 * (now / 0x1_0000 - armed / 0x1_0000);
    }
  }

  /* ---- Read side ---- */

  /** `nonce` is the nonce the server sealed under in this step, if it did. */
  datatype ReadOutcome<+A> = ReadOutcome(slot: ReadSlot, app: A, reply: Reply, nonce: Option<Nonce>)

  function ReadRefused<A>(slot: ReadSlot, app: A, code: byte): ReadOutcome<A> {
    ReadOutcome(slot, app, Refused(code), None)
  }

  predicate KeyAccepted(e: Entry, keys: KeyStore, kid: byte) {
    ReservedBits(kid) == 0 && (e.keyId == KEY_NONE || BaseId(kid) == e.keyId) && BaseId(kid) in keys
  }

  function ContextOf<A>(p: Port<A>, direction: byte, kid: byte, clientDev: u16, e: Entry): Context {
    Context(direction, kid, p.deviceId, clientDev, e.dataId)
  }

  /** Pass 1 of a read: seal the value now, deliver it on the next empty request. */
  function ArmRead<A>(p: Port<A>, e: Entry, s: ReadSlot, app: A, keys: KeyStore, q: Request): (r: ReadOutcome<A>)
    requires |q.body| == READ_CHALLENGE_LEN
    ensures r.reply.Deferred? || r.reply.Refused?
    ensures r.reply.Deferred? <==> r.nonce.Some?
  {
    var kid, clientRandom := q.body[0], q.body[1..];
    if !KeyAccepted(e, keys, kid) then ReadRefused(s, app, KEY_ID)
    else if !p.accessAllowed(app, OpRead, e.dataId) then ReadRefused(s, app, DEVICE_STATE)
    else if !p.roleAllowed(app, OpRead, BaseId(kid), e.dataId) then ReadRefused(s, app, ROLE_DENIED)
    else if HeldByOther(s.inUse, s.cyclic, s.clientDev, s.armedAt, q) then ReadRefused(s, app, DEVICE_STATE)
    else
      var h := p.readBefore(app, e.dataId);
      if h.abort != NO_ABORT then ReadRefused(s, h.app, h.abort)
      else if |h.plain| != e.dataLen || q.random.None? then ReadRefused(s, h.app, INTERNAL)
      else
        var serverRandom := q.random.value;
        var nonce := XorSeq(clientRandom, serverRandom);
        var sealed := Seal(p.gcm, keys[BaseId(kid)].key, nonce, ContextOf(p, DIR_READ_RESPONSE, kid, q.client, e),
                           Some(Randoms(clientRandom, serverRandom)), h.plain);
        if sealed.None? then ReadRefused(EMPTY_READ, h.app, INTERNAL)
        else
          var slot := ReadSlot(true, IsCyclic(kid), q.client, q.now,
                               serverRandom + sealed.value.text + sealed.value.tag,
                               if IsCyclic(kid) then kid else 0,
                               if IsCyclic(kid) then nonce else Zeros(NONCE_SIZE), 0);
          ReadOutcome(slot, h.app, Deferred, Some(nonce))
  }

  /** Pass 2 of a read finds a fresh prepared response. */
  predicate Deliverable(s: ReadSlot, now: u16) {
    s.inUse && s.prepared != [] && ChallengeFresh(now, s.armedAt)
  }

  function Deliver<A>(s: ReadSlot, app: A, q: Request): ReadOutcome<A> {
    if |s.prepared| > q.replyMax then ReadRefused(s.(inUse := false), app, INTERNAL)
    else ReadOutcome(if s.cyclic then s.(prepared := [], armedAt := q.now) else s.(inUse := false),
                     app, Accepted(s.prepared), None)
  }

  datatype CounterCheck = Next(counter: u32) | Budget | Desync

  /** Only the low byte travels; it must be that of the stored counter plus one. */
  function CheckCounter(current: u32, low: byte): CounterCheck {
    if current >= KEY_USE_LIMIT then Budget
    else if (current + 1) % 0x100 != low then Desync
    else Next(current + 1)
  }

  function ReadPoll<A>(p: Port<A>, e: Entry, s: ReadSlot, app: A, keys: KeyStore, q: Request): ReadOutcome<A> {
    if !s.inUse || !s.cyclic || s.clientDev != q.client then ReadRefused(s, app, NO_SESSION)
    else if !SessionFresh(q.now, s.armedAt) then ReadRefused(s.(inUse := false), app, NO_SESSION)
    else if |q.body| != 1 then ReadRefused(s, app, LengthAbort(|q.body|, 1))
    else if q.replyMax < 1 + e.dataLen + TAG_SIZE then ReadRefused(s, app, INTERNAL)
    else
      match CheckCounter(s.counter, q.body[0])
      case Budget => ReadRefused(s.(inUse := false), app, KEY_BUDGET)
      case Desync => ReadRefused(s, app, POLL_COUNTER)
      case Next(counter) =>
        if !p.accessAllowed(app, OpRead, e.dataId) then ReadRefused(s, app, DEVICE_STATE)
        else if !p.roleAllowed(app, OpRead, BaseId(s.keyId), e.dataId) then ReadRefused(s, app, ROLE_DENIED)
        else
          var h := p.readBefore(app, e.dataId);
          if h.abort != NO_ABORT then ReadRefused(s, h.app, h.abort)
          else if |h.plain| != e.dataLen then ReadRefused(s, h.app, INTERNAL)
          else if BaseId(s.keyId) !in keys then ReadRefused(s, h.app, KEY_ID)
          else
            var nonce := SessionNonce(s.nonceBase, counter);
            var sealed := Seal(p.gcm, keys[BaseId(s.keyId)].key, nonce,
                               ContextOf(p, DIR_READ_POLL_RESPONSE, s.keyId, s.clientDev, e), None, h.plain);
            if sealed.None? then ReadRefused(s, h.app, INTERNAL)
            else
              ReadOutcome(s.(counter := counter, armedAt := q.now), h.app,
                          Accepted([counter % 0x100] + sealed.value.text + sealed.value.tag), Some(nonce))
  }

  /* ---- Write side ---- */

  /**
   * A value handed to the host and accepted by it. `counter` is 0 for a
   * Pass-2 write and the full counter for a poll; `session` says that the
   * write opened a session (bit 6).
   */
  datatype Commit = Commit(plain: seq<byte>, base: byte, counter: u32, session: bool)

  datatype WriteOutcome<+A> = WriteOutcome(slot: WriteSlot, app: A, keys: KeyStore, lastKid: byte,
                                           reply: Reply, commit: Option<Commit>)

  function WriteRefused<A>(slot: WriteSlot, app: A, keys: KeyStore, lastKid: byte, code: byte): WriteOutcome<A> {
    WriteOutcome(slot, app, keys, lastKid, Refused(code), None)
  }

  /** Pass 1 of a write. `kid` is the body byte of a one-byte (cyclic) arm. */
  function ArmWrite<A>(p: Port<A>, e: Entry, w: WriteSlot, app: A, keys: KeyStore, lastKid: byte,
                       q: Request, kid: Option<byte>): WriteOutcome<A> {
    if !p.accessAllowed(app, OpWrite, e.dataId) then WriteRefused(w, app, keys, lastKid, DEVICE_STATE)
    else if kid.Some? && (!IsCyclic(kid.value) || !KeyAccepted(e, keys, kid.value)) then
      WriteRefused(w, app, keys, lastKid, KEY_ID)
    else if kid.Some? && !p.roleAllowed(app, OpWrite, BaseId(kid.value), e.dataId) then
      WriteRefused(w, app, keys, lastKid, ROLE_DENIED)
    else if q.replyMax < RAND_SIZE || q.random.None? then WriteRefused(w, app, keys, lastKid, INTERNAL)
    else if HeldByOther(w.inUse, w.cyclic, w.clientDev, w.armedAt, q) then
      WriteRefused(w, app, keys, lastKid, DEVICE_STATE)
    else
      WriteOutcome(WriteSlot(true, kid.Some?, q.client, q.now, if kid.Some? then kid.value else 0,
                             q.random.value, Zeros(NONCE_SIZE), 0),
                   app, keys, lastKid, Accepted(q.random.value), None)
  }

  /** The checks on a Pass-2 write that come before its tag; NO_ABORT when they all pass. */
  function PassTwoCheck<A>(p: Port<A>, e: Entry, w: WriteSlot, app: A, keys: KeyStore, q: Request): (code: byte)
    ensures code == NO_ABORT ==>
              |q.body| == 1 + RAND_SIZE + e.dataLen + TAG_SIZE && BaseId(q.body[0]) in keys
  {
    var expected := 1 + RAND_SIZE + e.dataLen + TAG_SIZE;
    if !ChallengeFresh(q.now, w.armedAt) then NO_SESSION
    else if |q.body| != expected then LengthAbort(|q.body|, expected)
    else if !KeyAccepted(e, keys, q.body[0]) then KEY_ID
    else if !p.roleAllowed(app, OpWrite, BaseId(q.body[0]), e.dataId) then ROLE_DENIED
    else NO_ABORT
  }

  /** The plaintext of a Pass-2 write (keyid, client random, text, tag), if its tag verifies. */
  function OpenPassTwo<A>(p: Port<A>, e: Entry, w: WriteSlot, key: Key, body: seq<byte>): Option<seq<byte>>
    requires |body| == 1 + RAND_SIZE + e.dataLen + TAG_SIZE
  {
    var kid, clientRandom := body[0], body[1..13];
    Open(p.gcm, key, XorSeq(clientRandom, w.serverRandom), ContextOf(p, DIR_WRITE_REQUEST, kid, w.clientDev, e),
         Some(Randoms(clientRandom, w.serverRandom)), body[13..13 + e.dataLen], body[13 + e.dataLen..])
  }

  /** Pass 2 of a write whose checks passed: the tag, the host's hook, then the slot. */
  function ApplyPassTwo<A>(p: Port<A>, e: Entry, w: WriteSlot, app: A, keys: KeyStore, lastKid: byte,
                           q: Request): WriteOutcome<A>
    requires PassTwoCheck(p, e, w, app, keys, q) == NO_ABORT
  {
    var kid := q.body[0];
    var base := BaseId(kid);
    var freed := w.(inUse := false, keyId := kid);
    var plain := OpenPassTwo(p, e, w, keys[base].key, q.body);
    if plain.None? then WriteRefused(freed, app, keys, lastKid, TAG_VERIFY)
    else
      var h := p.writeAfter(app, keys, base, e.dataId, plain.value);
      if h.abort != NO_ABORT then WriteRefused(freed, h.app, h.keys, base, h.abort)
      else
        var slot := if IsCyclic(kid)
                    then w.(cyclic := true, keyId := kid, nonceBase := XorSeq(q.body[1..13], w.serverRandom),
                            counter := 0, armedAt := q.now)
                    else freed;
        WriteOutcome(slot, h.app, h.keys, base, Accepted([]), Some(Commit(plain.value, base, 0, IsCyclic(kid))))
  }

  /** Pass 2 of a write. The challenge is spent unless the write succeeds with bit 6 set. */
  function VerifyApply<A>(p: Port<A>, e: Entry, w: WriteSlot, app: A, keys: KeyStore, lastKid: byte,
                          q: Request): WriteOutcome<A> {
    if !w.inUse then WriteRefused(w, app, keys, lastKid, NO_SESSION)
    else
      var code := PassTwoCheck(p, e, w, app, keys, q);
      if code != NO_ABORT then WriteRefused(w.(inUse := false), app, keys, lastKid, code)
      else ApplyPassTwo(p, e, w, app, keys, lastKid, q)
  }

  function WritePoll<A>(p: Port<A>, e: Entry, w: WriteSlot, app: A, keys: KeyStore, lastKid: byte,
                        q: Request): WriteOutcome<A> {
    var expected := 1 + e.dataLen + TAG_SIZE;
    if !w.inUse || !w.cyclic || w.clientDev != q.client then WriteRefused(w, app, keys, lastKid, NO_SESSION)
    else if !SessionFresh(q.now, w.armedAt) then WriteRefused(w.(inUse := false), app, keys, lastKid, NO_SESSION)
    else if |q.body| != expected then WriteRefused(w, app, keys, lastKid, LengthAbort(|q.body|, expected))
    else
      match CheckCounter(w.counter, q.body[0])
      case Budget => WriteRefused(w.(inUse := false), app, keys, lastKid, KEY_BUDGET)
      case Desync => WriteRefused(w, app, keys, lastKid, POLL_COUNTER)
      case Next(counter) =>
        var base := BaseId(w.keyId);
        if !p.roleAllowed(app, OpWrite, base, e.dataId) then WriteRefused(w, app, keys, lastKid, ROLE_DENIED)
        else if base !in keys then WriteRefused(w, app, keys, lastKid, KEY_ID)
        else
          var plain := Open(p.gcm, keys[base].key, SessionNonce(w.nonceBase, counter),
                            ContextOf(p, DIR_WRITE_POLL_REQUEST, w.keyId, w.clientDev, e), None,
                            q.body[1..1 + e.dataLen], q.body[1 + e.dataLen..]);
          if plain.None? then WriteRefused(w, app, keys, lastKid, TAG_VERIFY)
          else
            var h := p.writeAfter(app, keys, lastKid, e.dataId, plain.value);
            if h.abort != NO_ABORT then WriteRefused(w, h.app, h.keys, lastKid, h.abort)
            else
              WriteOutcome(w.(counter := counter, armedAt := q.now), h.app, h.keys, lastKid, Accepted([]),
                           Some(Commit(plain.value, base, counter, false)))
  }

  /* ---- Dispatch ---- */

  /** Which handler a request reaches. */
  datatype Route = ToReadPoll | ToWritePoll | ToArmRead | ToDeliver | ToArmWrite | ToVerify | ToRefuse(code: byte)

  function RouteOf(e: Entry, s: ReadSlot, w: WriteSlot, q: Request): Route {
    var n := |q.body|;
    if e.secureRo && n == 1 && s.inUse && s.cyclic then ToReadPoll
    else if e.secureWo && n == 1 + e.dataLen + TAG_SIZE && w.inUse && w.cyclic then ToWritePoll
    else if e.secureRo && n == READ_CHALLENGE_LEN then ToArmRead
    else if e.secureRo && n == 0 && Deliverable(s, q.now) then ToDeliver
    else if e.secureWo then (if n <= 1 then ToArmWrite else ToVerify)
    else if e.secureRo then ToRefuse(if n == 0 then NO_SESSION else TYPE_MISMATCH)
    else ToRefuse(NOT_BUILT)
  }

  datatype Sod<+A> = Sod(entries: seq<Entry>, readSlots: seq<ReadSlot>, writeSlots: seq<WriteSlot>,
                         keys: KeyStore, lastKid: byte, app: A)
  {
    predicate Shaped() { |entries| == |readSlots| == |writeSlots| }

    ghost predicate Valid() {
      && Shaped() && |entries| <= MAX_ENTRIES
      && (forall i :: 0 <= i < |entries| ==> entries[i].dataLen <= MAX_PROTECTED)
      && (forall i :: 0 <= i < |readSlots| ==> WholeResponse(readSlots[i]))
      && (forall i, j :: 0 <= i < j < |entries| ==> entries[i].dataId != entries[j].dataId)
    }
  }

  function FindIndex(entries: seq<Entry>, dataId: u32): (i: nat)
    ensures i <= |entries|
    ensures i < |entries| ==> entries[i].dataId == dataId
    ensures forall j :: 0 <= j < i ==> entries[j].dataId != dataId
  {
    if entries == [] || entries[0].dataId == dataId then 0 else 1 + FindIndex(entries[1..], dataId)
  }

  /** What one dispatch did, beside the new state. */
  datatype Outcome<+A> = Outcome(sod: Sod<A>, reply: Reply, nonce: Option<Nonce>, commit: Option<Commit>)

  function WithRead<A>(d: Sod<A>, i: nat, r: ReadOutcome<A>): Outcome<A>
    requires i < |d.readSlots|
  {
    Outcome(d.(readSlots := d.readSlots[i := r.slot], app := r.app), r.reply, r.nonce, None)
  }

  function WithWrite<A>(d: Sod<A>, i: nat, r: WriteOutcome<A>): Outcome<A>
    requires i < |d.writeSlots|
  {
    Outcome(d.(writeSlots := d.writeSlots[i := r.slot], app := r.app, keys := r.keys, lastKid := r.lastKid),
            r.reply, None, r.commit)
  }

  /** The dispatch on entry `i`. */
  function DispatchAt<A>(p: Port<A>, d: Sod<A>, i: nat, q: Request): (r: Outcome<A>)
    requires d.Shaped() && i < |d.entries|
    ensures r.sod.Shaped() && r.sod.entries == d.entries
  {
    var e, s, w := d.entries[i], d.readSlots[i], d.writeSlots[i];
    match RouteOf(e, s, w, q)
    case ToReadPoll => WithRead(d, i, ReadPoll(p, e, s, d.app, d.keys, q))
    case ToArmRead => WithRead(d, i, ArmRead(p, e, s, d.app, d.keys, q))
    case ToDeliver => WithRead(d, i, Deliver(s, d.app, q))
    case ToWritePoll => WithWrite(d, i, WritePoll(p, e, w, d.app, d.keys, d.lastKid, q))
    case ToArmWrite =>
      WithWrite(d, i, ArmWrite(p, e, w, d.app, d.keys, d.lastKid, q, if q.body == [] then None else Some(q.body[0])))
    case ToVerify => WithWrite(d, i, VerifyApply(p, e, w, d.app, d.keys, d.lastKid, q))
    case ToRefuse(code) => Outcome(d, Refused(code), None, None)
  }

  function Dispatch<A>(p: Port<A>, d: Sod<A>, dataId: u32, q: Request): (r: Outcome<A>)
    requires d.Shaped()
    ensures r.sod.Shaped() && r.sod.entries == d.entries
  {
    var i := FindIndex(d.entries, dataId);
    if i == |d.entries| then Outcome(d, NotHandled, None, None) else DispatchAt(p, d, i, q)
  }

  lemma ReadsKeepWhole<A>(p: Port<A>, e: Entry, s: ReadSlot, app: A, keys: KeyStore, q: Request)
    requires e.dataLen <= MAX_PROTECTED && WholeResponse(s)
    ensures |q.body| == READ_CHALLENGE_LEN ==> WholeResponse(ArmRead(p, e, s, app, keys, q).slot)
    ensures WholeResponse(ReadPoll(p, e, s, app, keys, q).slot) && WholeResponse(Deliver(s, app, q).slot)
  {
    hide SessionNonce, KeyAccepted, HeldByOther, QueryFor, Crypt;
  }

  lemma DispatchKeepsValid<A>(p: Port<A>, d: Sod<A>, dataId: u32, q: Request)
    requires d.Valid()
    ensures Dispatch(p, d, dataId, q).sod.Valid()
  {
    hide WritePoll, ArmWrite, VerifyApply, ArmRead, ReadPoll, Deliver, WholeResponse;
    var i := FindIndex(d.entries, dataId);
    if i < |d.entries| {
      ReadsKeepWhole(p, d.entries[i], d.readSlots[i], d.app, d.keys, q);
    }
  }
}
