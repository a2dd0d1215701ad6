/**
 * The whole device: the host's hooks behind the secure object dictionary, the
 * signed-access objects on the same state, and the chain of handlers that a
 * request goes through until one of them answers.
 */
module DeviceModel {
  import opened Bytes
  import opened Aborts
  import opened Aead
  import opened Asym
  import opened SecureOd
  import opened PollRuns
  import Rpk
  import opened ServerCarrier
  import C = Commissioning
  import opened CommissioningRuns

  const RD_ID: u32 := 0x2020_0000
  const WR_ID: u32 := 0x2010_0000
  const SRD_ID: u32 := 0xC018_0000
  const SWR_ID: u32 := 0x2016_0000
  const RPK_RD_ID: u32 := 0x2021_0000
  const RPK_WR_ID: u32 := 0x2017_0000
  const KEY_SET_ID: u32 := 0xC01F_0000
  const EPOCH_ID: u32 := 0xC020_0100
  const VOUCHER_ID: u32 := 0xC020_0200
  const PROVISION_ID: u32 := 0xC02F_0000
  const VALUE_LEN := 4
  const SECURE_LEN := 16

  type Word = s: seq<byte> | |s| == VALUE_LEN witness Zeros(VALUE_LEN)
  type Block = s: seq<byte> | |s| == SECURE_LEN witness Zeros(SECURE_LEN)

  /** The host application: lifecycle stage, ownership, and the values behind the objects. */
  datatype App = App(stage: C.Stage, own: C.Ownership, value: Word, secureRo: Block, secureWo: Block, rpkRo: Word, rpkWo: Block)

  /* ---- Hooks ---- */

  /** Big-endian increment, wrapping. */
  function Increment(s: Word): Word { Be32((FromLe32([s[3], s[2], s[1], s[0]]) + 1) % 0x1_0000_0000) }

  function ReadBefore(app: App, dataId: u32): ReadHook<App> {
    if dataId == SRD_ID then ReadHook(app, NO_ABORT, app.secureRo)
    else if dataId == RD_ID then ReadHook(app.(value := Increment(app.value)), NO_ABORT, app.value)
    else if dataId == RPK_RD_ID then ReadHook(app.(rpkRo := Increment(app.rpkRo)), NO_ABORT, app.rpkRo)
    else ReadHook(app, NO_OBJECT, [])
  }

  function WriteAfter(app: App, keys: KeyStore, authorizing: byte, dataId: u32, src: seq<byte>): WriteHook<App> {
    if dataId == SWR_ID then
      if |src| != SECURE_LEN then WriteHook(app, keys, TYPE_MISMATCH) else WriteHook(app.(secureWo := src), keys, NO_ABORT)
    else if dataId == WR_ID then
      if |src| != VALUE_LEN then WriteHook(app, keys, TYPE_MISMATCH) else WriteHook(app.(value := src), keys, NO_ABORT)
    else if dataId == KEY_SET_ID then
      var r := C.ApplyKeySet(keys, app.stage, authorizing, src);
      WriteHook(app.(stage := r.stage), r.keys, r.abort)
    else if dataId == RPK_WR_ID then
      if |src| != SECURE_LEN then WriteHook(app, keys, TYPE_MISMATCH) else WriteHook(app.(rpkWo := src), keys, NO_ABORT)
    else WriteHook(app, keys, NO_OBJECT)
  }

  /** Everybody reads; the key set takes the three lower tiers, all else Provisioning and Integrator. */
  predicate RoleAllowed(op: Op, base: byte, dataId: u32) {
    op == OpRead || base == C.SLOT_PROVISIONING || base == C.SLOT_INTEGRATOR
    || (dataId == KEY_SET_ID && base == C.SLOT_CLAIM_TOKEN)
  }

  /**
   * What the device is made of. `constants` are the read-only objects that are
   * served before the secure ones: descriptors, constant entries, key ids,
   * public keys and the signed identity.
   */
  datatype Config = Config(gcm: Gcm, deviceId: u16, origin: C.Origin, identity: Seed, peer: Option<PubKey>,
                           constants: (Sod<App>, u32, seq<byte>) -> Option<DispatchReply>)

  function PortOf(c: Config): Port<App> {
    Port(c.gcm, c.deviceId, (app, op, dataId) => true, (app, op, base, dataId) => RoleAllowed(op, base, dataId),
         ReadBefore, WriteAfter)
  }

  /* ---- The commissioning view ---- */

  function Commissioned(d: Sod<App>): C.Device { C.Device(d.keys, d.app.stage, d.app.own) }

  function WithCommissioned(d: Sod<App>, v: C.Device): Sod<App> {
    d.(keys := v.keys, app := d.app.(stage := v.stage, own := v.own))
  }

  /* ---- Signed access on the same state ---- */

  function SignedRead(d: Sod<App>, dataId: u32): Rpk.Hook<Sod<App>> {
    var h := ReadBefore(d.app, dataId);
    Rpk.Hook(d.(app := h.app), h.abort, h.plain)
  }

  function SignedWrite(d: Sod<App>, dataId: u32, value: seq<byte>): Rpk.Hook<Sod<App>> {
    var h := WriteAfter(d.app, d.keys, d.lastKid, dataId, value);
    Rpk.Hook(d.(app := h.app, keys := h.keys), h.abort, [])
  }

  function HostOf(c: Config): Rpk.Host<Sod<App>> {
    Rpk.Host(c.origin.scheme, c.deviceId, c.identity, c.peer, SignedRead, SignedWrite,
             (d: Sod<App>) => WithCommissioned(d, C.Reset(c.origin, Commissioned(d))))
  }

  /* ---- Requests ---- */

  datatype State = State(sod: Sod<App>, challenge: Rpk.Challenge)

  /** Clock and random source while one request is handled. */
  datatype Tick = Tick(now: u16, random: Option<Nonce>, nonce: Option<Rand16>)

  /** A request as it reaches the device. */
  datatype Incoming = Incoming(src: u16, dataId: u32, body: seq<byte>)

  function SodAnswer(r: Reply): DispatchReply {
    match r
    case Accepted(data) => DispatchReply(NO_ABORT, data)
    case Deferred => DispatchReply(NO_ABORT, [])
    case Refused(code) => DispatchReply(code, [])
    case NotHandled => DispatchReply(NO_OBJECT, [])
  }

  predicate IsHandover(dataId: u32) { dataId == PROVISION_ID || dataId == VOUCHER_ID || dataId == EPOCH_ID }

  function Handover(c: Config, v: C.Device, q: Incoming): (C.Device, DispatchReply)
    requires IsHandover(q.dataId)
  {
    if q.dataId == PROVISION_ID then
      var r := C.HandleProvision(c.origin, v, q.body);
      (r.0, DispatchReply(r.1, []))
    else if q.dataId == VOUCHER_ID then
      var r := C.HandleVoucher(c.origin, v, q.body);
      (r.0, DispatchReply(r.1, []))
    else (v, DispatchReply(NO_ABORT, Le32(v.own.epoch)))
  }

  function SodRequest(q: Incoming, t: Tick): Request { Request(q.src, q.body, t.now, t.random, REPLY_MAX) }

  function SignedRequest(q: Incoming, t: Tick): Rpk.SignedRequest { Rpk.SignedRequest(q.src, q.dataId, q.body, t.nonce) }

  /** The chain of handlers; every path ends in one reply. */
  function Serve(c: Config, st: State, q: Incoming, t: Tick): (r: (State, DispatchReply))
    requires st.sod.Shaped()
    ensures r.0.sod.Shaped() && r.0.sod.entries == st.sod.entries
  {
    var constant := c.constants(st.sod, q.dataId, q.body);
    if constant.Some? then (st, constant.value)
    else if IsHandover(q.dataId) then
      var r := Handover(c, Commissioned(st.sod), q);
      (st.(sod := WithCommissioned(st.sod, r.0)), r.1)
    else
      assert SignedKeepsShape(c, st, q, t) by {
        SignedShape(c, st, q, t);
      }
      var signed := Rpk.Try(HostOf(c), st.challenge, st.sod, SignedRequest(q, t));
      if signed.Some? then
        (State(signed.value.app, signed.value.challenge), DispatchReply(signed.value.answer.status, signed.value.answer.data))
      else
        var r := Dispatch(PortOf(c), st.sod, q.dataId, SodRequest(q, t));
        (st.(sod := r.sod), SodAnswer(r.reply))
  }

  predicate SignedKeepsShape(c: Config, st: State, q: Incoming, t: Tick) {
    var signed := Rpk.Try(HostOf(c), st.challenge, st.sod, SignedRequest(q, t));
    signed.Some? ==> signed.value.app.Shaped() == st.sod.Shaped() && signed.value.app.entries == st.sod.entries
  }

  lemma SignedShape(c: Config, st: State, q: Incoming, t: Tick)
    ensures SignedKeepsShape(c, st, q, t)
  {
    hide AccessTranscript, ReadBefore, WriteAfter, C.Reset;
  }

  /* ---- What a request does to the commissioning state ---- */

  /** A write poll on the key set: it installs under whatever key last authorized a single write. */
  predicate IsKeyPoll(d: Sod<App>, q: Incoming, t: Tick)
    requires d.Shaped()
  {
    var i := FindIndex(d.entries, q.dataId);
    && q.dataId == KEY_SET_ID && i < |d.entries|
    && RouteOf(d.entries[i], d.readSlots[i], d.writeSlots[i], SodRequest(q, t)) == ToWritePoll
  }

  /** A poll of the key set while the slot of the last single write's key is empty. */
  predicate IsStaleKeyPoll(d: Sod<App>, q: Incoming, t: Tick)
    requires d.Shaped()
  {
    IsKeyPoll(d, q, t) && d.lastKid !in d.keys
  }

  /** The rung that a key poll brings, if it is its session's next frame. */
  function KeyPollOpening(c: Config, d: Sod<App>, q: Incoming, t: Tick): Option<seq<byte>>
    requires d.Shaped() && IsKeyPoll(d, q, t)
  {
    var i := FindIndex(d.entries, q.dataId);
    var e, w := d.entries[i], d.writeSlots[i];
    if w.clientDev == q.src && PollAdmitted(PortOf(c), e, w, d.app, d.keys, q.body[0], t.now) then
      OpenPoll(PortOf(c), e, w, d.keys[BaseId(w.keyId)].key, w.counter + 1, q.body)
    else None
  }

  /** What a key poll needs to commit, all of it known before it is served. */
  predicate KeyPollAdmitted(c: Config, d: Sod<App>, q: Incoming, t: Tick)
    requires d.Shaped() && IsKeyPoll(d, q, t)
  {
    var rung := KeyPollOpening(c, d, q, t);
    rung.Some? && C.ApplyKeySet(d.keys, d.app.stage, d.lastKid, rung.value).abort == NO_ABORT
  }

  function KeyPollRung(c: Config, d: Sod<App>, q: Incoming, t: Tick): seq<byte>
    requires d.Shaped() && IsKeyPoll(d, q, t) && KeyPollAdmitted(c, d, q, t)
  {
    KeyPollOpening(c, d, q, t).value
  }

  /** A stale poll that reaches the secure dictionary and has all it needs. */
  predicate StalePollCommits(c: Config, st: State, q: Incoming, t: Tick)
    requires st.sod.Shaped()
  {
    c.constants(st.sod, q.dataId, q.body).None? && IsStaleKeyPoll(st.sod, q, t) && KeyPollAdmitted(c, st.sod, q, t)
  }

  /** Those guards decide: a key poll commits exactly when it is admitted, and then its rung. */
  lemma KeyPollDecides(c: Config, d: Sod<App>, q: Incoming, t: Tick)
    requires d.Shaped() && IsKeyPoll(d, q, t)
    ensures var commit := Dispatch(PortOf(c), d, q.dataId, SodRequest(q, t)).commit;
            && (commit.Some? <==> KeyPollAdmitted(c, d, q, t))
            && (commit.Some? ==> commit.value.plain == KeyPollRung(c, d, q, t))
  {
    hide WritePoll, OpenPoll, PollAdmitted, C.ApplyKeySet;
    var i := FindIndex(d.entries, q.dataId);
    var e, w, request := d.entries[i], d.writeSlots[i], SodRequest(q, t);
    if w.clientDev == q.src {
      PollIsCommitted(PortOf(c), e, w, d.app, d.keys, d.lastKid, request);
    } else {
      PollOfAnother(PortOf(c), e, w, d.app, d.keys, d.lastKid, request);
    }
  }

  lemma PollOfAnother<A>(p: Port<A>, e: Entry, w: WriteSlot, app: A, keys: KeyStore, lastKid: byte, q: Request)
    requires w.clientDev != q.client
    ensures WritePoll(p, e, w, app, keys, lastKid, q).commit.None?
  {
    hide Open, SessionNonce;
  }

  predicate IsReset(c: Config, st: State, q: Incoming, t: Tick) {
    var signed := Rpk.Try(HostOf(c), st.challenge, st.sod, SignedRequest(q, t));
    && q.dataId == Rpk.FUNCCMD_ID && signed.Some? && signed.value.event.Verified? && signed.value.event.ok
    && |q.body| == 84 && FromLe32(q.body[16..20]) == Rpk.CMD_FACTORY_RESTORE
  }

  function MoveOf(c: Config, st: State, q: Incoming, t: Tick): Move
    requires st.sod.Shaped()
  {
    if c.constants(st.sod, q.dataId, q.body).Some? then Stay
    else if q.dataId == PROVISION_ID then Provision(q.body)
    else if q.dataId == VOUCHER_ID then Voucher(q.body)
    else if IsReset(c, st, q, t) then Restore
    else if q.dataId == KEY_SET_ID then
      var r := Dispatch(PortOf(c), st.sod, q.dataId, SodRequest(q, t));
      if r.commit.None? then Stay
      else Rung(NamedKey(st.sod, q, t, r.commit.value), r.commit.value.plain)
    else Stay
  }

  predicate SameCommissioning(a: App, b: App) { a.stage == b.stage && a.own == b.own }

  lemma ReadsKeepCommissioning(c: Config, e: Entry, s: ReadSlot, app: App, keys: KeyStore, q: Request)
    ensures SameCommissioning(ReadPoll(PortOf(c), e, s, app, keys, q).app, app)
    ensures |q.body| == READ_CHALLENGE_LEN ==> SameCommissioning(ArmRead(PortOf(c), e, s, app, keys, q).app, app)
  {
    hide Seal, SessionNonce, Increment;
  }

  /** A single write: the key set moves one rung under the key it was sealed with; anything else moves nothing. */
  lemma SingleWriteMoves(c: Config, e: Entry, w: WriteSlot, app: App, keys: KeyStore, lastKid: byte, q: Request)
    ensures var r := VerifyApply(PortOf(c), e, w, app, keys, lastKid, q);
            && r.app.own == app.own
            && (if e.dataId == KEY_SET_ID && r.commit.Some? then
                  var k := C.ApplyKeySet(keys, app.stage, r.commit.value.base, r.commit.value.plain);
                  k.abort == NO_ABORT && r.keys == k.keys && r.app.stage == k.stage && r.commit.value.base in keys
                else r.keys == keys && r.app.stage == app.stage)
  {
    hide OpenPassTwo, PassTwoCheck, C.ApplyKeySet, RoleAllowed;
  }

  /** A poll leaves host and keys alone, or they are what the hook makes of its text; it commits when the hook accepts. */
  lemma PollHook<A>(p: Port<A>, e: Entry, w: WriteSlot, app: A, keys: KeyStore, lastKid: byte, q: Request) returns (plain: Option<seq<byte>>)
    ensures var r := WritePoll(p, e, w, app, keys, lastKid, q);
            if plain.None? then r.app == app && r.keys == keys && r.commit.None?
            else
              var h := p.writeAfter(app, keys, lastKid, e.dataId, plain.value);
              && r.app == h.app && r.keys == h.keys && (r.commit.Some? <==> h.abort == NO_ABORT)
              && (r.commit.Some? ==> r.commit.value.plain == plain.value)
  {
    hide Open, SessionNonce, CheckCounter, SessionFresh;
    var base := BaseId(w.keyId);
    plain := None;
    if w.inUse && w.cyclic && w.clientDev == q.client && SessionFresh(q.now, w.armedAt) && |q.body| == 1 + e.dataLen + TAG_SIZE {
      var check := CheckCounter(w.counter, q.body[0]);
      if check.Next? && p.roleAllowed(app, OpWrite, base, e.dataId) && base in keys {
        plain := Open(p.gcm, keys[base].key, SessionNonce(w.nonceBase, check.counter),
                      ContextOf(p, DIR_WRITE_POLL_REQUEST, w.keyId, w.clientDev, e), None,
                      q.body[1..1 + e.dataLen], q.body[1 + e.dataLen..]);
      }
    }
  }

  /** A poll of the key set moves it under the key of the last single write. */
  lemma PollMoves(c: Config, e: Entry, w: WriteSlot, app: App, keys: KeyStore, lastKid: byte, q: Request)
    ensures var r := WritePoll(PortOf(c), e, w, app, keys, lastKid, q);
            && r.app.own == app.own
            && (if e.dataId == KEY_SET_ID && r.commit.Some? then
                  var k := C.ApplyKeySet(keys, app.stage, lastKid, r.commit.value.plain);
                  k.abort == NO_ABORT && r.keys == k.keys && r.app.stage == k.stage
                else r.keys == keys && r.app.stage == app.stage)
  {
    hide WritePoll, C.ApplyKeySet;
    var plain := PollHook(PortOf(c), e, w, app, keys, lastKid, q);
  }

  /** In whose name a commit on the key set installs. */
  function NamedKey(d: Sod<App>, q: Incoming, t: Tick, commit: Commit): byte
    requires d.Shaped()
  {
    if IsKeyPoll(d, q, t) then d.lastKid else commit.base
  }

  lemma DispatchSettles(c: Config, d: Sod<App>, q: Incoming, t: Tick)
    requires d.Shaped()
    ensures var r := Dispatch(PortOf(c), d, q.dataId, SodRequest(q, t));
            && r.sod.app.own == d.app.own
            && (if q.dataId == KEY_SET_ID && r.commit.Some? then
                  var named := NamedKey(d, q, t, r.commit.value);
                  var k := C.ApplyKeySet(d.keys, d.app.stage, named, r.commit.value.plain);
                  && k.abort == NO_ABORT && r.sod.keys == k.keys && r.sod.app.stage == k.stage
                  && (IsKeyPoll(d, q, t) || named in d.keys)
                else r.sod.keys == d.keys && r.sod.app.stage == d.app.stage)
  {
    hide ReadPoll, ArmRead, WritePoll, VerifyApply, C.ApplyKeySet, HeldByOther, KeyAccepted, RoleAllowed, SodRequest, PortOf;
    var i := FindIndex(d.entries, q.dataId);
    if i < |d.entries| {
      var e, s, w, request := d.entries[i], d.readSlots[i], d.writeSlots[i], SodRequest(q, t);
      match RouteOf(e, s, w, request) {
        case ToVerify => SingleWriteMoves(c, e, w, d.app, d.keys, d.lastKid, request);
        case ToWritePoll => PollMoves(c, e, w, d.app, d.keys, d.lastKid, request);
        case _ => ReadsKeepCommissioning(c, e, s, d.app, d.keys, request);
      }
    }
  }

  /**
   * The secure dispatch moves the ladder by at most one rung, which is then in
   * place; only a stale poll's rung is not authorized by a key the device holds.
   */
  lemma DispatchMoves(c: Config, d: Sod<App>, q: Incoming, t: Tick)
    requires d.Shaped()
    ensures var r := Dispatch(PortOf(c), d, q.dataId, SodRequest(q, t));
            var m := if q.dataId == KEY_SET_ID && r.commit.Some?
                     then Rung(NamedKey(d, q, t, r.commit.value), r.commit.value.plain) else Stay;
            && Commissioned(r.sod) == Apply(c.origin, Commissioned(d), m)
            && Installed(Commissioned(d), m)
            && (Authorized(Commissioned(d), m) <==> !(IsStaleKeyPoll(d, q, t) && r.commit.Some?))
  {
    hide Dispatch, C.ApplyKeySet, PortOf;
    DispatchSettles(c, d, q, t);
  }

  /** Signed access reaches the host's state and the keys, never the slots. */
  lemma SignedTouchesHostOnly(c: Config, st: State, q: Incoming, t: Tick)
    ensures var signed := Rpk.Try(HostOf(c), st.challenge, st.sod, SignedRequest(q, t));
            signed.Some? ==> signed.value.app == st.sod.(app := signed.value.app.app, keys := signed.value.app.keys)
  {
    hide AccessTranscript, C.Reset, ReadBefore, WriteAfter;
  }

  lemma SignedMoves(c: Config, st: State, q: Incoming, t: Tick)
    ensures var signed := Rpk.Try(HostOf(c), st.challenge, st.sod, SignedRequest(q, t));
            signed.Some? ==>
              Commissioned(signed.value.app)
                == (if IsReset(c, st, q, t) then C.Reset(c.origin, Commissioned(st.sod)) else Commissioned(st.sod))
  {
    hide AccessTranscript, C.Reset;
  }

  /** Whatever a request is, it is one move of the commissioning state: an authorized one exactly when no stale poll commits. */
  lemma ServeIsOneMove(c: Config, st: State, q: Incoming, t: Tick)
    requires st.sod.Shaped()
    ensures var m := MoveOf(c, st, q, t);
            && Commissioned(Serve(c, st, q, t).0.sod) == Apply(c.origin, Commissioned(st.sod), m)
            && Installed(Commissioned(st.sod), m)
            && (Authorized(Commissioned(st.sod), m) <==> !StalePollCommits(c, st, q, t))
  {
    hide Dispatch, Rpk.HandleRead, Rpk.HandleWrite, Rpk.HandleCommand, C.ApplyKeySet, C.Reset, C.HandleVoucher, C.HandleProvision;
    hide KeyPollAdmitted;
    SignedMoves(c, st, q, t);
    DispatchMoves(c, st.sod, q, t);
    if IsKeyPoll(st.sod, q, t) {
      KeyPollDecides(c, st.sod, q, t);
    }
  }

  /* ---- Which key proved a rung ---- */

  /** The base id that the request's tag is checked under: a poll's session has it, a Pass 2 names it. */
  function OpeningBase(d: Sod<App>, q: Incoming, t: Tick): byte
    requires d.Shaped()
  {
    if IsKeyPoll(d, q, t) then BaseId(d.writeSlots[FindIndex(d.entries, q.dataId)].keyId)
    else if q.body == [] then KEY_NONE else BaseId(q.body[0])
  }

  /** Its tag verifies under that key, and this is the text. */
  predicate OpensAs(c: Config, d: Sod<App>, q: Incoming, t: Tick, plain: seq<byte>)
    requires d.Shaped()
  {
    var i, base := FindIndex(d.entries, q.dataId), OpeningBase(d, q, t);
    && i < |d.entries| && base in d.keys
    && var e, w := d.entries[i], d.writeSlots[i];
       if IsKeyPoll(d, q, t) then
         w.counter < KEY_USE_LIMIT && OpenPoll(PortOf(c), e, w, d.keys[base].key, w.counter + 1, q.body) == Some(plain)
       else
         |q.body| == 1 + RAND_SIZE + e.dataLen + TAG_SIZE && OpenPassTwo(PortOf(c), e, w, d.keys[base].key, q.body) == Some(plain)
  }

  /** A poll of the key set in a session of another key than the last single write's. */
  predicate IsMisnamedKeyPoll(d: Sod<App>, q: Incoming, t: Tick)
    requires d.Shaped()
  {
    IsKeyPoll(d, q, t) && d.lastKid != OpeningBase(d, q, t)
  }

  /** A rung comes from a commit on the key set, by one of the two handlers that commit. */
  lemma RungWasCommitted(c: Config, st: State, q: Incoming, t: Tick)
    requires st.sod.Shaped() && MoveOf(c, st, q, t).Rung?
    ensures var r, m := Dispatch(PortOf(c), st.sod, KEY_SET_ID, SodRequest(q, t)), MoveOf(c, st, q, t);
            && q.dataId == KEY_SET_ID && r.commit.Some? && m.body == r.commit.value.plain
            && m.authorizing == (if IsKeyPoll(st.sod, q, t) then st.sod.lastKid else r.commit.value.base)
  {
    hide Dispatch, IsReset;
  }

  lemma CommitHasHandler(c: Config, d: Sod<App>, q: Incoming, t: Tick)
    requires d.Shaped() && q.dataId == KEY_SET_ID && Dispatch(PortOf(c), d, KEY_SET_ID, SodRequest(q, t)).commit.Some?
    ensures FindIndex(d.entries, KEY_SET_ID) < |d.entries|
    ensures var i := FindIndex(d.entries, KEY_SET_ID);
            var r := VerifyApply(PortOf(c), d.entries[i], d.writeSlots[i], d.app, d.keys, d.lastKid, SodRequest(q, t));
            !IsKeyPoll(d, q, t) ==> Dispatch(PortOf(c), d, KEY_SET_ID, SodRequest(q, t)).commit == r.commit
  {
    hide VerifyApply, WritePoll, ReadPoll, ArmRead, ArmWrite, Deliver;
    var i := FindIndex(d.entries, KEY_SET_ID);
    if i < |d.entries| {
      ArmsCommitNothing(PortOf(c), d.entries[i], d.writeSlots[i], d.app, d.keys, d.lastKid, SodRequest(q, t),
                        if q.body == [] then None else Some(q.body[0]));
    }
  }

  lemma ArmsCommitNothing<A>(p: Port<A>, e: Entry, w: WriteSlot, app: A, keys: KeyStore, lastKid: byte, q: Request, kid: Option<byte>)
    ensures ArmWrite(p, e, w, app, keys, lastKid, q, kid).commit.None?
  {
    hide KeyAccepted, HeldByOther;
  }

  lemma PassTwoOpens<A>(p: Port<A>, e: Entry, w: WriteSlot, app: A, keys: KeyStore, lastKid: byte, q: Request)
    ensures var r := VerifyApply(p, e, w, app, keys, lastKid, q);
            r.commit.Some? ==>
              && |q.body| == 1 + RAND_SIZE + e.dataLen + TAG_SIZE && BaseId(q.body[0]) in keys
              && r.commit.value.base == BaseId(q.body[0])
              && OpenPassTwo(p, e, w, keys[BaseId(q.body[0])].key, q.body) == Some(r.commit.value.plain)
  {
    hide OpenPassTwo;
  }

  lemma KeyPollOpens(c: Config, d: Sod<App>, q: Incoming, t: Tick)
    requires d.Shaped() && IsKeyPoll(d, q, t) && KeyPollAdmitted(c, d, q, t)
    ensures OpensAs(c, d, q, t, KeyPollRung(c, d, q, t))
  {
    hide OpenPoll, OpenPassTwo, RouteOf, FindIndex, C.ApplyKeySet;
  }

  lemma PassTwoOpensAs(c: Config, d: Sod<App>, q: Incoming, t: Tick)
    requires d.Shaped() && !IsKeyPoll(d, q, t) && q.dataId == KEY_SET_ID
    requires Dispatch(PortOf(c), d, KEY_SET_ID, SodRequest(q, t)).commit.Some?
    ensures var commit := Dispatch(PortOf(c), d, KEY_SET_ID, SodRequest(q, t)).commit.value;
            commit.base == OpeningBase(d, q, t) && OpensAs(c, d, q, t, commit.plain)
  {
    hide Dispatch, OpenPoll, OpenPassTwo, VerifyApply, IsKeyPoll, FindIndex, PortOf;
    CommitHasHandler(c, d, q, t);
    var i := FindIndex(d.entries, KEY_SET_ID);
    PassTwoOpens(PortOf(c), d.entries[i], d.writeSlots[i], d.app, d.keys, d.lastKid, SodRequest(q, t));
  }

  lemma InstalledRung(v: C.Device, authorizing: byte, body: seq<byte>)
    requires Installed(v, Rung(authorizing, body))
    ensures |body| == C.KEY_SET_BODY_LEN && C.NeededFor(body[0]) == Some(authorizing)
  {
  }

  /**
   * A rung that is installed was opened under a key the device holds; that key
   * is the one of the tier that the rung needs, exactly when the request is no
   * poll in a session of another key than the last single write's.
   */
  lemma RungIsProved(c: Config, st: State, q: Incoming, t: Tick)
    requires st.sod.Shaped() && MoveOf(c, st, q, t).Rung?
    ensures var d, body := st.sod, MoveOf(c, st, q, t).body;
            && OpensAs(c, d, q, t, body) && |body| == C.KEY_SET_BODY_LEN
            && (C.NeededFor(body[0]) == Some(OpeningBase(d, q, t)) <==> !IsMisnamedKeyPoll(d, q, t))
  {
    hide Dispatch, MoveOf, Serve, OpensAs, OpeningBase, Installed, IsKeyPoll, KeyPollAdmitted, KeyPollRung, StalePollCommits;
    var d, m := st.sod, MoveOf(c, st, q, t);
    ServeIsOneMove(c, st, q, t);
    InstalledRung(Commissioned(d), m.authorizing, m.body);
    RungWasCommitted(c, st, q, t);
    if IsKeyPoll(d, q, t) {
      KeyPollDecides(c, d, q, t);
      KeyPollOpens(c, d, q, t);
    } else {
      PassTwoOpensAs(c, d, q, t);
    }
  }

  /** Such a poll of another session's key reaches the secure dictionary and has all it needs. */
  predicate MisnamedPollCommits(c: Config, st: State, q: Incoming, t: Tick)
    requires st.sod.Shaped()
  {
    c.constants(st.sod, q.dataId, q.body).None? && IsMisnamedKeyPoll(st.sod, q, t) && KeyPollAdmitted(c, st.sod, q, t)
  }

  lemma MisnamedIsUnproved(c: Config, st: State, q: Incoming, t: Tick)
    requires st.sod.Shaped()
    ensures var m := MoveOf(c, st, q, t);
            MisnamedPollCommits(c, st, q, t) <==>
              !(m.Rung? ==> OpensAs(c, st.sod, q, t, m.body) && m.body != []
                            && C.NeededFor(m.body[0]) == Some(OpeningBase(st.sod, q, t)))
  {
    hide OpensAs, OpeningBase, KeyPollAdmitted, C.NeededFor;
    KeyPollMoves(c, st, q, t);
    hide MoveOf, IsKeyPoll;
    if MoveOf(c, st, q, t).Rung? {
      RungIsProved(c, st, q, t);
    }
  }

  /** A key poll is a rung of the commissioning state exactly when it is admitted and no constant object shadows the key set. */
  lemma KeyPollMoves(c: Config, st: State, q: Incoming, t: Tick)
    requires st.sod.Shaped()
    ensures IsKeyPoll(st.sod, q, t) ==>
              (MoveOf(c, st, q, t).Rung? <==> c.constants(st.sod, q.dataId, q.body).None? && KeyPollAdmitted(c, st.sod, q, t))
  {
    hide Dispatch, RouteOf, KeyPollAdmitted;
    if IsKeyPoll(st.sod, q, t) {
      KeyPollDecides(c, st.sod, q, t);
    }
  }
}
