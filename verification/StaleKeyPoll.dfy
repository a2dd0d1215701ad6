/**
 * Runs of the whole device, from a keyless boot, in which a write poll on the
 * key set installs a rung in the name of the key of the last single write. When
 * a reset has taken that key, key ladder and commissioned byte break; when it
 * is in place, they hold, but the poll's tag proved another key.
 */
module StaleKeyPoll {
  import opened Bytes
  import opened Aead
  import opened Asym
  import opened Channel
  import opened SecureOd
  import opened SecureProto
  import opened Tunnel
  import opened PollRuns
  import C = Commissioning
  import opened CommissioningRuns
  import Rpk
  import RpkClient
  import RpkRuns
  import opened DeviceModel
  import opened DeviceRuns
  import opened Stack
  import TokenCommissioning

  /* ---- Boot ---- */

  /** The secure entries in the order of their registration; the identity's own entry is optional. */
  function BootEntries(identity: bool): seq<Entry> {
    (if identity then [Entry(SRD_ID, KEY_NONE, true, false, SECURE_LEN)] else [])
    + [Entry(SWR_ID, KEY_NONE, false, true, SECURE_LEN), Entry(RD_ID, KEY_NONE, true, false, VALUE_LEN),
       Entry(WR_ID, KEY_NONE, false, true, VALUE_LEN), Entry(KEY_SET_ID, KEY_NONE, false, true, C.KEY_SET_BODY_LEN)]
  }

  /** Where 2016h and C01Fh are. */
  function BlockIndex(identity: bool): nat { if identity then 1 else 0 }

  function KeySetIndex(identity: bool): nat { BlockIndex(identity) + 3 }

  /** The device as it boots without session keys; the application's values are arbitrary. */
  function BootState(c: Config, identity: bool, values: App): State {
    var entries := BootEntries(identity);
    var boot := C.Boot(c.origin, map[]);
    State(Sod(entries, seq(|entries|, _ => EMPTY_READ), seq(|entries|, _ => EMPTY_WRITE), boot.keys, 0,
              values.(stage := boot.stage, own := boot.own)), Rpk.NO_CHALLENGE)
  }

  lemma BootIsReady(c: Config, identity: bool, values: App)
    ensures var d := BootState(c, identity, values).sod;
            && d.Valid() && Commissioned(d) == C.Boot(c.origin, map[])
            && At(d, BlockIndex(identity), SWR_ID) && At(d, KeySetIndex(identity), KEY_SET_ID)
  {
    var entries := BootEntries(identity);
    assert entries[BlockIndex(identity)].dataId == SWR_ID && entries[KeySetIndex(identity)].dataId == KEY_SET_ID;
  }

  /* ---- Flows of the client as requests to the device ---- */

  lemma {:induction false} RunAppends(c: Config, st: State, a: seq<Input>, b: seq<Input>)
    requires st.sod.Shaped()
    ensures RunDevice(c, st, a + b) == RunDevice(c, RunDevice(c, st, a), b)
  {
    hide Serve;
    if b == [] {
      assert a + b == a;
    } else {
      var n := |b| - 1;
      RunAppends(c, st, a, b[..n]);
      assert (a + b)[..|a| + n] == a + b[..n];
    }
  }

  lemma RunOfTwo(c: Config, st: State, x: Input, y: Input)
    requires st.sod.Shaped()
    ensures RunDevice(c, st, [x, y]) == Serve(c, Serve(c, st, x.q, x.t).0, y.q, y.t).0
  {
    hide Serve;
    RunOfOne(c, st, x);
    assert [x, y][..1] == [x];
  }

  lemma RunOfOne(c: Config, st: State, x: Input)
    requires st.sod.Shaped()
    ensures RunDevice(c, st, [x]) == Serve(c, st, x.q, x.t).0
  {
    hide Serve;
    assert [x][..0] == [];
  }

  function WriteInputs(g: Gcm, call: Call, plain: seq<byte>, random: Nonce, t1: Tick, t2: Tick): seq<Input>
    requires |plain| <= MAX_PROTECTED && t1.random.Some?
  {
    [Input(Incoming(call.client, call.dataId, []), t1),
     Input(Incoming(call.client, call.dataId, PassTwoFrame(g, call, random, t1.random.value, plain)), t2)]
  }

  /** A write that everything is ready for, as two requests to the whole device. */
  lemma WriteByRequests(c: Config, st: State, i: nat, call: Call, plain: seq<byte>, random: Nonce, t1: Tick, t2: Tick)
    requires st.sod.Valid() && At(st.sod, i, call.dataId) && IsSecureObject(c, call.dataId)
    requires WriteReady(PortOf(c), st.sod, i, call, plain, Some(random), EnvOf(t1), EnvOf(t2))
    ensures t1.random.Some? && |plain| <= MAX_PROTECTED
    ensures RunDevice(c, st, WriteInputs(c.gcm, call, plain, random, t1, t2))
              == st.(sod := AfterWrite(PortOf(c), st.sod, i, call, plain, random, EnvOf(t1), EnvOf(t2)))
  {
    assert st.sod.entries[i].dataLen <= MAX_PROTECTED;
    var p, e1, e2 := PortOf(c), EnvOf(t1), EnvOf(t2);
    ChallengeHasRandom(p, st.sod, i, call.client, e1);
    hide Serve, Exchange, PassTwoFrame, WriteFlow, AfterWrite, WriteCollides, Challenges, PortOf, IsSecureObject;
    WriteCorrect(p, st.sod, i, call, plain, Some(random), e1, e2);
    ChallengeAnswered(p, st.sod, i, call.client, call.dataId, e1);
    WriteFlowConcludes(p, st.sod, call, plain, Some(random), e1, e2);
    PortHasGcm(c);
    var frame := PassTwoFrame(c.gcm, call, random, t1.random.value, plain);
    var x := Input(Incoming(call.client, call.dataId, []), t1);
    ServeIsExchange(c, st, call.client, call.dataId, [], t1);
    var st1 := Serve(c, st, x.q, t1).0;
    ServeIsExchange(c, st1, call.client, call.dataId, frame, t2);
    RunOfTwo(c, st, x, Input(Incoming(call.client, call.dataId, frame), t2));
  }

  function CommandInputs(s: Scheme, target: RpkClient.Target, signer: Seed, code: u32, random: Rand16, t1: Tick, t2: Tick): seq<Input>
    requires t1.nonce.Some?
  {
    [Input(Incoming(target.client, Rpk.FUNCCMD_ID, []), t1),
     Input(Incoming(target.client, Rpk.FUNCCMD_ID, RpkClient.CommandPayload(s, target, signer, code, random, t1.nonce.value)), t2)]
  }

  /** A signed reset that everything is ready for, as two requests to the whole device. */
  lemma ResetByRequests(c: Config, st: State, target: RpkClient.Target, signer: Seed, random: Rand16, t1: Tick, t2: Tick)
    requires st.sod.Shaped() && forall d, body :: c.constants(d, Rpk.FUNCCMD_ID, body).None?
    requires Correct(c.origin.scheme) && c.peer == Some(c.origin.scheme.public(signer)) && target.device == c.deviceId
    requires t1.nonce.Some?
    ensures RunDevice(c, st, CommandInputs(c.origin.scheme, target, signer, Rpk.CMD_FACTORY_RESTORE, random, t1, t2)).sod
              == WithCommissioned(st.sod, C.Reset(c.origin, Commissioned(st.sod)))
  {
    var h, s := HostOf(c), RpkRuns.State(st.challenge, st.sod);
    var e1, e2 := RpkClient.Env(t1.nonce, Delivered), RpkClient.Env(t2.nonce, Delivered);
    var code := Rpk.CMD_FACTORY_RESTORE;
    RpkClient.SignedCommandCorrect(h, s, target, signer, code, Some(random), e1, e2);
    assert RpkClient.CommandReady(h, target, signer, Some(random), e1, e2);
    assert h.scheme == c.origin.scheme && h.restore(st.sod) == WithCommissioned(st.sod, C.Reset(c.origin, Commissioned(st.sod)));
    hide Serve, RpkClient.Exchange, RpkClient.CommandPayload, C.Reset, HostOf, WithCommissioned;
    RpkClient.FetchArms(h, s, target.client, Rpk.FUNCCMD_ID, [], e1);
    var payload := RpkClient.CommandPayload(c.origin.scheme, target, signer, code, random, t1.nonce.value);
    var x := Input(Incoming(target.client, Rpk.FUNCCMD_ID, []), t1);
    ServeIsSignedStep(c, st, target.client, Rpk.FUNCCMD_ID, [], t1);
    var st1 := Serve(c, st, x.q, t1).0;
    ServeIsSignedStep(c, st1, target.client, Rpk.FUNCCMD_ID, payload, t2);
    RunOfTwo(c, st, x, Input(Incoming(target.client, Rpk.FUNCCMD_ID, payload), t2));
  }

  lemma PollWriteIsOneExchange<A>(p: Port<A>, d: Sod<A>, call: Call, sess: Session, plain: seq<byte>, env: Env)
    requires d.Shaped() && sess.inUse && 0 < |plain| <= MAX_PROTECTED && sess.counter < KEY_USE_LIMIT
    ensures PollWrite(p, d, call, sess, plain, env).sod
              == Exchange(p, d, call.client, sess.dataId, PollFrame(p.gcm, call, sess, sess.counter + 1, plain), env).sod
  {
    hide Exchange, PollFrame, WriteAnswer;
  }

  function NextPoll(g: Gcm, call: Call, sess: Session, plain: seq<byte>, t: Tick): Input
    requires |plain| <= MAX_PROTECTED && sess.counter < KEY_USE_LIMIT
  {
    Input(Incoming(call.client, sess.dataId, PollFrame(g, call, sess, sess.counter + 1, plain)), t)
  }

  /** A write poll that everything is ready for, as one request to the whole device. */
  lemma PollByRequest(c: Config, st: State, i: nat, call: Call, sess: Session, plain: seq<byte>, t: Tick)
    requires st.sod.Valid() && At(st.sod, i, sess.dataId) && IsSecureObject(c, sess.dataId)
    requires st.sod.entries[i].secureWo && WriteLinked(st.sod, i, call, sess)
    requires PollWriteReady(PortOf(c), st.sod, i, call, sess, plain, EnvOf(t))
    ensures |plain| <= MAX_PROTECTED && sess.counter < KEY_USE_LIMIT
    ensures RunDevice(c, st, [NextPoll(c.gcm, call, sess, plain, t)]).sod
              == AfterPollWrite(PortOf(c), st.sod, i, plain, EnvOf(t))
  {
    var p := PortOf(c);
    assert st.sod.entries[i].dataLen <= MAX_PROTECTED && sess.inUse && sess.counter < KEY_USE_LIMIT && 0 < |plain|;
    PortHasGcm(c);
    hide Serve, Exchange, PollWrite, PollFrame, AfterPollWrite, PollWriteCollides, PortOf, IsSecureObject, WriteLinked,
         PollWriteReady, WriteAnswer, FindIndex;
    PollWriteCorrect(p, st.sod, i, call, sess, plain, EnvOf(t));
    PollWriteIsOneExchange(p, st.sod, call, sess, plain, EnvOf(t));
    var frame := PollFrame(c.gcm, call, sess, sess.counter + 1, plain);
    RunOfOne(c, st, Input(Incoming(call.client, sess.dataId, frame), t));
    ServeIsExchange(c, st, call.client, sess.dataId, frame, t);
  }

  /* ---- The run ---- */

  /** Who sends what: the client, the signer of the reset, two ladder keys, a value, and the client's randoms. */
  datatype Scene = Scene(client: u16, signer: Seed, provisioning: Key, integrator: Key, value: Block,
                         first: Nonce, second: Nonce, third: Rand16)

  /** Seven readings of clock and random sources, close enough together. */
  predicate TicksReady(t: seq<Tick>) {
    && |t| == 7 && (forall k :: 0 <= k < 7 ==> t[k].random.Some? && t[k].nonce.Some?)
    && ChallengeFresh(t[1].now, t[0].now) && ChallengeFresh(t[3].now, t[2].now) && SessionFresh(t[6].now, t[1].now)
  }

  /** The signed reset is open to the signer, and no constant object shadows the three that are used. */
  ghost predicate DeviceReady(c: Config, s: Scene) {
    && Correct(c.origin.scheme) && c.peer == Some(c.origin.scheme.public(s.signer))
    && IsSecureObject(c, KEY_SET_ID) && IsSecureObject(c, SWR_ID)
    && forall d, body :: c.constants(d, Rpk.FUNCCMD_ID, body).None?
  }

  /** The armed write under the claim token. */
  function TokenCall(c: Config, s: Scene): Call {
    Armed(Call(s.client, c.deviceId, KEY_SET_ID, c.origin.claimToken, C.SLOT_CLAIM_TOKEN))
  }

  function BlockCall(c: Config, s: Scene): Call { Call(s.client, c.deviceId, SWR_ID, s.provisioning, C.SLOT_PROVISIONING) }

  function TokenSession(c: Config, s: Scene, t: seq<Tick>): Session
    requires TicksReady(t)
  {
    Session(true, KEY_SET_ID, TokenCall(c, s).keyId, XorSeq(s.first, t[0].random.value), 0)
  }

  /** The token installs the Provisioning rung and opens a session. */
  function TokenInputs(c: Config, s: Scene, t: seq<Tick>): seq<Input>
    requires TicksReady(t)
  {
    WriteInputs(c.gcm, TokenCall(c, s), TokenCommissioning.RungBody(C.SLOT_PROVISIONING, s.provisioning), s.first, t[0], t[1])
  }

  /** The Provisioning key writes 2016h. */
  function BlockInputs(c: Config, s: Scene, t: seq<Tick>): seq<Input>
    requires TicksReady(t)
  {
    WriteInputs(c.gcm, BlockCall(c, s), s.value, s.second, t[2], t[3])
  }

  /** A signed reset. */
  function ResetInputs(c: Config, s: Scene, t: seq<Tick>): seq<Input>
    requires TicksReady(t)
  {
    CommandInputs(c.origin.scheme, RpkClient.Target(s.client, c.deviceId, 0, 0), s.signer, Rpk.CMD_FACTORY_RESTORE,
                  s.third, t[4], t[5])
  }

  /** One poll of the token's session, with the Integrator rung. */
  function PollInput(c: Config, s: Scene, t: seq<Tick>): Input
    requires TicksReady(t)
  {
    NextPoll(c.gcm, TokenCall(c, s), TokenSession(c, s, t), TokenCommissioning.RungBody(C.SLOT_INTEGRATOR, s.integrator), t[6])
  }

  /** Everything before that poll. */
  function StaleInputs(c: Config, s: Scene, t: seq<Tick>): seq<Input>
    requires TicksReady(t)
  {
    TokenInputs(c, s, t) + BlockInputs(c, s, t) + ResetInputs(c, s, t)
  }

  /** What stays put along the run: the dictionary's shape and the two entries used. */
  predicate Placed(d: Sod<App>, identity: bool) {
    && d.entries == BootEntries(identity) && d.Shaped()
    && At(d, BlockIndex(identity), SWR_ID) && At(d, KeySetIndex(identity), KEY_SET_ID)
  }

  /** The live session on C01Fh. */
  predicate SessionLives(d: Sod<App>, identity: bool, c: Config, s: Scene, t: seq<Tick>)
    requires Placed(d, identity) && TicksReady(t)
  {
    var w := d.writeSlots[KeySetIndex(identity)];
    && WriteLinked(d, KeySetIndex(identity), TokenCall(c, s), TokenSession(c, s, t))
    && w.counter == 0 && w.armedAt == t[1].now
  }

  /** First act: the rung goes in, and the session stays. */
  lemma TokenWrites(c: Config, identity: bool, values: App, s: Scene, t: seq<Tick>)
    requires TicksReady(t)
    ensures var d, i := BootState(c, identity, values).sod, KeySetIndex(identity);
            var body := TokenCommissioning.RungBody(C.SLOT_PROVISIONING, s.provisioning);
            && d.Valid() && Placed(d, identity)
            && WriteReady(PortOf(c), d, i, TokenCall(c, s), body, Some(s.first), EnvOf(t[0]), EnvOf(t[1]))
            && var r := AfterWrite(PortOf(c), d, i, TokenCall(c, s), body, s.first, EnvOf(t[0]), EnvOf(t[1]));
               && r.Valid() && Placed(r, identity) && SessionLives(r, identity, c, s, t)
               && !r.writeSlots[BlockIndex(identity)].inUse && r.app.own == C.UNOWNED
               && r.keys == C.Boot(c.origin, map[]).keys[C.SLOT_PROVISIONING := KeyRecord(s.provisioning, C.ID_PROVISIONING)]
  {
    var d := BootState(c, identity, values).sod;
    BootIsReady(c, identity, values);
    TokenCommissioning.RungBodyApplies(d.keys, d.app.stage, C.SLOT_PROVISIONING, C.SLOT_CLAIM_TOKEN, s.provisioning);
    hide C.ApplyKeySet, TokenCommissioning.RungBody;
  }

  /** Second act: the last single write is now one under the Provisioning key. */
  lemma BlockWrites(c: Config, identity: bool, d: Sod<App>, s: Scene, t: seq<Tick>)
    requires TicksReady(t) && d.Valid() && Placed(d, identity) && SessionLives(d, identity, c, s, t)
    requires !d.writeSlots[BlockIndex(identity)].inUse && HoldsKey(d.keys, C.SLOT_PROVISIONING, s.provisioning)
    ensures var i := BlockIndex(identity);
            && WriteReady(PortOf(c), d, i, BlockCall(c, s), s.value, Some(s.second), EnvOf(t[2]), EnvOf(t[3]))
            && var r := AfterWrite(PortOf(c), d, i, BlockCall(c, s), s.value, s.second, EnvOf(t[2]), EnvOf(t[3]));
               && r.Valid() && Placed(r, identity) && SessionLives(r, identity, c, s, t)
               && r.lastKid == C.SLOT_PROVISIONING && r.app.own == d.app.own && r.keys == d.keys
  {
  }

  /** Third act: the token alone is left, and the session with it. */
  lemma ResetWipes(c: Config, identity: bool, d: Sod<App>, s: Scene, t: seq<Tick>)
    requires TicksReady(t) && d.Valid() && Placed(d, identity) && SessionLives(d, identity, c, s, t)
    ensures var r := WithCommissioned(d, C.Reset(c.origin, Commissioned(d)));
            && r.Valid() && Placed(r, identity) && SessionLives(r, identity, c, s, t) && r.lastKid == d.lastKid
            && r.keys == C.Boot(c.origin, map[]).keys && r.app.stage == C.Uncommissioned && !r.app.own.ownerSet
  {
  }

  /** Last act: the poll installs the Integrator rung in the name of the Provisioning key, held or not. */
  lemma PollInstalls(c: Config, identity: bool, d: Sod<App>, s: Scene, t: seq<Tick>)
    requires TicksReady(t) && d.Valid() && Placed(d, identity) && SessionLives(d, identity, c, s, t)
    requires d.lastKid == C.SLOT_PROVISIONING && HoldsKey(d.keys, C.SLOT_CLAIM_TOKEN, c.origin.claimToken)
    requires C.SLOT_INTEGRATOR !in d.keys
    ensures var i, body := KeySetIndex(identity), TokenCommissioning.RungBody(C.SLOT_INTEGRATOR, s.integrator);
            && PollWriteReady(PortOf(c), d, i, TokenCall(c, s), TokenSession(c, s, t), body, EnvOf(t[6]))
            && var r := AfterPollWrite(PortOf(c), d, i, body, EnvOf(t[6]));
               && r.keys == d.keys[C.SLOT_INTEGRATOR := KeyRecord(s.integrator, C.ID_INTEGRATOR)]
               && r.app.stage == C.StageFor(r.keys, d.app.stage) && r.app.own == d.app.own
  {
    TokenCommissioning.RungBodyApplies(d.keys, d.app.stage, C.SLOT_INTEGRATOR, C.SLOT_PROVISIONING, s.integrator);
    hide C.ApplyKeySet, TokenCommissioning.RungBody;
  }

  /** The dictionary is in order and the session lives. */
  ghost predicate Underway(c: Config, identity: bool, d: Sod<App>, s: Scene, t: seq<Tick>)
    requires TicksReady(t)
  {
    d.Valid() && Placed(d, identity) && SessionLives(d, identity, c, s, t)
  }

  lemma TokenAct(c: Config, identity: bool, values: App, s: Scene, t: seq<Tick>)
    requires DeviceReady(c, s) && TicksReady(t)
    ensures BootState(c, identity, values).sod.Shaped()
    ensures var d := RunDevice(c, BootState(c, identity, values), TokenInputs(c, s, t)).sod;
            && Underway(c, identity, d, s, t) && HoldsKey(d.keys, C.SLOT_PROVISIONING, s.provisioning)
            && HoldsKey(d.keys, C.SLOT_CLAIM_TOKEN, c.origin.claimToken) && C.SLOT_INTEGRATOR !in d.keys
            && !d.writeSlots[BlockIndex(identity)].inUse
  {
    TokenWrites(c, identity, values, s, t);
    hide WriteInputs, RunDevice, WriteReady, AfterWrite, BootState, SessionLives, TokenCommissioning.RungBody, PortOf, IsSecureObject;
    WriteByRequests(c, BootState(c, identity, values), KeySetIndex(identity), TokenCall(c, s),
                    TokenCommissioning.RungBody(C.SLOT_PROVISIONING, s.provisioning), s.first, t[0], t[1]);
  }

  lemma BlockAct(c: Config, identity: bool, st: State, s: Scene, t: seq<Tick>)
    requires DeviceReady(c, s) && TicksReady(t) && Underway(c, identity, st.sod, s, t)
    requires HoldsKey(st.sod.keys, C.SLOT_PROVISIONING, s.provisioning) && !st.sod.writeSlots[BlockIndex(identity)].inUse
    ensures var d := RunDevice(c, st, BlockInputs(c, s, t)).sod;
            Underway(c, identity, d, s, t) && d.lastKid == C.SLOT_PROVISIONING && d.keys == st.sod.keys
  {
    BlockWrites(c, identity, st.sod, s, t);
    hide WriteInputs, RunDevice, WriteReady, AfterWrite, SessionLives, PortOf, IsSecureObject;
    WriteByRequests(c, st, BlockIndex(identity), BlockCall(c, s), s.value, s.second, t[2], t[3]);
  }

  lemma ResetAct(c: Config, identity: bool, st: State, s: Scene, t: seq<Tick>)
    requires DeviceReady(c, s) && TicksReady(t) && Underway(c, identity, st.sod, s, t)
    ensures var d := RunDevice(c, st, ResetInputs(c, s, t)).sod;
            && Underway(c, identity, d, s, t) && d.lastKid == st.sod.lastKid
            && d.keys == C.Boot(c.origin, map[]).keys && d.app.stage == C.Uncommissioned && !d.app.own.ownerSet && d.app.own.uncommissioned
  {
    ResetWipes(c, identity, st.sod, s, t);
    hide CommandInputs, RunDevice, SessionLives, PortOf, C.Reset, C.Boot, WithCommissioned;
    ResetByRequests(c, st, RpkClient.Target(s.client, c.deviceId, 0, 0), s.signer, s.third, t[4], t[5]);
  }

  lemma PollReaches(c: Config, identity: bool, st: State, s: Scene, t: seq<Tick>)
    requires IsSecureObject(c, KEY_SET_ID) && TicksReady(t) && Underway(c, identity, st.sod, s, t)
    requires PollWriteReady(PortOf(c), st.sod, KeySetIndex(identity), TokenCall(c, s), TokenSession(c, s, t),
                            TokenCommissioning.RungBody(C.SLOT_INTEGRATOR, s.integrator), EnvOf(t[6]))
    ensures RunDevice(c, st, [PollInput(c, s, t)]).sod
              == AfterPollWrite(PortOf(c), st.sod, KeySetIndex(identity), TokenCommissioning.RungBody(C.SLOT_INTEGRATOR, s.integrator),
                                EnvOf(t[6]))
  {
    SessionMeets(c, identity, st.sod, s, t);
    assert TokenSession(c, s, t).dataId == KEY_SET_ID;
    hide RunDevice, PollWriteReady, AfterPollWrite, WriteLinked, PortOf, IsSecureObject, TokenCommissioning.RungBody, NextPoll,
         FindIndex, SessionLives, Placed, KeySetIndex, TokenCall, TokenSession;
    PollByRequest(c, st, KeySetIndex(identity), TokenCall(c, s), TokenSession(c, s, t),
                  TokenCommissioning.RungBody(C.SLOT_INTEGRATOR, s.integrator), t[6]);
  }

  lemma SessionMeets(c: Config, identity: bool, d: Sod<App>, s: Scene, t: seq<Tick>)
    requires TicksReady(t) && Underway(c, identity, d, s, t)
    ensures At(d, KeySetIndex(identity), KEY_SET_ID) && d.entries[KeySetIndex(identity)].secureWo
    ensures WriteLinked(d, KeySetIndex(identity), TokenCall(c, s), TokenSession(c, s, t))
  {
  }

  lemma PollAct(c: Config, identity: bool, st: State, s: Scene, t: seq<Tick>)
    requires IsSecureObject(c, KEY_SET_ID) && TicksReady(t) && Underway(c, identity, st.sod, s, t)
    requires st.sod.lastKid == C.SLOT_PROVISIONING && HoldsKey(st.sod.keys, C.SLOT_CLAIM_TOKEN, c.origin.claimToken)
    requires C.SLOT_INTEGRATOR !in st.sod.keys
    ensures var d := RunDevice(c, st, [PollInput(c, s, t)]).sod;
            && d.keys == st.sod.keys[C.SLOT_INTEGRATOR := KeyRecord(s.integrator, C.ID_INTEGRATOR)]
            && d.app.stage == C.StageFor(d.keys, st.sod.app.stage) && d.app.own == st.sod.app.own
  {
    PollInstalls(c, identity, st.sod, s, t);
    hide RunDevice, PollWriteReady, AfterPollWrite, SessionLives, Placed, PortOf, IsSecureObject, C.Boot, PollInput;
    PollReaches(c, identity, st, s, t);
  }

  predicate JustReset(c: Config, v: C.Device) {
    && v.keys == C.Boot(c.origin, map[]).keys && v.stage == C.Uncommissioned && !v.own.ownerSet && v.own.uncommissioned
  }

  lemma StaleRungBreaks(c: Config, before: C.Device, after: C.Device, key: Key)
    requires JustReset(c, before)
    requires after.keys == before.keys[C.SLOT_INTEGRATOR := KeyRecord(key, C.ID_INTEGRATOR)]
    requires after.stage == C.StageFor(after.keys, before.stage) && after.own == before.own
    ensures after.stage == C.Uncommissioned
    ensures Consistent(before) && LadderStands(before)
    ensures C.SLOT_PROVISIONING !in after.keys && !LadderStands(after) && !StageAgrees(after)
  {
  }

  lemma JustResetHolds(c: Config, v: C.Device)
    requires JustReset(c, v)
    ensures HoldsKey(v.keys, C.SLOT_CLAIM_TOKEN, c.origin.claimToken) && C.SLOT_INTEGRATOR !in v.keys
  {
  }

  /** All acts but the last. */
  lemma UpToThePoll(c: Config, identity: bool, values: App, s: Scene, t: seq<Tick>)
    requires DeviceReady(c, s) && TicksReady(t)
    ensures BootState(c, identity, values).sod.Shaped()
    ensures var d := RunDevice(c, BootState(c, identity, values), TokenInputs(c, s, t) + BlockInputs(c, s, t) + ResetInputs(c, s, t)).sod;
            Underway(c, identity, d, s, t) && d.lastKid == C.SLOT_PROVISIONING && JustReset(c, Commissioned(d))
  {
    var st := BootState(c, identity, values);
    var in1, in2, in3 := TokenInputs(c, s, t), BlockInputs(c, s, t), ResetInputs(c, s, t);
    TokenAct(c, identity, values, s, t);
    hide TokenInputs, BlockInputs, ResetInputs, RunDevice, BootState, SessionLives, Placed, DeviceReady, C.Boot;
    BlockAct(c, identity, RunDevice(c, st, in1), s, t);
    ResetAct(c, identity, RunDevice(c, RunDevice(c, st, in1), in2), s, t);
    RunAppends(c, st, in1, in2);
    RunAppends(c, st, in1 + in2, in3);
  }

  /**
   * The whole run, for every configuration with a signer for the reset, all
   * keys, values and randoms: up to the poll everything is in order; after it
   * the device has an Integrator key without a Provisioning key, reads
   * uncommissioned, and ladder and commissioned byte are both broken.
   */
  lemma StaleKeyPollIsReachable(c: Config, identity: bool, values: App, s: Scene, t: seq<Tick>)
    requires DeviceReady(c, s) && TicksReady(t)
    ensures var st, inputs, x := BootState(c, identity, values), StaleInputs(c, s, t), PollInput(c, s, t);
            && st.sod.Shaped() && Commissioned(st.sod) == C.Boot(c.origin, map[])
            && var before, after := Commissioned(RunDevice(c, st, inputs).sod), Commissioned(RunDevice(c, st, inputs + [x]).sod);
               && Consistent(before) && LadderStands(before)
               && after.keys == before.keys[C.SLOT_INTEGRATOR := KeyRecord(s.integrator, C.ID_INTEGRATOR)]
               && C.SLOT_PROVISIONING !in after.keys && after.stage == C.Uncommissioned
               && !LadderStands(after) && !StageAgrees(after)
  {
    var st, inputs, x := BootState(c, identity, values), StaleInputs(c, s, t), PollInput(c, s, t);
    BootIsReady(c, identity, values);
    UpToThePoll(c, identity, values, s, t);
    hide StaleInputs, PollInput, RunDevice, BootState, SessionLives, Placed, JustReset, C.Boot, Consistent, LadderStands, StageAgrees;
    JustResetHolds(c, Commissioned(RunDevice(c, st, inputs).sod));
    hide DeviceReady;
    PollAct(c, identity, RunDevice(c, st, inputs), s, t);
    RunAppends(c, st, inputs, [x]);
    StaleRungBreaks(c, Commissioned(RunDevice(c, st, inputs).sod), Commissioned(RunDevice(c, st, inputs + [x]).sod), s.integrator);
  }

  /* ---- The same poll without the reset ---- */

  /** The first two acts. */
  function MisnamedInputs(c: Config, s: Scene, t: seq<Tick>): seq<Input>
    requires TicksReady(t)
  {
    TokenInputs(c, s, t) + BlockInputs(c, s, t)
  }

  lemma UpToTheMisnamedPoll(c: Config, identity: bool, values: App, s: Scene, t: seq<Tick>)
    requires DeviceReady(c, s) && TicksReady(t)
    ensures BootState(c, identity, values).sod.Shaped()
    ensures var d := RunDevice(c, BootState(c, identity, values), MisnamedInputs(c, s, t)).sod;
            && Underway(c, identity, d, s, t) && d.lastKid == C.SLOT_PROVISIONING
            && HoldsKey(d.keys, C.SLOT_PROVISIONING, s.provisioning)
            && HoldsKey(d.keys, C.SLOT_CLAIM_TOKEN, c.origin.claimToken) && C.SLOT_INTEGRATOR !in d.keys
  {
    var st, in1, in2 := BootState(c, identity, values), TokenInputs(c, s, t), BlockInputs(c, s, t);
    hide TokenInputs, BlockInputs, RunDevice, BootState, SessionLives, Placed, DeviceReady;
    TokenAct(c, identity, values, s, t);
    BlockAct(c, identity, RunDevice(c, st, in1), s, t);
    RunAppends(c, st, in1, in2);
  }

  /** The poll is one of the token's session, while the last single write was under the Provisioning key. */
  lemma PollIsMisnamed(c: Config, identity: bool, d: Sod<App>, s: Scene, t: seq<Tick>)
    requires TicksReady(t) && Underway(c, identity, d, s, t) && d.lastKid == C.SLOT_PROVISIONING
    ensures var x := PollInput(c, s, t);
            && x.q.dataId == KEY_SET_ID && IsMisnamedKeyPoll(d, x.q, x.t) && OpeningBase(d, x.q, x.t) == C.SLOT_CLAIM_TOKEN
  {
    hide PollFrame, TokenCommissioning.RungBody;
    assert |PollInput(c, s, t).q.body| == 1 + C.KEY_SET_BODY_LEN + TAG_SIZE;
  }

  /**
   * The run without the reset: with the Provisioning key in place, one poll of
   * the token's session installs the Integrator rung. The ladder stands, but
   * the tag that the device checked was the token's, not that of the tier below.
   */
  lemma MisnamedPollIsReachable(c: Config, identity: bool, values: App, s: Scene, t: seq<Tick>)
    requires DeviceReady(c, s) && TicksReady(t)
    ensures var st, inputs, x := BootState(c, identity, values), MisnamedInputs(c, s, t), PollInput(c, s, t);
            && st.sod.Shaped()
            && var before, after := RunDevice(c, st, inputs), RunDevice(c, st, inputs + [x]);
               && MisnamedPollCommits(c, before, x.q, x.t) && OpeningBase(before.sod, x.q, x.t) == C.SLOT_CLAIM_TOKEN
               && C.SLOT_PROVISIONING in before.sod.keys && C.SLOT_INTEGRATOR !in before.sod.keys
               && after.sod.keys == before.sod.keys[C.SLOT_INTEGRATOR := KeyRecord(s.integrator, C.ID_INTEGRATOR)]
  {
    var st, inputs, x := BootState(c, identity, values), MisnamedInputs(c, s, t), PollInput(c, s, t);
    UpToTheMisnamedPoll(c, identity, values, s, t);
    hide MisnamedInputs, PollInput, RunDevice, BootState, SessionLives, Placed, Serve, MoveOf, OpeningBase, MisnamedPollCommits;
    var before := RunDevice(c, st, inputs);
    PollIsMisnamed(c, identity, before.sod, s, t);
    PollAct(c, identity, before, s, t);
    RunAppends(c, st, inputs, [x]);
    RunOfOne(c, before, x);
    ChangeOnKeySetIsRung(c, before, x.q, x.t);
    KeyPollMoves(c, before, x.q, x.t);
    MisnamedWhenAdmitted(c, before, x.q, x.t);
  }

  lemma MisnamedWhenAdmitted(c: Config, st: State, q: Incoming, t: Tick)
    requires st.sod.Shaped() && IsMisnamedKeyPoll(st.sod, q, t)
    requires c.constants(st.sod, q.dataId, q.body).None? && KeyPollAdmitted(c, st.sod, q, t)
    ensures MisnamedPollCommits(c, st, q, t)
  {
  }

  lemma ChangeOnKeySetIsRung(c: Config, st: State, q: Incoming, t: Tick)
    requires st.sod.Shaped() && q.dataId == KEY_SET_ID && Serve(c, st, q, t).0.sod.keys != st.sod.keys
    ensures MoveOf(c, st, q, t).Rung?
  {
    hide Serve, Dispatch, C.ApplyKeySet, StalePollCommits;
    ServeIsOneMove(c, st, q, t);
  }
}
