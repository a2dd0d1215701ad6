/**
 * All layers together: the secure tunnel's exchanges, carried as USDO frames
 * over a noisy bus to the device's chain of handlers, are the exchanges that
 * the tunnel's own theorems speak of.
 */
module Stack {
  import opened Bytes
  import opened Aborts
  import opened Aead
  import Asym
  import opened Channel
  import opened SecureOd
  import opened SecureProto
  import Rpk
  import RpkClient
  import RpkRuns
  import F = CanFdFrame
  import Usdo
  import S = ServerCarrier
  import T = ClientCarrier
  import Q = CarrierRuns
  import R = CarrierRefinement
  import opened DeviceModel

  /** The device and how many requests it has served; clock and randomness come from a script. */
  datatype Live = Live(state: State, n: nat)

  function DispatcherOf(c: Config, ticks: nat -> Tick): S.Dispatcher<Live> {
    S.Dispatcher((live: Live, src: u16, dataId: u32, body: seq<byte>) =>
      if live.state.sod.Shaped() then
        var r := Serve(c, live.state, Incoming(src, dataId, body), ticks(live.n));
        (Live(r.0, live.n + 1), r.1)
      else (live, S.DispatchReply(NO_OBJECT, [])))
  }

  /** An object that no handler before the secure dictionary claims. */
  ghost predicate IsSecureObject(c: Config, dataId: u32) {
    && (forall d, body :: c.constants(d, dataId, body).None?) && !IsHandover(dataId)
    && dataId != Rpk.GENERIC_READ_ID && dataId != Rpk.GENERIC_WRITE_ID && dataId != Rpk.FUNCCMD_ID
  }

  /** A refusal carries a code, and an accepted reply fits its buffer. */
  predicate WellFormed(reply: Reply, q: Request) {
    (reply.Refused? ==> reply.code != NO_ABORT) && (reply.Accepted? ==> |reply.data| <= q.replyMax)
  }

  lemma ReadRepliesAreWellFormed<A>(p: Port<A>, e: Entry, s: ReadSlot, app: A, keys: KeyStore, q: Request)
    ensures WellFormed(ReadPoll(p, e, s, app, keys, q).reply, q) && WellFormed(Deliver(s, app, q).reply, q)
    ensures |q.body| == READ_CHALLENGE_LEN ==> WellFormed(ArmRead(p, e, s, app, keys, q).reply, q)
  {
    hide QueryFor, Crypt, SessionNonce, KeyAccepted, HeldByOther, SessionFresh;
  }

  lemma WriteRepliesAreWellFormed<A>(p: Port<A>, e: Entry, w: WriteSlot, app: A, keys: KeyStore, lastKid: byte, q: Request)
    ensures WellFormed(VerifyApply(p, e, w, app, keys, lastKid, q).reply, q)
    ensures WellFormed(WritePoll(p, e, w, app, keys, lastKid, q).reply, q)
  {
    hide Open, OpenPassTwo, SessionNonce, KeyAccepted, ChallengeFresh, SessionFresh;
  }

  lemma RepliesAreWellFormed<A>(p: Port<A>, d: Sod<A>, dataId: u32, q: Request)
    requires d.Shaped()
    ensures WellFormed(Dispatch(p, d, dataId, q).reply, q)
  {
    hide ReadPoll, Deliver, ArmRead, VerifyApply, WritePoll, KeyAccepted, HeldByOther;
    var i := FindIndex(d.entries, dataId);
    if i < |d.entries| {
      ReadRepliesAreWellFormed(p, d.entries[i], d.readSlots[i], d.app, d.keys, q);
      WriteRepliesAreWellFormed(p, d.entries[i], d.writeSlots[i], d.app, d.keys, d.lastKid, q);
    }
  }

  /** The tunnel's view of the tick with which a request is served. */
  function EnvOf(t: Tick): Env { Env(t.now, t.random, Delivered) }

  lemma ServeIsExchange(c: Config, st: State, client: u16, dataId: u32, body: seq<byte>, t: Tick)
    requires st.sod.Shaped() && IsSecureObject(c, dataId)
    ensures var r := Serve(c, st, Incoming(client, dataId, body), t);
            var x := Exchange(PortOf(c), st.sod, client, dataId, body, EnvOf(t));
            && r.0 == st.(sod := x.sod) && x.reply.Some? && r.1 == SodAnswer(x.reply.value)
            && (x.reply.value.Refused? ==> x.reply.value.code != NO_ABORT)
            && (x.reply.value.Accepted? ==> |x.reply.value.data| <= REPLY_MAX)
  {
    hide Dispatch, Handover;
    RepliesAreWellFormed(PortOf(c), st.sod, dataId, Request(client, body, t.now, t.random, REPLY_MAX));
  }

  predicate IsSignedObject(dataId: u32) {
    dataId == Rpk.GENERIC_READ_ID || dataId == Rpk.GENERIC_WRITE_ID || dataId == Rpk.FUNCCMD_ID
  }

  lemma SignedReplyFits<A>(h: Rpk.Host<A>, challenge: Rpk.Challenge, app: A, q: Rpk.SignedRequest)
    ensures var r := Rpk.Try(h, challenge, app, q);
            r.Some? ==> |r.value.answer.data| <= Asym.RPK_VALUE_MAX + Asym.SIG_SIZE
  {
    hide Asym.AccessTranscript;
  }

  /** One exchange of signed access is one request to the whole device. */
  lemma ServeIsSignedStep(c: Config, st: State, client: u16, dataId: u32, body: seq<byte>, t: Tick)
    requires st.sod.Shaped() && c.constants(st.sod, dataId, body).None? && IsSignedObject(dataId)
    ensures var x := RpkClient.Exchange(HostOf(c), RpkRuns.State(st.challenge, st.sod), client, dataId, body,
                                        RpkClient.Env(t.nonce, Delivered));
            var r := Serve(c, st, Incoming(client, dataId, body), t);
            && r.0 == State(x.0.app, x.0.challenge)
            && x.1.Some? && r.1 == S.DispatchReply(x.1.value.status, x.1.value.data)
            && |r.1.data| <= Asym.RPK_VALUE_MAX + Asym.SIG_SIZE
  {
    SignedReplyFits(HostOf(c), st.challenge, st.sod, SignedRequest(Incoming(client, dataId, body), t));
    hide Dispatch, HostOf, Rpk.HandleRead, Rpk.HandleWrite, Rpk.HandleCommand;
  }

  /* ---- The device never leaves a request unanswered ---- */

  /** The constant objects fit one segmented upload. */
  ghost predicate ConstantsFit(c: Config) {
    forall d, dataId, body :: c.constants(d, dataId, body).Some? ==> |c.constants(d, dataId, body).value.data| <= Usdo.SEG_BODY_MAX
  }

  /** Whatever object is asked for, the reply can travel. */
  lemma ReplyFits(c: Config, st: State, q: Incoming, t: Tick)
    requires st.sod.Shaped() && ConstantsFit(c)
    ensures |Serve(c, st, q, t).1.data| <= Usdo.SEG_BODY_MAX
  {
    hide Dispatch, Rpk.Try;
    SignedReplyFits(HostOf(c), st.challenge, st.sod, SignedRequest(q, t));
    RepliesAreWellFormed(PortOf(c), st.sod, q.dataId, SodRequest(q, t));
  }

  /**
   * Whatever frames the whole device has received before: the next request
   * addressed to it gets exactly one message back, to its sender and under
   * its session.
   */
  lemma DeviceAlwaysAnswers(c: Config, ticks: nat -> Tick, start: S.Carrier<Live>, frames: seq<F.Frame>, f: F.Frame)
    requires S.CarrierOk(start) && ConstantsFit(c)
    requires S.ForUs(start, f) && Usdo.CmdIsRequest(Usdo.Decode(f).pdu.cmd) && Usdo.Decode(f).pdu.session != 0
    ensures var s, pdu := DispatcherOf(c, ticks), Usdo.Decode(f).pdu;
            var r := S.HandleFrame(s, Q.RunFrames(s, start, frames), f);
            r.out.Some? && r.out.value.src == start.node && r.out.value.dst == pdu.src && r.out.value.session == pdu.session
  {
    hide Serve, Usdo.Decode, S.HandleFrame, Q.DispatchOf, Q.RunFrames;
    var s, pdu := DispatcherOf(c, ticks), Usdo.Decode(f).pdu;
    var before := Q.RunFrames(s, start, frames);
    Q.OneAnswerPerFrame(s, before, f);
    var call := Q.DispatchOf(before, pdu);
    if call.Some? && before.app.state.sod.Shaped() {
      ReplyFits(c, before.app.state, Incoming(call.value.src, call.value.dataId, call.value.body), ticks(before.app.n));
    }
  }

  /** The client, the bus and the device behind it. */
  ghost predicate Wired(c: Config, ticks: nat -> Tick, bus: T.Bus<Live>, cl: T.Client<Live>, me: byte, device: u16): (ok: bool)
    ensures ok ==> S.CarrierOk(cl.wire.carrier) && cl.wire.carrier.app.state.sod.Shaped()
  {
    && bus.dispatcher == DispatcherOf(c, ticks) && S.CarrierOk(cl.wire.carrier) && Usdo.NodeOk(me)
    && cl.wire.carrier.node == device % 0x100 && T.Fair(bus, cl.wire, me) && cl.wire.carrier.app.state.sod.Shaped()
  }

  predicate Transferable(dataId: u32) { dataId % 0x100 == 0 && Usdo.IndexOk(T.IndexOf(dataId)) }

  /** All of it ready for a transfer to a secure object. */
  ghost predicate Connected(c: Config, ticks: nat -> Tick, bus: T.Bus<Live>, cl: T.Client<Live>, me: byte, device: u16, dataId: u32): (ok: bool)
    ensures ok ==> S.CarrierOk(cl.wire.carrier) && cl.wire.carrier.app.state.sod.Shaped()
  {
    Wired(c, ticks, bus, cl, me, device) && Transferable(dataId) && IsSecureObject(c, dataId)
  }

  /** A transport read of any object is one service of the device. */
  lemma ReadIsServed(c: Config, ticks: nat -> Tick, bus: T.Bus<Live>, cl: T.Client<Live>, me: byte, device: u16, dataId: u32,
                     body: seq<byte>, bufSize: nat)
    requires Wired(c, ticks, bus, cl, me, device) && Transferable(dataId) && |body| <= Usdo.DATA_MAX
    ensures var live := cl.wire.carrier.app;
            var r := T.TransportRead(bus, cl, me, device, dataId, body, bufSize);
            var served := Serve(c, live.state, Incoming(me, dataId, body), ticks(live.n));
            && r.1 == R.DirectRead(served.1, bufSize) && r.0.wire.carrier.app == Live(served.0, live.n + 1)
            && Wired(c, ticks, bus, r.0, me, device)
  {
    hide T.TransportRead, Serve;
    R.ReadRefinesDispatch(bus, cl, me, device, dataId, body, bufSize);
    R.FairStays(bus, cl.wire, T.TransportRead(bus, cl, me, device, dataId, body, bufSize).0.wire, me);
  }

  lemma WriteIsServed(c: Config, ticks: nat -> Tick, bus: T.Bus<Live>, cl: T.Client<Live>, me: byte, device: u16, dataId: u32,
                      body: seq<byte>)
    requires Wired(c, ticks, bus, cl, me, device) && Transferable(dataId) && |body| <= Usdo.SEG_BODY_MAX
    ensures var live := cl.wire.carrier.app;
            var r := T.TransportWrite(bus, cl, me, device, dataId, body);
            var served := Serve(c, live.state, Incoming(me, dataId, body), ticks(live.n));
            && r.1 == R.DirectWrite(served.1) && r.0.wire.carrier.app == Live(served.0, live.n + 1)
            && Wired(c, ticks, bus, r.0, me, device)
  {
    hide T.TransportWrite, Serve;
    R.WriteRefinesDispatch(bus, cl, me, device, dataId, body);
    R.FairStays(bus, cl.wire, T.TransportWrite(bus, cl, me, device, dataId, body).0.wire, me);
  }

  /** A transport read of the tunnel, over the carrier: answer and device state are those of the direct exchange. */
  lemma ReadOverCarrier(c: Config, ticks: nat -> Tick, bus: T.Bus<Live>, cl: T.Client<Live>, me: byte, device: u16, dataId: u32,
                        body: seq<byte>, bufSize: nat)
    requires Connected(c, ticks, bus, cl, me, device, dataId) && |body| <= Usdo.DATA_MAX
    ensures var live := cl.wire.carrier.app;
            var r := T.TransportRead(bus, cl, me, device, dataId, body, bufSize);
            var x := Exchange(PortOf(c), live.state.sod, me, dataId, body, EnvOf(ticks(live.n)));
            && r.1 == ReadAnswer(x.reply, bufSize)
            && r.0.wire.carrier.app == Live(live.state.(sod := x.sod), live.n + 1)
            && Connected(c, ticks, bus, r.0, me, device, dataId)
  {
    hide T.TransportRead, Exchange, Serve, Wired, IsSecureObject, DispatcherOf;
    var live := cl.wire.carrier.app;
    ReadIsServed(c, ticks, bus, cl, me, device, dataId, body, bufSize);
    ServeIsExchange(c, live.state, me, dataId, body, ticks(live.n));
  }

  lemma WriteOverCarrier(c: Config, ticks: nat -> Tick, bus: T.Bus<Live>, cl: T.Client<Live>, me: byte, device: u16, dataId: u32,
                         body: seq<byte>)
    requires Connected(c, ticks, bus, cl, me, device, dataId) && |body| <= Usdo.SEG_BODY_MAX
    ensures var live := cl.wire.carrier.app;
            var r := T.TransportWrite(bus, cl, me, device, dataId, body);
            var x := Exchange(PortOf(c), live.state.sod, me, dataId, body, EnvOf(ticks(live.n)));
            && r.1 == WriteAnswer(x.reply)
            && r.0.wire.carrier.app == Live(live.state.(sod := x.sod), live.n + 1)
            && Connected(c, ticks, bus, r.0, me, device, dataId)
  {
    hide T.TransportWrite, Exchange, Serve, Wired, IsSecureObject, DispatcherOf;
    var live := cl.wire.carrier.app;
    WriteIsServed(c, ticks, bus, cl, me, device, dataId, body);
    ServeIsExchange(c, live.state, me, dataId, body, ticks(live.n));
  }

  /* ---- The client's accesses over the bus ---- */

  /** An access as the client performs it with the transport: what `Access` is to direct exchanges. */
  datatype OnBus = OnBus(cl: T.Client<Live>, status: Status, plain: seq<byte>, base: Nonce)

  function BusFailed(cl: T.Client<Live>, status: Status): OnBus { OnBus(cl, status, [], Zeros(NONCE_SIZE)) }

  function Conclude(cl: T.Client<Live>, r: (Status, seq<byte>, Nonce)): OnBus { OnBus(cl, r.0, r.1, r.2) }

  /** What the client makes of its second exchange: status, plaintext and nonce base. */
  function ReadConclusion(g: Gcm, call: Call, bufSize: nat, random: Nonce, answer: Answer): (Status, seq<byte>, Nonce) {
    if answer.Failed? then (answer.status, [], Zeros(NONCE_SIZE))
    else
      var view := OpenResponse(g, call, bufSize, random, answer.data);
      if view.0 != SecOk then (view.0, [], Zeros(NONCE_SIZE)) else (SecOk, view.1, XorSeq(random, answer.data[..12]))
  }

  lemma ReadFlowConcludes<A>(p: Port<A>, d: Sod<A>, call: Call, bufSize: nat, random: Nonce, e1: Env, e2: Env)
    requires d.Shaped() && KeyIdUsable(call.keyId)
    ensures var flow := ReadFlow(p, d, call, bufSize, Some(random), e1, e2);
            var x := Exchange(p, d, call.client, call.dataId, [call.keyId] + random, e1);
            if WriteAnswer(x.reply) != SecOk then
              flow == AccessFailed(x.sod, WriteAnswer(x.reply), x.commit)
            else
              var y := Exchange(p, x.sod, call.client, call.dataId, [], e2);
              var r := ReadConclusion(p.gcm, call, bufSize, random, ReadAnswer(y.reply, RESPONSE_MAX));
              flow == Access(y.sod, r.0, r.1, r.2, None)
  {
    hide Exchange, OpenResponse, WriteAnswer, ReadAnswer, XorSeq;
  }

  /** Why a write ends after its first exchange. */
  function Unready(answer: Answer, random: Option<Nonce>): (r: Option<Status>)
    ensures answer != Failed(SecOk) ==> r != Some(SecOk)
    ensures r.None? ==> answer.Got? && |answer.data| == RAND_SIZE && random.Some?
  {
    if answer.Failed? then Some(answer.status)
    else if |answer.data| != RAND_SIZE then Some(Protocol)
    else if random.None? then Some(RandomFail)
    else None
  }

  lemma WriteFlowConcludes<A>(p: Port<A>, d: Sod<A>, call: Call, plain: seq<byte>, random: Option<Nonce>, e1: Env, e2: Env)
    requires d.Shaped() && KeyIdUsable(call.keyId) && 0 < |plain| <= MAX_PROTECTED
    ensures var flow := WriteFlow(p, d, call, plain, random, e1, e2);
            var x := Exchange(p, d, call.client, call.dataId, [], e1);
            var answer := ReadAnswer(x.reply, RAND_SIZE);
            var unready := Unready(answer, random);
            if unready.Some? then
              flow == AccessFailed(x.sod, unready.value, x.commit)
            else
              var y := Exchange(p, x.sod, call.client, call.dataId, PassTwoFrame(p.gcm, call, random.value, answer.data, plain), e2);
              flow == Access(y.sod, WriteAnswer(y.reply), [], XorSeq(random.value, answer.data), y.commit)
  {
    hide Exchange, PassTwoFrame, WriteAnswer, ReadAnswer, XorSeq;
  }

  function ReadOnBus(g: Gcm, bus: T.Bus<Live>, cl: T.Client<Live>, me: byte, call: Call, bufSize: nat, random: Option<Nonce>): (r: OnBus)
    requires S.CarrierOk(cl.wire.carrier)
    ensures S.CarrierOk(r.cl.wire.carrier)
  {
    if !KeyIdUsable(call.keyId) then BusFailed(cl, Protocol)
    else if random.None? then BusFailed(cl, RandomFail)
    else
      var first := T.TransportWrite(bus, cl, me, call.device, call.dataId, [call.keyId] + random.value);
      if first.1 != SecOk then BusFailed(first.0, first.1)
      else
        var second := T.TransportRead(bus, first.0, me, call.device, call.dataId, [], RESPONSE_MAX);
        Conclude(second.0, ReadConclusion(g, call, bufSize, random.value, second.1))
  }

  function WriteOnBus(g: Gcm, bus: T.Bus<Live>, cl: T.Client<Live>, me: byte, call: Call, plain: seq<byte>, random: Option<Nonce>): (r: OnBus)
    requires S.CarrierOk(cl.wire.carrier)
    ensures S.CarrierOk(r.cl.wire.carrier)
  {
    if !KeyIdUsable(call.keyId) then BusFailed(cl, Protocol)
    else if |plain| == 0 || |plain| > MAX_PROTECTED then BusFailed(cl, BufSize)
    else
      var first := T.TransportRead(bus, cl, me, call.device, call.dataId, [], RAND_SIZE);
      if Unready(first.1, random).Some? then BusFailed(first.0, Unready(first.1, random).value)
      else
        var frame := PassTwoFrame(g, call, random.value, first.1.data, plain);
        var second := T.TransportWrite(bus, first.0, me, call.device, call.dataId, frame);
        OnBus(second.0, second.1, [], XorSeq(random.value, first.1.data))
  }

  /** Both ends after an access over the bus are as after the access `r` by direct exchanges, two ticks later if it succeeded. */
  ghost predicate SameAccess(c: Config, ticks: nat -> Tick, bus: T.Bus<Live>, live: Live, me: byte, call: Call, b: OnBus, r: Access<App>) {
    var after := b.cl.wire.carrier.app;
    && b.status == r.status && b.plain == r.plain && b.base == r.base && after.state == live.state.(sod := r.sod)
    && Connected(c, ticks, bus, b.cl, me, call.device, call.dataId)
    && (r.status == SecOk ==> after.n == live.n + 2)
  }

  /** A whole secure read over the bus, armed or not, whatever its outcome: the tunnel's flow. */
  lemma SecureReadOverBus(c: Config, ticks: nat -> Tick, bus: T.Bus<Live>, cl: T.Client<Live>, me: byte, call: Call,
                          bufSize: nat, random: Option<Nonce>)
    requires Connected(c, ticks, bus, cl, me, call.device, call.dataId) && call.client == me
    ensures var live := cl.wire.carrier.app;
            SameAccess(c, ticks, bus, live, me, call, ReadOnBus(c.gcm, bus, cl, me, call, bufSize, random),
                       ReadFlow(PortOf(c), live.state.sod, call, bufSize, random, EnvOf(ticks(live.n)), EnvOf(ticks(live.n + 1))))
  {
    PortHasGcm(c);
    hide T.TransportWrite, T.TransportRead, Exchange, Connected, ReadConclusion, WriteAnswer, ReadAnswer,
         DispatcherOf, PortOf, T.Fair, S.CarrierOk, KeyIdUsable, IsSecureObject;
    var live := cl.wire.carrier.app;
    if !KeyIdUsable(call.keyId) || random.None? {
      return;
    }
    ReadFlowConcludes(PortOf(c), live.state.sod, call, bufSize, random.value, EnvOf(ticks(live.n)), EnvOf(ticks(live.n + 1)));
    hide ReadFlow;
    WriteOverCarrier(c, ticks, bus, cl, me, call.device, call.dataId, [call.keyId] + random.value);
    var first := T.TransportWrite(bus, cl, me, call.device, call.dataId, [call.keyId] + random.value);
    if first.1 == SecOk {
      ReadOverCarrier(c, ticks, bus, first.0, me, call.device, call.dataId, [], RESPONSE_MAX);
    }
  }

  /** A whole secure write likewise; its Pass-2 frame may well travel in segments. */
  lemma SecureWriteOverBus(c: Config, ticks: nat -> Tick, bus: T.Bus<Live>, cl: T.Client<Live>, me: byte, call: Call,
                           plain: seq<byte>, random: Option<Nonce>)
    requires Connected(c, ticks, bus, cl, me, call.device, call.dataId) && call.client == me
    ensures var live := cl.wire.carrier.app;
            SameAccess(c, ticks, bus, live, me, call, WriteOnBus(c.gcm, bus, cl, me, call, plain, random),
                       WriteFlow(PortOf(c), live.state.sod, call, plain, random, EnvOf(ticks(live.n)), EnvOf(ticks(live.n + 1))))
  {
    PortHasGcm(c);
    hide T.TransportWrite, T.TransportRead, Exchange, Connected, PassTwoFrame, WriteAnswer, ReadAnswer,
         DispatcherOf, PortOf, T.Fair, S.CarrierOk, KeyIdUsable, IsSecureObject, XorSeq;
    var live := cl.wire.carrier.app;
    if !KeyIdUsable(call.keyId) || !(0 < |plain| <= MAX_PROTECTED) {
      return;
    }
    WriteFlowConcludes(PortOf(c), live.state.sod, call, plain, random, EnvOf(ticks(live.n)), EnvOf(ticks(live.n + 1)));
    hide WriteFlow, Unready;
    ReadOverCarrier(c, ticks, bus, cl, me, call.device, call.dataId, [], RAND_SIZE);
    var first := T.TransportRead(bus, cl, me, call.device, call.dataId, [], RAND_SIZE);
    if Unready(first.1, random).None? {
      WriteOverCarrier(c, ticks, bus, first.0, me, call.device, call.dataId, PassTwoFrame(c.gcm, call, random.value, first.1.data, plain));
    }
  }

  lemma PortHasGcm(c: Config)
    ensures PortOf(c).gcm == c.gcm
  {
  }
}
