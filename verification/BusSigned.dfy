/**
 * Signed reads, writes and commands over the noisy bus: each ends as by direct
 * exchanges with the device, whatever its outcome.
 */
module BusSigned {
  import opened Bytes
  import opened Aborts
  import opened Asym
  import opened Channel
  import opened SecureOd
  import SecureProto
  import Usdo
  import S = ServerCarrier
  import T = ClientCarrier
  import C = Commissioning
  import Rpk
  import RpkRuns
  import K = RpkClient
  import opened DeviceModel
  import opened Stack

  /* ---- The client's side ---- */

  /** What `FetchChallenge` is to direct exchanges. */
  function FetchOnBus(bus: T.Bus<Live>, cl: T.Client<Live>, me: byte, device: u16, objectId: u32, header: seq<byte>)
    : (r: (T.Client<Live>, nat, seq<byte>))
    requires S.CarrierOk(cl.wire.carrier)
    ensures S.CarrierOk(r.0.wire.carrier) && (r.1 == 0 ==> |r.2| == RPK_NONCE_LEN)
  {
    var t := T.TransportRead(bus, cl, me, device, objectId, header, RPK_NONCE_LEN);
    if t.1.Failed? then (t.0, 2, []) else if |t.1.data| != RPK_NONCE_LEN then (t.0, 3, []) else (t.0, 0, t.1.data)
  }

  /** What `Outcome` is to direct exchanges. */
  datatype BusOutcome = BusOutcome(cl: T.Client<Live>, code: nat, value: seq<byte>)

  /** What the client makes of the device's signed answer. */
  function ReadVerdict(s: Scheme, t: K.Target, idevid: PubKey, bufSize: nat, random: Rand16, nonce: Rand16, reply: seq<byte>): (nat, seq<byte>)
    requires |reply| <= RPK_VALUE_MAX + SIG_SIZE
  {
    if |reply| < SIG_SIZE || |reply| - SIG_SIZE > bufSize then (3, [])
    else
      var n := |reply| - SIG_SIZE;
      var access := Access(t.device, t.client, K.MuxOf(t), random, nonce, reply[..n]);
      if !s.verify(idevid, AccessTranscript(RD_GENERIC_READ, access), reply[n..]) then (5, []) else (0, reply[..n])
  }

  function SignedReadOnBus(s: Scheme, bus: T.Bus<Live>, cl: T.Client<Live>, me: byte, t: K.Target, idevid: PubKey, bufSize: nat,
                           random: Option<Rand16>): BusOutcome
    requires S.CarrierOk(cl.wire.carrier)
  {
    var first := FetchOnBus(bus, cl, me, t.device, Rpk.GENERIC_READ_ID, K.Header(t));
    if first.1 != 0 then BusOutcome(first.0, first.1, [])
    else if random.None? then BusOutcome(first.0, 1, [])
    else
      var second := T.TransportRead(bus, first.0, me, t.device, Rpk.GENERIC_READ_ID, K.Header(t) + random.value, RPK_VALUE_MAX + SIG_SIZE);
      if second.1.Failed? || |second.1.data| > RPK_VALUE_MAX + SIG_SIZE then BusOutcome(second.0, 2, [])
      else
        var v := ReadVerdict(s, t, idevid, bufSize, random.value, first.2, second.1.data);
        BusOutcome(second.0, v.0, v.1)
  }

  function SignedWriteOnBus(s: Scheme, bus: T.Bus<Live>, cl: T.Client<Live>, me: byte, t: K.Target, signer: Seed, value: seq<byte>,
                            random: Option<Rand16>): BusOutcome
    requires S.CarrierOk(cl.wire.carrier)
  {
    if |value| > RPK_VALUE_MAX then BusOutcome(cl, 1, [])
    else
      var first := FetchOnBus(bus, cl, me, t.device, Rpk.GENERIC_WRITE_ID, K.Header(t));
      if first.1 != 0 then BusOutcome(first.0, first.1, [])
      else if random.None? then BusOutcome(first.0, 1, [])
      else
        var payload := K.WritePayload(s, t, signer, value, random.value, first.2);
        var second := T.TransportWrite(bus, first.0, me, t.device, Rpk.GENERIC_WRITE_ID, payload);
        BusOutcome(second.0, SentCode(second.1 == SecureProto.SecOk), [])
  }

  function CommandOnBus(s: Scheme, bus: T.Bus<Live>, cl: T.Client<Live>, me: byte, t: K.Target, signer: Seed, code: u32,
                        random: Option<Rand16>): BusOutcome
    requires S.CarrierOk(cl.wire.carrier)
  {
    var first := FetchOnBus(bus, cl, me, t.device, Rpk.FUNCCMD_ID, []);
    if first.1 != 0 then BusOutcome(first.0, first.1, [])
    else if random.None? then BusOutcome(first.0, 1, [])
    else
      var payload := K.CommandPayload(s, t, signer, code, random.value, first.2);
      var second := T.TransportWrite(bus, first.0, me, t.device, Rpk.FUNCCMD_ID, payload);
      BusOutcome(second.0, SentCode(second.1 == SecureProto.SecOk), [])
  }

  /* ---- Exchanges ---- */

  function SignedEnv(t: Tick): K.Env { K.Env(t.nonce, Delivered) }

  /** The device as signed access sees it. */
  function Signable(st: State): RpkRuns.State<Sod<App>> { RpkRuns.State(st.challenge, st.sod) }

  /** The device behind the bus, with no constant object in place of this signed one. */
  ghost predicate SignedWired(c: Config, ticks: nat -> Tick, bus: T.Bus<Live>, cl: T.Client<Live>, me: byte, device: u16, objectId: u32): (ok: bool)
    ensures ok ==> S.CarrierOk(cl.wire.carrier) && cl.wire.carrier.app.state.sod.Shaped() && IsSignedObject(objectId)
  {
    Wired(c, ticks, bus, cl, me, device) && IsSignedObject(objectId) && forall d, body :: c.constants(d, objectId, body).None?
  }

  lemma AskOverCarrier(c: Config, ticks: nat -> Tick, bus: T.Bus<Live>, cl: T.Client<Live>, me: byte, device: u16, objectId: u32,
                       body: seq<byte>, max: nat)
    requires SignedWired(c, ticks, bus, cl, me, device, objectId) && |body| <= Usdo.DATA_MAX
    ensures var live := cl.wire.carrier.app;
            var r := T.TransportRead(bus, cl, me, device, objectId, body, max);
            var x := K.Exchange(HostOf(c), Signable(live.state), me, objectId, body, SignedEnv(ticks(live.n)));
            && r.1.Got? == K.ReadOk(x.1, max) && (r.1.Got? ==> r.1.data == x.1.value.data)
            && r.0.wire.carrier.app == Live(State(x.0.app, x.0.challenge), live.n + 1)
            && SignedWired(c, ticks, bus, r.0, me, device, objectId)
  {
    hide T.TransportRead, K.Exchange, Serve, HostOf, Wired;
    var live := cl.wire.carrier.app;
    ReadIsServed(c, ticks, bus, cl, me, device, objectId, body, max);
    ServeIsSignedStep(c, live.state, me, objectId, body, ticks(live.n));
  }

  lemma SendOverCarrier(c: Config, ticks: nat -> Tick, bus: T.Bus<Live>, cl: T.Client<Live>, me: byte, device: u16, objectId: u32,
                        body: seq<byte>)
    requires SignedWired(c, ticks, bus, cl, me, device, objectId) && |body| <= Usdo.SEG_BODY_MAX
    ensures var live := cl.wire.carrier.app;
            var r := T.TransportWrite(bus, cl, me, device, objectId, body);
            var x := K.Exchange(HostOf(c), Signable(live.state), me, objectId, body, SignedEnv(ticks(live.n)));
            && (r.1 == SecureProto.SecOk) == K.ReadOk(x.1, Usdo.DATA_MAX)
            && r.0.wire.carrier.app == Live(State(x.0.app, x.0.challenge), live.n + 1)
            && SignedWired(c, ticks, bus, r.0, me, device, objectId)
  {
    hide T.TransportWrite, K.Exchange, Serve, HostOf, Wired;
    var live := cl.wire.carrier.app;
    WriteIsServed(c, ticks, bus, cl, me, device, objectId, body);
    ServeIsSignedStep(c, live.state, me, objectId, body, ticks(live.n));
  }

  lemma FetchOverBus(c: Config, ticks: nat -> Tick, bus: T.Bus<Live>, cl: T.Client<Live>, me: byte, device: u16, objectId: u32,
                     header: seq<byte>)
    requires SignedWired(c, ticks, bus, cl, me, device, objectId) && |header| <= Usdo.DATA_MAX
    ensures var live := cl.wire.carrier.app;
            var b := FetchOnBus(bus, cl, me, device, objectId, header);
            var r := K.FetchChallenge(HostOf(c), Signable(live.state), me, objectId, header, SignedEnv(ticks(live.n)));
            && b.0.wire.carrier.app == Live(State(r.0.app, r.0.challenge), live.n + 1) && b.1 == r.1 && b.2 == r.2
            && SignedWired(c, ticks, bus, b.0, me, device, objectId)
  {
    hide SignedWired, T.TransportRead, K.Exchange, HostOf, S.CarrierOk;
    AskOverCarrier(c, ticks, bus, cl, me, device, objectId, header, RPK_NONCE_LEN);
  }

  /* ---- Whole accesses ---- */

  /** Code and value are those of direct exchanges, and so is the device. */
  ghost predicate SameOutcome(b: BusOutcome, r: K.Outcome<Sod<App>>) {
    b.code == r.code && b.value == r.value && Signable(b.cl.wire.carrier.app.state) == r.state
  }

  lemma HostHasScheme(c: Config)
    ensures HostOf(c).scheme == c.origin.scheme
  {
  }

  function SentCode(ok: bool): nat { if ok then 0 else 2 }

  /** Why an access ends after its first exchange. */
  function EarlyCode(fetched: nat): nat { if fetched != 0 then fetched else 1 }

  lemma ReadConcludes<A>(h: Rpk.Host<A>, st: RpkRuns.State<A>, t: K.Target, idevid: PubKey, bufSize: nat, random: Option<Rand16>,
                         e1: K.Env, e2: K.Env)
    ensures var c := K.FetchChallenge(h, st, t.client, Rpk.GENERIC_READ_ID, K.Header(t), e1);
            var r := K.SignedRead(h, st, t, idevid, bufSize, random, e1, e2);
            if c.1 != 0 || random.None? then r == K.Outcome(c.0, EarlyCode(c.1), [])
            else
              var x := K.Exchange(h, c.0, t.client, Rpk.GENERIC_READ_ID, K.Header(t) + random.value, e2);
              if !K.ReadOk(x.1, RPK_VALUE_MAX + SIG_SIZE) then r == K.Outcome(x.0, 2, [])
              else
                var v := ReadVerdict(h.scheme, t, idevid, bufSize, random.value, c.2, x.1.value.data);
                r == K.Outcome(x.0, v.0, v.1)
  {
    hide K.Exchange, K.FetchChallenge, K.Header, AccessTranscript;
  }

  lemma WriteConcludes<A>(h: Rpk.Host<A>, st: RpkRuns.State<A>, t: K.Target, signer: Seed, value: seq<byte>, random: Option<Rand16>,
                          e1: K.Env, e2: K.Env)
    requires |value| <= RPK_VALUE_MAX
    ensures var c := K.FetchChallenge(h, st, t.client, Rpk.GENERIC_WRITE_ID, K.Header(t), e1);
            var r := K.SignedWrite(h, st, t, signer, value, random, e1, e2);
            if c.1 != 0 || random.None? then r == K.Outcome(c.0, EarlyCode(c.1), [])
            else
              var payload := K.WritePayload(h.scheme, t, signer, value, random.value, c.2);
              var x := K.Exchange(h, c.0, t.client, Rpk.GENERIC_WRITE_ID, payload, e2);
              r == K.Outcome(x.0, SentCode(K.ReadOk(x.1, Usdo.DATA_MAX)), [])
  {
    hide K.Exchange, K.FetchChallenge, K.Header, K.WritePayload;
  }

  lemma SignedReadOverBus(c: Config, ticks: nat -> Tick, bus: T.Bus<Live>, cl: T.Client<Live>, me: byte, t: K.Target, idevid: PubKey,
                          bufSize: nat, random: Option<Rand16>)
    requires SignedWired(c, ticks, bus, cl, me, t.device, Rpk.GENERIC_READ_ID) && t.client == me
    ensures var live := cl.wire.carrier.app;
            SameOutcome(SignedReadOnBus(c.origin.scheme, bus, cl, me, t, idevid, bufSize, random),
                        K.SignedRead(HostOf(c), Signable(live.state), t, idevid, bufSize, random,
                                     SignedEnv(ticks(live.n)), SignedEnv(ticks(live.n + 1))))
  {
    hide SignedWired, FetchOnBus, T.TransportRead, K.SignedRead, K.Exchange, K.FetchChallenge, HostOf, S.CarrierOk, K.Header, SignedEnv,
         ReadVerdict;
    HostHasScheme(c);
    var live := cl.wire.carrier.app;
    ReadConcludes(HostOf(c), Signable(live.state), t, idevid, bufSize, random, SignedEnv(ticks(live.n)), SignedEnv(ticks(live.n + 1)));
    FetchOverBus(c, ticks, bus, cl, me, t.device, Rpk.GENERIC_READ_ID, K.Header(t));
    var first := FetchOnBus(bus, cl, me, t.device, Rpk.GENERIC_READ_ID, K.Header(t));
    if first.1 == 0 && random.Some? {
      AskOverCarrier(c, ticks, bus, first.0, me, t.device, Rpk.GENERIC_READ_ID, K.Header(t) + random.value, RPK_VALUE_MAX + SIG_SIZE);
    }
  }

  lemma SignedWriteOverBus(c: Config, ticks: nat -> Tick, bus: T.Bus<Live>, cl: T.Client<Live>, me: byte, t: K.Target, signer: Seed,
                           value: seq<byte>, random: Option<Rand16>)
    requires SignedWired(c, ticks, bus, cl, me, t.device, Rpk.GENERIC_WRITE_ID) && t.client == me
    ensures var live := cl.wire.carrier.app;
            SameOutcome(SignedWriteOnBus(c.origin.scheme, bus, cl, me, t, signer, value, random),
                        K.SignedWrite(HostOf(c), Signable(live.state), t, signer, value, random,
                                      SignedEnv(ticks(live.n)), SignedEnv(ticks(live.n + 1))))
  {
    hide SignedWired, FetchOnBus, T.TransportWrite, K.Exchange, K.FetchChallenge, K.WritePayload, HostOf, S.CarrierOk, K.ReadOk, K.Header, SignedEnv;
    HostHasScheme(c);
    if |value| > RPK_VALUE_MAX {
      return;
    }
    hide K.SignedWrite;
    var live := cl.wire.carrier.app;
    WriteConcludes(HostOf(c), Signable(live.state), t, signer, value, random, SignedEnv(ticks(live.n)), SignedEnv(ticks(live.n + 1)));
    FetchOverBus(c, ticks, bus, cl, me, t.device, Rpk.GENERIC_WRITE_ID, K.Header(t));
    var first := FetchOnBus(bus, cl, me, t.device, Rpk.GENERIC_WRITE_ID, K.Header(t));
    if first.1 == 0 && random.Some? {
      SendOverCarrier(c, ticks, bus, first.0, me, t.device, Rpk.GENERIC_WRITE_ID,
                      K.WritePayload(c.origin.scheme, t, signer, value, random.value, first.2));
    }
  }

  lemma CommandOverBus(c: Config, ticks: nat -> Tick, bus: T.Bus<Live>, cl: T.Client<Live>, me: byte, t: K.Target, signer: Seed,
                       code: u32, random: Option<Rand16>)
    requires SignedWired(c, ticks, bus, cl, me, t.device, Rpk.FUNCCMD_ID) && t.client == me
    ensures var live := cl.wire.carrier.app;
            SameOutcome(CommandOnBus(c.origin.scheme, bus, cl, me, t, signer, code, random),
                        K.SendCommand(HostOf(c), Signable(live.state), t, signer, code, random,
                                      SignedEnv(ticks(live.n)), SignedEnv(ticks(live.n + 1))))
  {
    hide SignedWired, FetchOnBus, T.TransportWrite, K.Exchange, K.FetchChallenge, K.CommandPayload, HostOf, S.CarrierOk, K.ReadOk, SignedEnv;
    HostHasScheme(c);
    FetchOverBus(c, ticks, bus, cl, me, t.device, Rpk.FUNCCMD_ID, []);
    var first := FetchOnBus(bus, cl, me, t.device, Rpk.FUNCCMD_ID, []);
    if first.1 == 0 && random.Some? {
      SendOverCarrier(c, ticks, bus, first.0, me, t.device, Rpk.FUNCCMD_ID,
                      K.CommandPayload(c.origin.scheme, t, signer, code, random.value, first.2));
    }
  }

  /* ---- When they succeed ---- */

  /** A ready signed write over the bus: the host then got exactly the value for exactly the target, and the challenge is gone. */
  lemma SignedWriteArrives(c: Config, ticks: nat -> Tick, bus: T.Bus<Live>, cl: T.Client<Live>, me: byte, t: K.Target, signer: Seed,
                           value: seq<byte>, random: Option<Rand16>)
    requires SignedWired(c, ticks, bus, cl, me, t.device, Rpk.GENERIC_WRITE_ID) && t.client == me && Correct(c.origin.scheme)
    requires var live := cl.wire.carrier.app; SignedWriteReady(c, live.state, t, signer, value, random, ticks(live.n))
    ensures var st := cl.wire.carrier.app.state;
            var b := SignedWriteOnBus(c.origin.scheme, bus, cl, me, t, signer, value, random);
            var after := b.cl.wire.carrier.app.state;
            b.code == 0 && after.sod == SignedWrite(st.sod, K.MuxOf(t), value).app && !after.challenge.armed
  {
    hide SignedWired, SignedWriteOnBus, K.SignedWrite, HostOf, SignedEnv, Correct, SignedWriteReady, SignedWrite, K.MuxOf;
    var live := cl.wire.carrier.app;
    SignedWriteOverBus(c, ticks, bus, cl, me, t, signer, value, random);
    ReadyWriteSucceeds(c, live.state, t, signer, value, random, ticks(live.n), ticks(live.n + 1));
  }

  /** What a signed write needs: the right device and signer, two nonces, and a host that takes the value. */
  predicate SignedWriteReady(c: Config, st: State, t: K.Target, signer: Seed, value: seq<byte>, random: Option<Rand16>, t1: Tick) {
    && |value| <= RPK_VALUE_MAX && random.Some? && t1.nonce.Some?
    && t.device == c.deviceId && c.peer == Some(c.origin.scheme.public(signer))
    && SignedWrite(st.sod, K.MuxOf(t), value).abort == NO_ABORT
  }

  lemma ReadyWriteSucceeds(c: Config, st: State, t: K.Target, signer: Seed, value: seq<byte>, random: Option<Rand16>, t1: Tick, t2: Tick)
    requires Correct(c.origin.scheme) && SignedWriteReady(c, st, t, signer, value, random, t1)
    ensures var r := K.SignedWrite(HostOf(c), Signable(st), t, signer, value, random, SignedEnv(t1), SignedEnv(t2));
            r.code == 0 && r.state.app == SignedWrite(st.sod, K.MuxOf(t), value).app && !r.state.challenge.armed
  {
    hide K.SignedWrite, K.Spoken, K.Confused, Correct, SignedWrite;
    assert K.WriteReady(HostOf(c), Signable(st), t, signer, value, random, SignedEnv(t1), SignedEnv(t2));
    K.SignedWriteCorrect(HostOf(c), Signable(st), t, signer, value, random, SignedEnv(t1), SignedEnv(t2));
  }

  /** A ready signed read over the bus returns the host's value. */
  lemma SignedReadArrives(c: Config, ticks: nat -> Tick, bus: T.Bus<Live>, cl: T.Client<Live>, me: byte, t: K.Target, bufSize: nat,
                          random: Rand16)
    requires SignedWired(c, ticks, bus, cl, me, t.device, Rpk.GENERIC_READ_ID) && t.client == me && Correct(c.origin.scheme)
    requires var live := cl.wire.carrier.app; ticks(live.n).nonce.Some? && SignedReadReady(c, live.state, t, bufSize)
    ensures var live := cl.wire.carrier.app;
            var b := SignedReadOnBus(c.origin.scheme, bus, cl, me, t, c.origin.scheme.public(c.identity), bufSize, Some(random));
            b.code == 0 && b.value == SignedRead(live.state.sod, K.MuxOf(t)).value
  {
    hide SignedWired, SignedReadOnBus, K.SignedRead, HostOf, SignedEnv, Correct, SignedReadReady, SignedRead, K.MuxOf;
    var live := cl.wire.carrier.app;
    SignedReadOverBus(c, ticks, bus, cl, me, t, c.origin.scheme.public(c.identity), bufSize, Some(random));
    ReadyReadSucceeds(c, live.state, t, bufSize, random, ticks(live.n), ticks(live.n + 1));
  }

  /** What a signed read needs of the device: it is the one meant, and supplies a value that fits. */
  predicate SignedReadReady(c: Config, st: State, t: K.Target, bufSize: nat) {
    var rd := SignedRead(st.sod, K.MuxOf(t));
    t.device == c.deviceId && rd.abort == NO_ABORT && |rd.value| <= RPK_VALUE_MAX && |rd.value| <= bufSize
  }

  lemma ReadyReadSucceeds(c: Config, st: State, t: K.Target, bufSize: nat, random: Rand16, t1: Tick, t2: Tick)
    requires Correct(c.origin.scheme) && t1.nonce.Some? && SignedReadReady(c, st, t, bufSize)
    ensures var r := K.SignedRead(HostOf(c), Signable(st), t, c.origin.scheme.public(c.identity), bufSize, Some(random),
                                  SignedEnv(t1), SignedEnv(t2));
            r.code == 0 && r.value == SignedRead(st.sod, K.MuxOf(t)).value
  {
    hide K.SignedRead, K.Spoken, K.Confused, Correct, SignedRead;
    var idevid := c.origin.scheme.public(c.identity);
    assert K.ReadReady(HostOf(c), Signable(st), t, idevid, bufSize, Some(random), SignedEnv(t1), SignedEnv(t2));
    K.SignedReadCorrect(HostOf(c), Signable(st), t, idevid, bufSize, Some(random), SignedEnv(t1), SignedEnv(t2));
  }

  /** A ready command over the bus: code 10h resets the device, and no other code changes anything. */
  lemma CommandArrives(c: Config, ticks: nat -> Tick, bus: T.Bus<Live>, cl: T.Client<Live>, me: byte, t: K.Target, signer: Seed,
                       code: u32, random: Rand16)
    requires SignedWired(c, ticks, bus, cl, me, t.device, Rpk.FUNCCMD_ID) && t.client == me && Correct(c.origin.scheme)
    requires var live := cl.wire.carrier.app;
             ticks(live.n).nonce.Some? && t.device == c.deviceId && c.peer == Some(c.origin.scheme.public(signer))
    ensures var before := cl.wire.carrier.app.state.sod;
            var b := CommandOnBus(c.origin.scheme, bus, cl, me, t, signer, code, Some(random));
            var after := b.cl.wire.carrier.app.state.sod;
            && b.code == 0
            && after == (if code == Rpk.CMD_FACTORY_RESTORE then WithCommissioned(before, C.Reset(c.origin, Commissioned(before))) else before)
  {
    hide SignedWired, CommandOnBus, K.SendCommand, HostOf, SignedEnv, Correct, C.Reset, WithCommissioned, Commissioned;
    var live := cl.wire.carrier.app;
    CommandOverBus(c, ticks, bus, cl, me, t, signer, code, Some(random));
    ReadyCommandSucceeds(c, live.state, t, signer, code, random, ticks(live.n), ticks(live.n + 1));
  }

  lemma ReadyCommandSucceeds(c: Config, st: State, t: K.Target, signer: Seed, code: u32, random: Rand16, t1: Tick, t2: Tick)
    requires Correct(c.origin.scheme) && t1.nonce.Some? && t.device == c.deviceId && c.peer == Some(c.origin.scheme.public(signer))
    ensures var r := K.SendCommand(HostOf(c), Signable(st), t, signer, code, Some(random), SignedEnv(t1), SignedEnv(t2));
            && r.code == 0
            && r.state.app == (if code == Rpk.CMD_FACTORY_RESTORE then WithCommissioned(st.sod, C.Reset(c.origin, Commissioned(st.sod)))
                               else st.sod)
  {
    hide K.SendCommand, K.Spoken, K.Confused, Correct, C.Reset;
    assert K.CommandReady(HostOf(c), t, signer, Some(random), SignedEnv(t1), SignedEnv(t2));
    K.SignedCommandCorrect(HostOf(c), Signable(st), t, signer, code, Some(random), SignedEnv(t1), SignedEnv(t2));
  }
}
