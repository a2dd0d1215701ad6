/**
 * Whole sessions over the noisy bus: armed accesses followed by polls,
 * commissioning by claim token, and signed writes, each performed by the client
 * with its transport and each ending as the same session by direct exchanges.
 */
module BusSessions {
  import opened Bytes
  import opened Aead
  import opened SecureOd
  import opened SecureProto
  import opened Tunnel
  import opened PollRuns
  import S = ServerCarrier
  import T = ClientCarrier
  import opened DeviceModel
  import opened Stack

  /* ---- One poll ---- */

  /** What `Poll` is to direct exchanges. */
  datatype BusPoll = BusPoll(cl: T.Client<Live>, sess: Session, status: Status, plain: seq<byte>)

  /** What the client makes of a poll's answer. */
  function PollConclusion(g: Gcm, call: Call, sess: Session, plainMax: nat, answer: Answer): (Status, seq<byte>)
    requires sess.counter < KEY_USE_LIMIT
  {
    if answer.Failed? then (answer.status, [])
    else
      var view := OpenPollReply(g, call, sess, sess.counter + 1, plainMax, answer.data);
      (view.0, if view.0 == SecOk then view.1 else [])
  }

  function Advanced(sess: Session, status: Status): Session
    requires sess.counter < KEY_USE_LIMIT
  {
    if status == SecOk then sess.(counter := sess.counter + 1) else sess
  }

  function ReadPollOnBus(g: Gcm, bus: T.Bus<Live>, cl: T.Client<Live>, me: byte, call: Call, sess: Session, plainMax: nat): (r: BusPoll)
    requires S.CarrierOk(cl.wire.carrier)
    ensures S.CarrierOk(r.cl.wire.carrier) && r.sess.dataId == sess.dataId
  {
    if !sess.inUse || sess.counter >= KEY_USE_LIMIT then BusPoll(cl, sess, Protocol, [])
    else
      var t := T.TransportRead(bus, cl, me, call.device, sess.dataId, [(sess.counter + 1) % 0x100], POLL_REPLY_MAX);
      var r := PollConclusion(g, call, sess, plainMax, t.1);
      BusPoll(t.0, Advanced(sess, r.0), r.0, r.1)
  }

  function WritePollOnBus(g: Gcm, bus: T.Bus<Live>, cl: T.Client<Live>, me: byte, call: Call, sess: Session, plain: seq<byte>): (r: BusPoll)
    requires S.CarrierOk(cl.wire.carrier)
    ensures S.CarrierOk(r.cl.wire.carrier) && r.sess.dataId == sess.dataId
  {
    if !sess.inUse then BusPoll(cl, sess, Protocol, [])
    else if |plain| == 0 || |plain| > MAX_PROTECTED then BusPoll(cl, sess, BufSize, [])
    else if sess.counter >= KEY_USE_LIMIT then BusPoll(cl, sess, Protocol, [])
    else
      var t := T.TransportWrite(bus, cl, me, call.device, sess.dataId, PollFrame(g, call, sess, sess.counter + 1, plain));
      BusPoll(t.0, Advanced(sess, t.1), t.1, [])
  }

  /** Both ends after a poll over the bus are as after the poll `r` by a direct exchange, one tick later if it succeeded. */
  ghost predicate SamePoll(c: Config, ticks: nat -> Tick, bus: T.Bus<Live>, live: Live, me: byte, device: u16, dataId: u32,
                           b: BusPoll, r: Poll<App>) {
    var after := b.cl.wire.carrier.app;
    && b.status == r.status && b.plain == r.plain && b.sess == r.sess && after.state == live.state.(sod := r.sod)
    && Connected(c, ticks, bus, b.cl, me, device, dataId)
    && (r.status == SecOk ==> after.n == live.n + 1)
  }

  lemma PollReadConcludes<A>(p: Port<A>, d: Sod<A>, call: Call, sess: Session, plainMax: nat, env: Env)
    requires d.Shaped() && sess.inUse && sess.counter < KEY_USE_LIMIT
    ensures var x := Exchange(p, d, call.client, sess.dataId, [(sess.counter + 1) % 0x100], env);
            var r := PollConclusion(p.gcm, call, sess, plainMax, ReadAnswer(x.reply, POLL_REPLY_MAX));
            PollRead(p, d, call, sess, plainMax, env) == Poll(x.sod, Advanced(sess, r.0), r.0, r.1, x.commit)
  {
    hide Exchange, OpenPollReply, ReadAnswer;
  }

  lemma PollWriteConcludes<A>(p: Port<A>, d: Sod<A>, call: Call, sess: Session, plain: seq<byte>, env: Env)
    requires d.Shaped() && sess.inUse && sess.counter < KEY_USE_LIMIT && 0 < |plain| <= MAX_PROTECTED
    ensures var x := Exchange(p, d, call.client, sess.dataId, PollFrame(p.gcm, call, sess, sess.counter + 1, plain), env);
            var status := WriteAnswer(x.reply);
            PollWrite(p, d, call, sess, plain, env) == Poll(x.sod, Advanced(sess, status), status, [], x.commit)
  {
    hide Exchange, PollFrame, WriteAnswer;
  }

  lemma ReadPollOverBus(c: Config, ticks: nat -> Tick, bus: T.Bus<Live>, cl: T.Client<Live>, me: byte, call: Call,
                        sess: Session, plainMax: nat)
    requires Connected(c, ticks, bus, cl, me, call.device, sess.dataId) && call.client == me
    ensures var live := cl.wire.carrier.app;
            SamePoll(c, ticks, bus, live, me, call.device, sess.dataId, ReadPollOnBus(c.gcm, bus, cl, me, call, sess, plainMax),
                        PollRead(PortOf(c), live.state.sod, call, sess, plainMax, EnvOf(ticks(live.n))))
  {
    PortHasGcm(c);
    hide T.TransportRead, Exchange, Connected, PollConclusion, ReadAnswer, DispatcherOf, PortOf, T.Fair, S.CarrierOk,
         IsSecureObject;
    var live := cl.wire.carrier.app;
    if !sess.inUse || sess.counter >= KEY_USE_LIMIT {
      return;
    }
    PollReadConcludes(PortOf(c), live.state.sod, call, sess, plainMax, EnvOf(ticks(live.n)));
    hide PollRead;
    ReadOverCarrier(c, ticks, bus, cl, me, call.device, sess.dataId, [(sess.counter + 1) % 0x100], POLL_REPLY_MAX);
  }

  lemma WritePollOverBus(c: Config, ticks: nat -> Tick, bus: T.Bus<Live>, cl: T.Client<Live>, me: byte, call: Call,
                         sess: Session, plain: seq<byte>)
    requires Connected(c, ticks, bus, cl, me, call.device, sess.dataId) && call.client == me
    ensures var live := cl.wire.carrier.app;
            SamePoll(c, ticks, bus, live, me, call.device, sess.dataId, WritePollOnBus(c.gcm, bus, cl, me, call, sess, plain),
                        PollWrite(PortOf(c), live.state.sod, call, sess, plain, EnvOf(ticks(live.n))))
  {
    PortHasGcm(c);
    hide T.TransportWrite, Exchange, Connected, PollFrame, WriteAnswer, DispatcherOf, PortOf, T.Fair, S.CarrierOk, IsSecureObject;
    var live := cl.wire.carrier.app;
    if !sess.inUse || sess.counter >= KEY_USE_LIMIT || |plain| == 0 || |plain| > MAX_PROTECTED {
      return;
    }
    PollWriteConcludes(PortOf(c), live.state.sod, call, sess, plain, EnvOf(ticks(live.n)));
    hide PollWrite;
    WriteOverCarrier(c, ticks, bus, cl, me, call.device, sess.dataId, PollFrame(c.gcm, call, sess, sess.counter + 1, plain));
  }

  /* ---- Runs of polls ---- */

  /** What `PollRun` is to direct exchanges; `values` are those that the client read. */
  datatype BusRun = BusRun(cl: T.Client<Live>, sess: Session, status: Status, values: seq<seq<byte>>)

  function ReadStepOnBus(g: Gcm, bus: T.Bus<Live>, before: BusRun, me: byte, call: Call, plainMax: nat): (r: BusRun)
    requires S.CarrierOk(before.cl.wire.carrier)
    ensures S.CarrierOk(r.cl.wire.carrier)
  {
    if before.status != SecOk then before
    else
      var r := ReadPollOnBus(g, bus, before.cl, me, call, before.sess, plainMax);
      BusRun(r.cl, r.sess, r.status, if r.status == SecOk then before.values + [r.plain] else before.values)
  }

  function ReadPollsOnBus(g: Gcm, bus: T.Bus<Live>, cl: T.Client<Live>, me: byte, call: Call, sess: Session, plainMax: nat, n: nat): (r: BusRun)
    requires S.CarrierOk(cl.wire.carrier)
    ensures S.CarrierOk(r.cl.wire.carrier)
  {
    if n == 0 then BusRun(cl, sess, SecOk, [])
    else ReadStepOnBus(g, bus, ReadPollsOnBus(g, bus, cl, me, call, sess, plainMax, n - 1), me, call, plainMax)
  }

  function WritePollsOnBus(g: Gcm, bus: T.Bus<Live>, cl: T.Client<Live>, me: byte, call: Call, sess: Session, plain: seq<byte>, n: nat): (r: BusRun)
    requires S.CarrierOk(cl.wire.carrier)
    ensures S.CarrierOk(r.cl.wire.carrier)
  {
    if n == 0 then BusRun(cl, sess, SecOk, [])
    else
      var before := WritePollsOnBus(g, bus, cl, me, call, sess, plain, n - 1);
      if before.status != SecOk then before
      else
        var r := WritePollOnBus(g, bus, before.cl, me, call, before.sess, plain);
        BusRun(r.cl, r.sess, r.status, [])
  }

  /** The tunnel's view of `n` ticks from the script. */
  function EnvsFrom(ticks: nat -> Tick, from: nat, n: nat): (envs: seq<Env>)
    ensures |envs| == n
  {
    seq(n, k requires 0 <= k < n => EnvOf(ticks(from + k)))
  }

  lemma LastEnv(ticks: nat -> Tick, from: nat, n: nat)
    requires n > 0
    ensures var envs := EnvsFrom(ticks, from, n);
            envs[..n - 1] == EnvsFrom(ticks, from, n - 1) && envs[n - 1] == EnvOf(ticks(from + (n - 1)))
  {
    hide EnvOf;
  }

  ghost predicate SameRun(c: Config, ticks: nat -> Tick, bus: T.Bus<Live>, live: Live, me: byte, device: u16, dataId: u32, n: nat,
                          b: BusRun, r: PollRun<App>) {
    var after := b.cl.wire.carrier.app;
    && b.status == r.status && b.sess == r.sess && b.sess.dataId == dataId && after.state == live.state.(sod := r.sod)
    && Connected(c, ticks, bus, b.cl, me, device, dataId)
    && (r.status == SecOk ==> after.n == live.n + n)
  }

  lemma ReadStepOverBus(c: Config, ticks: nat -> Tick, bus: T.Bus<Live>, live: Live, me: byte, call: Call, dataId: u32, plainMax: nat,
                        n: nat, b: BusRun, r: PollRun<App>)
    requires SameRun(c, ticks, bus, live, me, call.device, dataId, n, b, r) && b.values == r.values && call.client == me
    ensures S.CarrierOk(b.cl.wire.carrier) && r.sod.Shaped()
    ensures var b' := ReadStepOnBus(c.gcm, bus, b, me, call, plainMax);
            var r' := ReadPollStep(PortOf(c), r, call, plainMax, EnvOf(ticks(live.n + n)));
            SameRun(c, ticks, bus, live, me, call.device, dataId, n + 1, b', r') && b'.values == r'.values
  {
    hide Connected, ReadPollOnBus, PollRead, PortOf, S.CarrierOk;
    if b.status == SecOk {
      ReadPollOverBus(c, ticks, bus, b.cl, me, call, b.sess, plainMax);
    }
  }

  /** Any number of read polls over the bus, up to the first failure, is that run of the tunnel. */
  lemma {:induction false} ReadPollsOverBus(c: Config, ticks: nat -> Tick, bus: T.Bus<Live>, cl: T.Client<Live>, me: byte, call: Call,
                                            sess: Session, plainMax: nat, n: nat)
    requires Connected(c, ticks, bus, cl, me, call.device, sess.dataId) && call.client == me
    ensures var live := cl.wire.carrier.app;
            var b := ReadPollsOnBus(c.gcm, bus, cl, me, call, sess, plainMax, n);
            var r := ReadPolls(PortOf(c), live.state.sod, call, sess, plainMax, EnvsFrom(ticks, live.n, n));
            SameRun(c, ticks, bus, live, me, call.device, sess.dataId, n, b, r) && b.values == r.values
  {
    hide Connected, ReadStepOnBus, ReadPollStep, PortOf, S.CarrierOk, EnvsFrom, EnvOf;
    var live := cl.wire.carrier.app;
    if n > 0 {
      ReadPollsOverBus(c, ticks, bus, cl, me, call, sess, plainMax, n - 1);
      var before := ReadPollsOnBus(c.gcm, bus, cl, me, call, sess, plainMax, n - 1);
      LastEnv(ticks, live.n, n);
      ReadStepOverBus(c, ticks, bus, live, me, call, sess.dataId, plainMax, n - 1, before,
                      ReadPolls(PortOf(c), live.state.sod, call, sess, plainMax, EnvsFrom(ticks, live.n, n - 1)));
    }
  }

  lemma {:induction false} WritePollsOverBus(c: Config, ticks: nat -> Tick, bus: T.Bus<Live>, cl: T.Client<Live>, me: byte, call: Call,
                                             sess: Session, plain: seq<byte>, n: nat)
    requires Connected(c, ticks, bus, cl, me, call.device, sess.dataId) && call.client == me
    ensures var live := cl.wire.carrier.app;
            SameRun(c, ticks, bus, live, me, call.device, sess.dataId, n, WritePollsOnBus(c.gcm, bus, cl, me, call, sess, plain, n),
                       WritePolls(PortOf(c), live.state.sod, call, sess, plain, EnvsFrom(ticks, live.n, n)))
  {
    hide Connected, WritePollOnBus, PollWrite, PortOf, S.CarrierOk, EnvsFrom, EnvOf;
    var live := cl.wire.carrier.app;
    if n > 0 {
      WritePollsOverBus(c, ticks, bus, cl, me, call, sess, plain, n - 1);
      var before := WritePollsOnBus(c.gcm, bus, cl, me, call, sess, plain, n - 1);
      LastEnv(ticks, live.n, n);
      if before.status == SecOk {
        WritePollOverBus(c, ticks, bus, before.cl, me, call, before.sess, plain);
      }
    }
  }

  /* ---- Arming and polling ---- */

  /** The session that a successful armed access over the bus leaves behind. */
  function BusSession(call: Call, first: OnBus): Session { Session(true, call.dataId, call.keyId, first.base, 0) }

  /**
   * Arm and poll over the bus, any number of times: the client reads the
   * host's values one after the other, up to a million of them, and then stops.
   */
  lemma ReadSessionOverBus(c: Config, ticks: nat -> Tick, bus: T.Bus<Live>, cl: T.Client<Live>, me: byte, i: nat, call: Call,
                           bufSize: nat, random: Option<Nonce>, n: nat)
    requires Connected(c, ticks, bus, cl, me, call.device, call.dataId) && call.client == me
    requires var live := cl.wire.carrier.app;
             var d, e1, e2 := live.state.sod, EnvOf(ticks(live.n)), EnvOf(ticks(live.n + 1));
             && d.Valid() && At(d, i, call.dataId) && ReadReady(PortOf(c), d, i, Armed(call), bufSize, random, e1, e2)
             && Timely(e2.now, EnvsFrom(ticks, live.n + 2, n))
             && ReadsPermitted(PortOf(c), d.entries[i], BaseId(call.keyId), PortOf(c).readBefore(d.app, call.dataId).app, Within(n))
    ensures var first := ReadOnBus(c.gcm, bus, cl, me, Armed(call), bufSize, random);
            var run := ReadPollsOnBus(c.gcm, bus, first.cl, me, call, BusSession(Armed(call), first), bufSize, n);
            var d, port := cl.wire.carrier.app.state.sod, PortOf(c);
            && first.status == SecOk && first.plain == port.readBefore(d.app, call.dataId).plain
            && run.status == (if n <= KEY_USE_LIMIT then SecOk else Protocol)
            && |run.values| == run.sess.counter == Within(n)
            && forall k :: 0 <= k < |run.values| ==>
                 run.values[k] == port.readBefore(AppAfterReads(port, port.readBefore(d.app, call.dataId).app, call.dataId, k), call.dataId).plain
  {
    hide Connected, ReadOnBus, ReadPollsOnBus, ReadFlow, ReadPolls, ReadReady, ReadsPermitted, Timely, EnvsFrom, EnvOf, PortOf,
         AppAfterReads, S.CarrierOk, FindIndex;
    var live := cl.wire.carrier.app;
    var first := ReadOnBus(c.gcm, bus, cl, me, Armed(call), bufSize, random);
    SecureReadOverBus(c, ticks, bus, cl, me, Armed(call), bufSize, random);
    ReadSessionCorrect(PortOf(c), live.state.sod, i, call, bufSize, random, EnvOf(ticks(live.n)), EnvOf(ticks(live.n + 1)),
                       EnvsFrom(ticks, live.n + 2, n));
    ReadPollsOverBus(c, ticks, bus, first.cl, me, call, BusSession(Armed(call), first), bufSize, n);
  }

  /**
   * Arm and write over the bus, any number of times: both counters end at the
   * number of polls, up to a million, and the host took the value that often
   * and once more.
   */
  lemma WriteSessionOverBus(c: Config, ticks: nat -> Tick, bus: T.Bus<Live>, cl: T.Client<Live>, me: byte, i: nat, call: Call,
                            plain: seq<byte>, random: Option<Nonce>, n: nat)
    requires Connected(c, ticks, bus, cl, me, call.device, call.dataId) && call.client == me
    requires var live := cl.wire.carrier.app;
             var d, e1, e2 := live.state.sod, EnvOf(ticks(live.n)), EnvOf(ticks(live.n + 1));
             && d.Valid() && At(d, i, call.dataId) && WriteReady(PortOf(c), d, i, Armed(call), plain, random, e1, e2)
             && Timely(e2.now, EnvsFrom(ticks, live.n + 2, n))
             && WritesPermitted(PortOf(c), d, i, call, plain, Within(n))
    ensures var first := WriteOnBus(c.gcm, bus, cl, me, Armed(call), plain, random);
            var run := WritePollsOnBus(c.gcm, bus, first.cl, me, call, BusSession(Armed(call), first), plain, n);
            var after := run.cl.wire.carrier.app.state.sod;
            var host := HostAfterSession(PortOf(c), cl.wire.carrier.app.state.sod, call, plain, Within(n));
            && first.status == SecOk && run.status == (if n <= KEY_USE_LIMIT then SecOk else Protocol)
            && |after.writeSlots| > i && run.sess.counter == after.writeSlots[i].counter == Within(n)
            && after.app == host.app && after.keys == host.keys
  {
    hide Connected, WriteOnBus, WritePollsOnBus, WriteFlow, WritePolls, WriteReady, Timely, EnvsFrom, EnvOf, PortOf, WritePermitted,
         HostAfterSession, S.CarrierOk, FindIndex;
    var live := cl.wire.carrier.app;
    var first := WriteOnBus(c.gcm, bus, cl, me, Armed(call), plain, random);
    SecureWriteOverBus(c, ticks, bus, cl, me, Armed(call), plain, random);
    WriteSessionCorrect(PortOf(c), live.state.sod, i, call, plain, random, EnvOf(ticks(live.n)), EnvOf(ticks(live.n + 1)),
                        EnvsFrom(ticks, live.n + 2, n));
    WritePollsOverBus(c, ticks, bus, first.cl, me, call, BusSession(Armed(call), first), plain, n);
  }
}
