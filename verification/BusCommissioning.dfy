/**
 * Commissioning over the noisy bus, by claim token and by ownership voucher,
 * performed by the client with its transport.
 */
module BusCommissioning {
  import opened Bytes
  import opened Aborts
  import opened Aead
  import opened Asym
  import opened SecureOd
  import SecureProto
  import opened Tunnel
  import Usdo
  import S = ServerCarrier
  import T = ClientCarrier
  import C = Commissioning
  import opened CommissioningRuns
  import opened DeviceModel
  import opened TokenCommissioning
  import opened Stack

  /* ---- The ladder ---- */

  /** What `Progress` is to direct exchanges. */
  datatype BusProgress = BusProgress(cl: T.Client<Live>, ring: KeyRing, code: nat)

  function RungOnBus(g: Gcm, bus: T.Bus<Live>, cl: T.Client<Live>, me: byte, device: u16, ring: KeyRing, slot: byte, auth: byte,
                     random: Option<Nonce>): (r: BusProgress)
    requires S.CarrierOk(cl.wire.carrier)
    ensures S.CarrierOk(r.cl.wire.carrier)
  {
    var target := ring.(selected := slot);
    if !SessionSet(target) then BusProgress(cl, target, KEY_MISSING)
    else
      var authorizing := ring.(selected := auth);
      if !SessionSet(authorizing) then BusProgress(cl, authorizing, AUTH_MISSING)
      else
        var w := WriteOnBus(g, bus, cl, me, CallOf(Who(me, device), authorizing), RungBody(slot, SessionKey(target)), random);
        BusProgress(w.cl, authorizing, SecureProto.ExitCode(w.status))
  }

  function TokenOnBus(g: Gcm, bus: T.Bus<Live>, cl: T.Client<Live>, me: byte, device: u16, ring: KeyRing, token: Key,
                      random: Option<Nonce>): (r: BusProgress)
    requires S.CarrierOk(cl.wire.carrier)
    ensures S.CarrierOk(r.cl.wire.carrier)
  {
    var seated := ring.(keys := ring.keys[C.SLOT_CLAIM_TOKEN := token], selected := C.SLOT_CLAIM_TOKEN);
    var r := RungOnBus(g, bus, cl, me, device, seated, C.SLOT_PROVISIONING, C.SLOT_CLAIM_TOKEN, random);
    r.(ring := r.ring.(selected := ring.selected))
  }

  function LadderOnBus(g: Gcm, bus: T.Bus<Live>, cl: T.Client<Live>, me: byte, device: u16, ring: KeyRing,
                       second: Option<Nonce>, third: Option<Nonce>): (r: BusProgress)
    requires S.CarrierOk(cl.wire.carrier)
    ensures S.CarrierOk(r.cl.wire.carrier)
  {
    var first := RungOnBus(g, bus, cl, me, device, ring, C.SLOT_INTEGRATOR, C.SLOT_PROVISIONING, second);
    var last := if first.code == 0
                then RungOnBus(g, bus, first.cl, me, device, first.ring, C.SLOT_OPERATOR, C.SLOT_INTEGRATOR, third) else first;
    last.(ring := last.ring.(selected := ring.selected))
  }

  function CommissionOnBus(g: Gcm, bus: T.Bus<Live>, cl: T.Client<Live>, me: byte, device: u16, ring: KeyRing, token: Key,
                           first: Option<Nonce>, second: Option<Nonce>, third: Option<Nonce>): (r: BusProgress)
    requires S.CarrierOk(cl.wire.carrier)
    ensures S.CarrierOk(r.cl.wire.carrier)
  {
    var r := TokenOnBus(g, bus, cl, me, device, ring, token, first);
    if r.code != 0 then r else LadderOnBus(g, bus, r.cl, me, device, r.ring, second, third)
  }

  /** What one write meets when it starts at tick `n`. */
  function ShotAt(ticks: nat -> Tick, n: nat, random: Option<Nonce>): Shot { Shot(random, EnvOf(ticks(n)), EnvOf(ticks(n + 1))) }

  /** Both ends after a step over the bus are as after the step `r` by direct exchanges, `spent` ticks later if it succeeded. */
  ghost predicate SameProgress(c: Config, ticks: nat -> Tick, bus: T.Bus<Live>, live: Live, me: byte, device: u16, spent: nat,
                               b: BusProgress, r: Progress) {
    var after := b.cl.wire.carrier.app;
    && b.code == r.code && b.ring == r.ring && after.state == live.state.(sod := r.sod)
    && Connected(c, ticks, bus, b.cl, me, device, KEY_SET_ID)
    && (r.code == 0 ==> after.n == live.n + spent)
  }

  lemma RungOverBus(c: Config, ticks: nat -> Tick, bus: T.Bus<Live>, cl: T.Client<Live>, me: byte, device: u16, ring: KeyRing,
                    slot: byte, auth: byte, random: Option<Nonce>)
    requires Connected(c, ticks, bus, cl, me, device, KEY_SET_ID)
    ensures var live := cl.wire.carrier.app;
            SameProgress(c, ticks, bus, live, me, device, 2, RungOnBus(c.gcm, bus, cl, me, device, ring, slot, auth, random),
                         InstallRung(c, live.state.sod, ring, Who(me, device), slot, auth, ShotAt(ticks, live.n, random)))
  {
    hide Connected, WriteOnBus, SecureProto.WriteFlow, PortOf, RungBody, S.CarrierOk, EnvOf;
    var target, authorizing := ring.(selected := slot), ring.(selected := auth);
    if SessionSet(target) && SessionSet(authorizing) {
      SecureWriteOverBus(c, ticks, bus, cl, me, CallOf(Who(me, device), authorizing), RungBody(slot, SessionKey(target)), random);
    }
  }

  lemma TokenOverBus(c: Config, ticks: nat -> Tick, bus: T.Bus<Live>, cl: T.Client<Live>, me: byte, device: u16, ring: KeyRing,
                     token: Key, random: Option<Nonce>)
    requires Connected(c, ticks, bus, cl, me, device, KEY_SET_ID)
    ensures var live := cl.wire.carrier.app;
            SameProgress(c, ticks, bus, live, me, device, 2, TokenOnBus(c.gcm, bus, cl, me, device, ring, token, random),
                         InstallByToken(c, live.state.sod, ring, Who(me, device), token, ShotAt(ticks, live.n, random)))
  {
    hide Connected, RungOnBus, InstallRung, S.CarrierOk, ShotAt;
    var seated := ring.(keys := ring.keys[C.SLOT_CLAIM_TOKEN := token], selected := C.SLOT_CLAIM_TOKEN);
    RungOverBus(c, ticks, bus, cl, me, device, seated, C.SLOT_PROVISIONING, C.SLOT_CLAIM_TOKEN, random);
  }

  lemma LadderOverBus(c: Config, ticks: nat -> Tick, bus: T.Bus<Live>, cl: T.Client<Live>, me: byte, device: u16, ring: KeyRing,
                      second: Option<Nonce>, third: Option<Nonce>)
    requires Connected(c, ticks, bus, cl, me, device, KEY_SET_ID)
    ensures var live := cl.wire.carrier.app;
            SameProgress(c, ticks, bus, live, me, device, 4, LadderOnBus(c.gcm, bus, cl, me, device, ring, second, third),
                         InstallLadder(c, live.state.sod, ring, Who(me, device), ShotAt(ticks, live.n, second),
                                       ShotAt(ticks, live.n + 2, third)))
  {
    hide Connected, RungOnBus, InstallRung, S.CarrierOk, ShotAt;
    RungOverBus(c, ticks, bus, cl, me, device, ring, C.SLOT_INTEGRATOR, C.SLOT_PROVISIONING, second);
    var first := RungOnBus(c.gcm, bus, cl, me, device, ring, C.SLOT_INTEGRATOR, C.SLOT_PROVISIONING, second);
    if first.code == 0 {
      RungOverBus(c, ticks, bus, first.cl, me, device, first.ring, C.SLOT_OPERATOR, C.SLOT_INTEGRATOR, third);
    }
  }

  lemma CommissionOverBus(c: Config, ticks: nat -> Tick, bus: T.Bus<Live>, cl: T.Client<Live>, me: byte, device: u16, ring: KeyRing,
                          token: Key, first: Option<Nonce>, second: Option<Nonce>, third: Option<Nonce>)
    requires Connected(c, ticks, bus, cl, me, device, KEY_SET_ID)
    ensures var live := cl.wire.carrier.app;
            SameProgress(c, ticks, bus, live, me, device, 6, CommissionOnBus(c.gcm, bus, cl, me, device, ring, token, first, second, third),
                         Commission(c, live.state.sod, ring, Who(me, device), token, ShotAt(ticks, live.n, first),
                                    ShotAt(ticks, live.n + 2, second), ShotAt(ticks, live.n + 4, third)))
  {
    hide Connected, TokenOnBus, LadderOnBus, InstallByToken, InstallLadder, S.CarrierOk, ShotAt;
    TokenOverBus(c, ticks, bus, cl, me, device, ring, token, first);
    var r := TokenOnBus(c.gcm, bus, cl, me, device, ring, token, first);
    if r.code == 0 {
      LadderOverBus(c, ticks, bus, r.cl, me, device, r.ring, second, third);
    }
  }

  /**
   * Commissioning over the bus: with the right token and empty slots, six
   * transfers leave the client's three keys on the device, stage Operational.
   */
  lemma CommissioningOverBus(c: Config, ticks: nat -> Tick, bus: T.Bus<Live>, cl: T.Client<Live>, me: byte, device: u16, i: nat,
                             ring: KeyRing, token: Key, first: Option<Nonce>, second: Option<Nonce>, third: Option<Nonce>)
    requires Connected(c, ticks, bus, cl, me, device, KEY_SET_ID) && c.deviceId % 0x100 == device % 0x100
    requires var live := cl.wire.carrier.app;
             && live.state.sod.Valid() && LadderOpen(live.state.sod, i, Who(me, device), ticks(live.n).now)
             && ShotReady(ShotAt(ticks, live.n, first)) && ShotReady(ShotAt(ticks, live.n + 2, second))
             && ShotReady(ShotAt(ticks, live.n + 4, third))
             && HoldsKey(live.state.sod.keys, C.SLOT_CLAIM_TOKEN, token) && !C.HasSessionKey(live.state.sod.keys)
    requires C.SLOT_PROVISIONING in ring.keys && C.SLOT_INTEGRATOR in ring.keys && C.SLOT_OPERATOR in ring.keys
    ensures var live := cl.wire.carrier.app;
            var r := CommissionOnBus(c.gcm, bus, cl, me, device, ring, token, first, second, third);
            var after := r.cl.wire.carrier.app;
            && r.code == 0 && r.ring.selected == ring.selected && after.n == live.n + 6
            && after.state.sod.app == live.state.sod.app.(stage := C.Operational)
            && after.state.sod.keys
                 == live.state.sod.keys[C.SLOT_PROVISIONING := KeyRecord(ring.keys[C.SLOT_PROVISIONING], C.ID_PROVISIONING)]
                                       [C.SLOT_INTEGRATOR := KeyRecord(ring.keys[C.SLOT_INTEGRATOR], C.ID_INTEGRATOR)]
                                       [C.SLOT_OPERATOR := KeyRecord(ring.keys[C.SLOT_OPERATOR], C.ID_OPERATOR)]
  {
    var live := cl.wire.carrier.app;
    var s1, s2, s3 := ShotAt(ticks, live.n, first), ShotAt(ticks, live.n + 2, second), ShotAt(ticks, live.n + 4, third);
    assert s1.e1.now == ticks(live.n).now;
    hide Connected, CommissionOnBus, Commission, S.CarrierOk, ShotAt, ShotReady, LadderOpen, C.HasSessionKey;
    CommissioningSucceeds(c, live.state.sod, i, ring, Who(me, device), token, s1, s2, s3);
    CommissionOverBus(c, ticks, bus, cl, me, device, ring, token, first, second, third);
  }

  /* ---- The ownership path ---- */

  /** The owner epoch, if it can be read. */
  function EpochOnBus(bus: T.Bus<Live>, cl: T.Client<Live>, me: byte, device: u16): (r: (T.Client<Live>, Option<u32>))
    requires S.CarrierOk(cl.wire.carrier)
    ensures S.CarrierOk(r.0.wire.carrier)
  {
    var t := T.TransportRead(bus, cl, me, device, EPOCH_ID, [], 4);
    (t.0, if t.1.Got? && |t.1.data| == 4 then Some(FromLe32(t.1.data)) else None)
  }

  /** Code 0, or 2 when the write is refused. */
  function SentCode(status: SecureProto.Status): nat { if status == SecureProto.SecOk then 0 else 2 }

  /** Reads the epoch, mints the next voucher for the device's serial, and presents it. */
  function PresentOnBus(s: Scheme, bus: T.Bus<Live>, cl: T.Client<Live>, me: byte, device: u16, serial: C.Serial, manufacturer: Seed,
                        integrator: PubKey): (r: (T.Client<Live>, nat))
    requires S.CarrierOk(cl.wire.carrier)
    ensures S.CarrierOk(r.0.wire.carrier)
  {
    var epoch := EpochOnBus(bus, cl, me, device);
    var voucher := BuildVoucher(s, manufacturer, serial, integrator, MintedEpoch(epoch.1));
    var t := T.TransportWrite(bus, epoch.0, me, device, VOUCHER_ID, voucher);
    (t.0, SentCode(t.1))
  }

  function InstallOnBus(s: Scheme, bus: T.Bus<Live>, cl: T.Client<Live>, me: byte, device: u16, integrator: Seed, key: Key): (T.Client<Live>, nat)
    requires S.CarrierOk(cl.wire.carrier)
  {
    var t := T.TransportWrite(bus, cl, me, device, PROVISION_ID, BuildProvision(s, integrator, key));
    (t.0, SentCode(t.1))
  }

  /** The device behind the bus, with no constant object in place of the handover objects. */
  ghost predicate HandoverWired(c: Config, ticks: nat -> Tick, bus: T.Bus<Live>, cl: T.Client<Live>, me: byte, device: u16): (ok: bool)
    ensures ok ==> S.CarrierOk(cl.wire.carrier) && cl.wire.carrier.app.state.sod.Shaped()
  {
    && Wired(c, ticks, bus, cl, me, device)
    && forall d, dataId, body :: IsHandover(dataId) ==> c.constants(d, dataId, body).None?
  }

  lemma HandoverServes(c: Config, st: State, q: Incoming, t: Tick)
    requires st.sod.Shaped() && IsHandover(q.dataId) && c.constants(st.sod, q.dataId, q.body).None?
    ensures var r := Handover(c, Commissioned(st.sod), q);
            Serve(c, st, q, t) == (st.(sod := WithCommissioned(st.sod, r.0)), r.1)
  {
    hide Handover, Dispatch, HostOf;
  }

  lemma EpochOverBus(c: Config, ticks: nat -> Tick, bus: T.Bus<Live>, cl: T.Client<Live>, me: byte, device: u16)
    requires HandoverWired(c, ticks, bus, cl, me, device)
    ensures var live := cl.wire.carrier.app;
            var r := EpochOnBus(bus, cl, me, device);
            && r.1 == Some(live.state.sod.app.own.epoch) && r.0.wire.carrier.app == Live(live.state, live.n + 1)
            && HandoverWired(c, ticks, bus, r.0, me, device)
  {
    hide T.TransportRead, Serve, Wired, S.CarrierOk;
    var live := cl.wire.carrier.app;
    Le32RoundTrip(live.state.sod.app.own.epoch);
    ReadIsServed(c, ticks, bus, cl, me, device, EPOCH_ID, [], 4);
    HandoverServes(c, live.state, Incoming(me, EPOCH_ID, []), ticks(live.n));
  }

  /** A write to the voucher or the provisioning object does at the device exactly what its handler does. */
  lemma HandoverOverBus(c: Config, ticks: nat -> Tick, bus: T.Bus<Live>, cl: T.Client<Live>, me: byte, device: u16, dataId: u32, body: seq<byte>)
    requires HandoverWired(c, ticks, bus, cl, me, device) && (dataId == VOUCHER_ID || dataId == PROVISION_ID) && |body| <= Usdo.SEG_BODY_MAX
    ensures var live, t := cl.wire.carrier.app, T.TransportWrite(bus, cl, me, device, dataId, body);
            var v := Commissioned(live.state.sod);
            var r := if dataId == VOUCHER_ID then C.HandleVoucher(c.origin, v, body) else C.HandleProvision(c.origin, v, body);
            && (t.1 == SecureProto.SecOk <==> r.1 == NO_ABORT)
            && t.0.wire.carrier.app == Live(live.state.(sod := WithCommissioned(live.state.sod, r.0)), live.n + 1)
            && HandoverWired(c, ticks, bus, t.0, me, device)
  {
    hide T.TransportWrite, Serve, Wired, S.CarrierOk, C.HandleVoucher, C.HandleProvision, WithCommissioned;
    var live := cl.wire.carrier.app;
    WriteIsServed(c, ticks, bus, cl, me, device, dataId, body);
    HandoverServes(c, live.state, Incoming(me, dataId, body), ticks(live.n));
  }

  /** Presenting a voucher over the bus is minting it for the device's epoch and claiming with it. */
  lemma PresentOverBus(c: Config, ticks: nat -> Tick, bus: T.Bus<Live>, cl: T.Client<Live>, me: byte, device: u16, manufacturer: Seed,
                       integrator: PubKey)
    requires HandoverWired(c, ticks, bus, cl, me, device)
    ensures var live := cl.wire.carrier.app;
            var v := Commissioned(live.state.sod);
            var r := C.HandleVoucher(c.origin, v, BuildVoucher(c.origin.scheme, manufacturer, c.origin.serial, integrator,
                                                               MintedEpoch(Some(v.own.epoch))));
            var b := PresentOnBus(c.origin.scheme, bus, cl, me, device, c.origin.serial, manufacturer, integrator);
            && (b.1 == 0 <==> r.1 == NO_ABORT)
            && b.0.wire.carrier.app == Live(live.state.(sod := WithCommissioned(live.state.sod, r.0)), live.n + 2)
            && HandoverWired(c, ticks, bus, b.0, me, device)
  {
    hide HandoverWired, T.TransportWrite, EpochOnBus, S.CarrierOk, C.HandleVoucher, WithCommissioned, BuildVoucher;
    EpochOverBus(c, ticks, bus, cl, me, device);
    var epoch := EpochOnBus(bus, cl, me, device);
    HandoverOverBus(c, ticks, bus, epoch.0, me, device, VOUCHER_ID,
                    BuildVoucher(c.origin.scheme, manufacturer, c.origin.serial, integrator, MintedEpoch(epoch.1)));
  }

  lemma InstallOverBus(c: Config, ticks: nat -> Tick, bus: T.Bus<Live>, cl: T.Client<Live>, me: byte, device: u16, integrator: Seed, key: Key)
    requires HandoverWired(c, ticks, bus, cl, me, device)
    ensures var live := cl.wire.carrier.app;
            var r := C.HandleProvision(c.origin, Commissioned(live.state.sod), BuildProvision(c.origin.scheme, integrator, key));
            var b := InstallOnBus(c.origin.scheme, bus, cl, me, device, integrator, key);
            && (b.1 == 0 <==> r.1 == NO_ABORT)
            && b.0.wire.carrier.app == Live(live.state.(sod := WithCommissioned(live.state.sod, r.0)), live.n + 1)
  {
    hide HandoverWired, T.TransportWrite, S.CarrierOk, C.HandleProvision, WithCommissioned, BuildProvision;
    HandoverOverBus(c, ticks, bus, cl, me, device, PROVISION_ID, BuildProvision(c.origin.scheme, integrator, key));
  }

  /**
   * The ownership path over the bus: on an unclaimed device with room for a
   * higher epoch, three transfers leave the integrator as owner and the client's
   * key in the Provisioning slot, unless that slot was filled before.
   */
  lemma OwnershipOverBus(c: Config, ticks: nat -> Tick, bus: T.Bus<Live>, cl: T.Client<Live>, me: byte, device: u16, manufacturer: Seed,
                         integrator: Seed, key: Key)
    requires HandoverWired(c, ticks, bus, cl, me, device)
    requires Correct(c.origin.scheme) && c.origin.anchor == c.origin.scheme.public(manufacturer)
    requires var own := cl.wire.carrier.app.state.sod.app.own; own.uncommissioned && own.epoch < 0xFFFF_FFFF
    ensures var before := Commissioned(cl.wire.carrier.app.state.sod);
            var first := PresentOnBus(c.origin.scheme, bus, cl, me, device, c.origin.serial, manufacturer, c.origin.scheme.public(integrator));
            var last := InstallOnBus(c.origin.scheme, bus, first.0, me, device, integrator, key);
            var after := Commissioned(last.0.wire.carrier.app.state.sod);
            && first.1 == 0 && last.1 == 0 && after.stage == C.Owned
            && after.own.ownerSet && after.own.owner == c.origin.scheme.public(integrator) && after.own.epoch == before.own.epoch + 1
            && after.keys == (if C.SLOT_PROVISIONING in before.keys then before.keys
                              else before.keys[C.SLOT_PROVISIONING := KeyRecord(key, C.ID_PROVISIONING)])
  {
    hide HandoverWired, PresentOnBus, InstallOnBus, S.CarrierOk, C.HandleVoucher, C.HandleProvision, BuildVoucher, BuildProvision, MintedEpoch;
    var pub := c.origin.scheme.public(integrator);
    OwnershipPath(c.origin, Commissioned(cl.wire.carrier.app.state.sod), manufacturer, integrator, key);
    PresentOverBus(c, ticks, bus, cl, me, device, manufacturer, pub);
    var first := PresentOnBus(c.origin.scheme, bus, cl, me, device, c.origin.serial, manufacturer, pub);
    InstallOverBus(c, ticks, bus, first.0, me, device, integrator, key);
  }
}
