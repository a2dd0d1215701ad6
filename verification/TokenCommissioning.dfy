/**
 * Commissioning by claim token: the client's key ring, the rungs it installs
 * one over the other, and what a whole run leaves on the device.
 */
module TokenCommissioning {
  import opened Bytes
  import opened Aborts
  import opened Aead
  import opened Channel
  import opened SecureOd
  import opened SecureProto
  import opened Tunnel
  import C = Commissioning
  import opened DeviceModel

  const KEYID_MAX := 15
  const KEY_MISSING := 20
  const AUTH_MISSING := 21

  /** Session keys by key id, the selected id, and whether writes are encrypted. */
  datatype KeyRing = KeyRing(keys: map<byte, Key>, selected: byte, encrypt: bool)

  predicate SessionSet(r: KeyRing) { 1 <= r.selected <= KEYID_MAX && r.selected in r.keys }

  /** Slot 0 is a zero buffer. */
  function SessionKey(r: KeyRing): Key { if SessionSet(r) then r.keys[r.selected] else Zeros(KEY_SIZE) }

  function EffectiveKeyId(r: KeyRing): byte {
    if r.selected == 0 then 0 else BaseId(r.selected) + if r.encrypt then 0x80 else 0
  }

  /** The two parties of the access, and what one write meets on the way. */
  datatype Who = Who(client: u16, device: u16)
  datatype Shot = Shot(random: Option<Nonce>, e1: Env, e2: Env)

  function CallOf(who: Who, r: KeyRing): Call {
    Call(who.client, who.device, KEY_SET_ID, SessionKey(r), EffectiveKeyId(r))
  }

  datatype Progress = Progress(sod: Sod<App>, ring: KeyRing, code: nat)

  function RungBody(slot: byte, key: Key): (r: seq<byte>)
    ensures |r| == C.KEY_SET_BODY_LEN
  {
    [slot] + Le32(0x1000 + slot) + key
  }

  /** One rung: the client's key for `slot`, written under its key for `auth`. Leaves `auth` or `slot` selected. */
  function InstallRung(c: Config, d: Sod<App>, ring: KeyRing, who: Who, slot: byte, auth: byte, s: Shot): (r: Progress)
    requires d.Shaped()
    ensures r.sod.Shaped() && r.sod.entries == d.entries && r.ring.keys == ring.keys
  {
    var target := ring.(selected := slot);
    if !SessionSet(target) then Progress(d, target, KEY_MISSING)
    else
      var authorizing := ring.(selected := auth);
      if !SessionSet(authorizing) then Progress(d, authorizing, AUTH_MISSING)
      else
        var w := WriteFlow(PortOf(c), d, CallOf(who, authorizing), RungBody(slot, SessionKey(target)), s.random, s.e1, s.e2);
        Progress(w.sod, authorizing, ExitCode(w.status))
  }

  /** Seats the token in slot 4 and installs the Provisioning rung under it. */
  function InstallByToken(c: Config, d: Sod<App>, ring: KeyRing, who: Who, token: Key, s: Shot): (r: Progress)
    requires d.Shaped()
    ensures r.sod.Shaped() && r.sod.entries == d.entries
  {
    var seated := ring.(keys := ring.keys[C.SLOT_CLAIM_TOKEN := token], selected := C.SLOT_CLAIM_TOKEN);
    var r := InstallRung(c, d, seated, who, C.SLOT_PROVISIONING, C.SLOT_CLAIM_TOKEN, s);
    r.(ring := r.ring.(selected := ring.selected))
  }

  /** Integrator over Provisioning, then Operator over Integrator. */
  function InstallLadder(c: Config, d: Sod<App>, ring: KeyRing, who: Who, s2: Shot, s3: Shot): (r: Progress)
    requires d.Shaped()
    ensures r.sod.Shaped() && r.sod.entries == d.entries
  {
    var first := InstallRung(c, d, ring, who, C.SLOT_INTEGRATOR, C.SLOT_PROVISIONING, s2);
    var last := if first.code == 0
                then InstallRung(c, first.sod, first.ring, who, C.SLOT_OPERATOR, C.SLOT_INTEGRATOR, s3) else first;
    last.(ring := last.ring.(selected := ring.selected))
  }

  function Commission(c: Config, d: Sod<App>, ring: KeyRing, who: Who, token: Key, s1: Shot, s2: Shot, s3: Shot): Progress
    requires d.Shaped()
  {
    var r := InstallByToken(c, d, ring, who, token, s1);
    if r.code != 0 then r else InstallLadder(c, r.sod, r.ring, who, s2, s3)
  }

  /** On every exit the user's key selection is back. */
  lemma SelectionIsRestored(c: Config, d: Sod<App>, ring: KeyRing, who: Who, token: Key, s1: Shot, s2: Shot, s3: Shot)
    requires d.Shaped()
    ensures Commission(c, d, ring, who, token, s1, s2, s3).ring
              == ring.(keys := ring.keys[C.SLOT_CLAIM_TOKEN := token])
  {
    hide WriteFlow;
  }

  predicate ShotReady(s: Shot) {
    && s.random.Some? && s.e1.random.Some? && s.e1.fate == Delivered && s.e2.fate == Delivered
    && ChallengeFresh(s.e2.now, s.e1.now)
  }

  /** The key-set entry as the device registers it, in a slot that nobody else holds. */
  predicate LadderOpen(d: Sod<App>, i: nat, who: Who, now: u16)
    requires d.Shaped()
  {
    && At(d, i, KEY_SET_ID) && d.entries[i] == Entry(KEY_SET_ID, KEY_NONE, false, true, C.KEY_SET_BODY_LEN)
    && !(d.writeSlots[i].clientDev != who.client
         && Held(d.writeSlots[i].inUse, d.writeSlots[i].cyclic, d.writeSlots[i].armedAt, now))
  }

  lemma RungBodyApplies(keys: KeyStore, stage: C.Stage, slot: byte, auth: byte, key: Key)
    requires C.NeededFor(slot) == Some(auth) && slot !in keys
    ensures var r := C.ApplyKeySet(keys, stage, auth, RungBody(slot, key));
            var installed := keys[slot := KeyRecord(key, 0x1000 + slot)];
            r == C.KeySetResult(installed, C.StageFor(installed, stage), NO_ABORT)
  {
    var body := RungBody(slot, key);
    Le32RoundTrip(0x1000 + slot);
    assert body[1..5] == Le32(0x1000 + slot) && body[5..] == key;
  }

  lemma RungInstalls(c: Config, d: Sod<App>, i: nat, ring: KeyRing, who: Who, slot: byte, auth: byte, s: Shot)
    requires d.Valid() && LadderOpen(d, i, who, s.e1.now) && ShotReady(s) && c.deviceId % 0x100 == who.device % 0x100
    requires C.NeededFor(slot) == Some(auth) && slot !in d.keys && slot in ring.keys && auth in ring.keys
    requires HoldsKey(d.keys, auth, ring.keys[auth])
    ensures var r := InstallRung(c, d, ring, who, slot, auth, s);
            var installed := d.keys[slot := KeyRecord(ring.keys[slot], 0x1000 + slot)];
            && r.code == 0 && r.sod.keys == installed && r.sod.Valid()
            && r.sod.app == d.app.(stage := C.StageFor(installed, d.app.stage))
            && r.sod.entries == d.entries && !r.sod.writeSlots[i].inUse
  {
    hide WriteFlow, WriteCollides, C.ApplyKeySet, RungBody;
    var call := CallOf(who, ring.(selected := auth));
    var body := RungBody(slot, ring.keys[slot]);
    RungBodyApplies(d.keys, d.app.stage, slot, auth, ring.keys[slot]);
    assert BaseId(call.keyId) == auth && ReservedBits(call.keyId) == 0 && !IsCyclic(call.keyId);
    WriteCorrect(PortOf(c), d, i, call, body, s.random, s.e1, s.e2);
  }

  /**
   * With the token the device was made with, and slots 1..3 empty, token
   * install plus ladder leave the device with the client's three keys under
   * ids 1001h..1003h, stage Operational, and everything else of the
   * application as it was.
   */
  lemma CommissioningSucceeds(c: Config, d: Sod<App>, i: nat, ring: KeyRing, who: Who, token: Key, s1: Shot, s2: Shot, s3: Shot)
    requires d.Valid() && LadderOpen(d, i, who, s1.e1.now) && c.deviceId % 0x100 == who.device % 0x100
    requires ShotReady(s1) && ShotReady(s2) && ShotReady(s3)
    requires HoldsKey(d.keys, C.SLOT_CLAIM_TOKEN, token) && !C.HasSessionKey(d.keys)
    requires C.SLOT_PROVISIONING in ring.keys && C.SLOT_INTEGRATOR in ring.keys && C.SLOT_OPERATOR in ring.keys
    ensures var r := Commission(c, d, ring, who, token, s1, s2, s3);
            && r.code == 0 && r.sod.app == d.app.(stage := C.Operational)
            && r.sod.keys == d.keys[C.SLOT_PROVISIONING := KeyRecord(ring.keys[C.SLOT_PROVISIONING], C.ID_PROVISIONING)]
                                   [C.SLOT_INTEGRATOR := KeyRecord(ring.keys[C.SLOT_INTEGRATOR], C.ID_INTEGRATOR)]
                                   [C.SLOT_OPERATOR := KeyRecord(ring.keys[C.SLOT_OPERATOR], C.ID_OPERATOR)]
            && r.ring.selected == ring.selected
  {
    hide InstallRung;
    var seated := ring.(keys := ring.keys[C.SLOT_CLAIM_TOKEN := token], selected := C.SLOT_CLAIM_TOKEN);
    RungInstalls(c, d, i, seated, who, C.SLOT_PROVISIONING, C.SLOT_CLAIM_TOKEN, s1);
    var r1 := InstallByToken(c, d, ring, who, token, s1);
    RungInstalls(c, r1.sod, i, r1.ring, who, C.SLOT_INTEGRATOR, C.SLOT_PROVISIONING, s2);
    var r2 := InstallRung(c, r1.sod, r1.ring, who, C.SLOT_INTEGRATOR, C.SLOT_PROVISIONING, s2);
    RungInstalls(c, r2.sod, i, r2.ring, who, C.SLOT_OPERATOR, C.SLOT_INTEGRATOR, s3);
  }
}
