/**
 * The commissioning state over every sequence of installs, claims,
 * provisioning installs and resets.
 */
module CommissioningRuns {
  import opened Bytes
  import opened Aborts
  import opened Aead
  import opened Asym
  import opened SecureOd
  import opened Commissioning

  /** What can happen to keys, stage and ownership. A rung names the key that authorized it. */
  datatype Move = Stay | Rung(authorizing: byte, body: seq<byte>) | Voucher(bytes: seq<byte>) | Provision(payload: seq<byte>) | Restore

  function Apply(o: Origin, d: Device, m: Move): Device {
    match m
    case Stay => d
    case Rung(authorizing, body) => HandleKeySet(d, authorizing, body).0
    case Voucher(bytes) => HandleVoucher(o, d, bytes).0
    case Provision(payload) => HandleProvision(o, d, payload).0
    case Restore => Reset(o, d)
  }

  /** A rung is authorized by a key that the device holds at that moment. */
  predicate Authorized(d: Device, m: Move) { m.Rung? ==> m.authorizing in d.keys }

  /** A rung that was not refused. */
  predicate Installed(d: Device, m: Move) { m.Rung? ==> HandleKeySet(d, m.authorizing, m.body).1 == NO_ABORT }

  function RunMoves(o: Origin, d: Device, moves: seq<Move>): Device {
    if moves == [] then d else Apply(o, RunMoves(o, d, moves[..|moves| - 1]), moves[|moves| - 1])
  }

  ghost predicate AllAuthorized(o: Origin, d: Device, moves: seq<Move>) {
    forall k :: 0 <= k < |moves| ==> Authorized(RunMoves(o, d, moves[..k]), moves[k])
  }

  lemma AllAuthorizedPrefix(o: Origin, d: Device, moves: seq<Move>, n: nat)
    requires AllAuthorized(o, d, moves) && n <= |moves|
    ensures AllAuthorized(o, d, moves[..n])
  {
    forall k | 0 <= k < n ensures Authorized(RunMoves(o, d, moves[..n][..k]), moves[..n][k]) {
      assert moves[..n][..k] == moves[..k];
    }
  }

  /* ---- What every state satisfies ---- */

  predicate StageAgrees(d: Device) {
    CommissioningByte(d.stage) == STAT_COMMISSIONED <==> d.own.ownerSet || HasSessionKey(d.keys)
  }

  predicate Consistent(d: Device) {
    && StageAgrees(d)
    && SLOT_CLAIM_TOKEN in d.keys
    && (d.own.ownerSet <==> !d.own.uncommissioned)
  }

  /** Each tier stands on the one below it. */
  predicate LadderStands(d: Device) {
    && (SLOT_OPERATOR in d.keys ==> SLOT_INTEGRATOR in d.keys)
    && (SLOT_INTEGRATOR in d.keys ==> SLOT_PROVISIONING in d.keys)
    && (d.stage == Operational ==> SLOT_OPERATOR in d.keys)
  }

  /** Write-once: filled slots keep key and id. */
  predicate KeysKept(before: KeyStore, after: KeyStore) {
    forall k :: k in before ==> k in after && after[k] == before[k]
  }

  lemma StepConsistent(o: Origin, d: Device, m: Move)
    requires Consistent(d) && Authorized(d, m)
    ensures Consistent(Apply(o, d, m))
    ensures LadderStands(d) ==> LadderStands(Apply(o, d, m))
  {
    hide ClaimAccepted, InstallAccepted;
  }

  lemma StepKeepsKeys(o: Origin, d: Device, m: Move)
    ensures m != Restore ==> KeysKept(d.keys, Apply(o, d, m).keys)
    ensures SLOT_CLAIM_TOKEN in d.keys ==> SLOT_CLAIM_TOKEN in Apply(o, d, m).keys
    ensures (d.own.ownerSet <==> !d.own.uncommissioned) ==>
              (Apply(o, d, m).own.ownerSet <==> !Apply(o, d, m).own.uncommissioned)
  {
    hide ClaimAccepted, InstallAccepted;
  }

  /**
   * An installed rung leaves the ladder standing exactly when the device held
   * the key that authorized it, and the commissioned byte right exactly then,
   * for the Operator rung, and on an owned device. A write poll names the key
   * of the last single write instead, which may be gone.
   */
  lemma RungNeedsItsKey(o: Origin, d: Device, authorizing: byte, body: seq<byte>)
    requires Consistent(d) && LadderStands(d) && HandleKeySet(d, authorizing, body).1 == NO_ABORT
    ensures LadderStands(Apply(o, d, Rung(authorizing, body))) <==> authorizing in d.keys
    ensures StageAgrees(Apply(o, d, Rung(authorizing, body))) <==>
            authorizing in d.keys || body[0] == SLOT_OPERATOR || d.own.ownerSet
  {
  }

  lemma BootConsistent(o: Origin, loaded: KeyStore)
    ensures Consistent(Boot(o, loaded))
    ensures !HasSessionKey(loaded) ==> LadderStands(Boot(o, loaded))
  {
  }

  /**
   * Over every run from boot: C001h:01h reads commissioned exactly when an
   * owner is set or one of slots 1..3 is filled, the claim token is seated,
   * and an owner is set exactly when the device is not unclaimed.
   */
  lemma {:induction false} RunConsistent(o: Origin, loaded: KeyStore, moves: seq<Move>)
    requires AllAuthorized(o, Boot(o, loaded), moves)
    ensures Consistent(RunMoves(o, Boot(o, loaded), moves))
    ensures !HasSessionKey(loaded) ==> LadderStands(RunMoves(o, Boot(o, loaded), moves))
  {
    hide Apply, Boot, Consistent, LadderStands;
    BootConsistent(o, loaded);
    if moves != [] {
      var n := |moves| - 1;
      AllAuthorizedPrefix(o, Boot(o, loaded), moves, n);
      RunConsistent(o, loaded, moves[..n]);
      StepConsistent(o, RunMoves(o, Boot(o, loaded), moves[..n]), moves[n]);
    }
  }

  /** Every rung of the run was installed. */
  ghost predicate AllInstalled(o: Origin, d: Device, moves: seq<Move>) {
    forall k :: 0 <= k < |moves| ==> Installed(RunMoves(o, d, moves[..k]), moves[k])
  }

  ghost predicate LadderAlwaysStands(o: Origin, d: Device, moves: seq<Move>) {
    forall n :: 0 <= n <= |moves| ==> LadderStands(RunMoves(o, d, moves[..n]))
  }

  /** Over every run of installed rungs from a keyless boot, the ladder stands all along exactly when each rung was authorized by a key in place. */
  lemma {:induction false} LadderStandsIffAuthorized(o: Origin, loaded: KeyStore, moves: seq<Move>)
    requires !HasSessionKey(loaded) && AllInstalled(o, Boot(o, loaded), moves)
    ensures LadderAlwaysStands(o, Boot(o, loaded), moves) <==> AllAuthorized(o, Boot(o, loaded), moves)
  {
    hide Apply, Boot, LadderStands, Consistent, HandleKeySet, HasSessionKey;
    var d := Boot(o, loaded);
    if AllAuthorized(o, d, moves) {
      forall n | 0 <= n <= |moves| ensures LadderStands(RunMoves(o, d, moves[..n])) {
        AllAuthorizedPrefix(o, d, moves, n);
        RunConsistent(o, loaded, moves[..n]);
      }
    } else {
      var k := FirstUnauthorized(o, d, moves);
      RunConsistent(o, loaded, moves[..k]);
      RungNeedsItsKey(o, RunMoves(o, d, moves[..k]), moves[k].authorizing, moves[k].body);
      assert moves[..k + 1][..k] == moves[..k];
      assert !LadderStands(RunMoves(o, d, moves[..k + 1]));
    }
  }

  lemma FirstUnauthorized(o: Origin, d: Device, moves: seq<Move>) returns (k: nat)
    requires !AllAuthorized(o, d, moves)
    ensures k < |moves| && !Authorized(RunMoves(o, d, moves[..k]), moves[k]) && AllAuthorized(o, d, moves[..k])
  {
    k := 0;
    while Authorized(RunMoves(o, d, moves[..k]), moves[k])
      invariant k < |moves| && forall j :: 0 <= j < k ==> Authorized(RunMoves(o, d, moves[..j]), moves[j])
      decreases |moves| - k
    {
      k := k + 1;
    }
    forall j | 0 <= j < k ensures Authorized(RunMoves(o, d, moves[..k][..j]), moves[..k][j]) {
      assert moves[..k][..j] == moves[..j];
    }
  }

  /** From a keyless boot, Operator implies Integrator implies Provisioning, and Operational implies all three. */
  lemma KeylessLadder(o: Origin, loaded: KeyStore, moves: seq<Move>)
    requires !HasSessionKey(loaded) && AllAuthorized(o, Boot(o, loaded), moves)
    ensures var d := RunMoves(o, Boot(o, loaded), moves);
            && (SLOT_OPERATOR in d.keys ==> SLOT_INTEGRATOR in d.keys && SLOT_PROVISIONING in d.keys)
            && (SLOT_INTEGRATOR in d.keys ==> SLOT_PROVISIONING in d.keys)
            && (d.stage == Operational ==>
                  SLOT_OPERATOR in d.keys && SLOT_INTEGRATOR in d.keys && SLOT_PROVISIONING in d.keys)
  {
    RunConsistent(o, loaded, moves);
  }

  /** Whatever authorized the rungs: without a reset no filled slot changes, over any number of moves. */
  lemma {:induction false} KeysChangeOnlyByReset(o: Origin, d: Device, moves: seq<Move>)
    requires Restore !in moves
    ensures KeysKept(d.keys, RunMoves(o, d, moves).keys)
  {
    hide Apply;
    if moves != [] {
      var n := |moves| - 1;
      KeysChangeOnlyByReset(o, d, moves[..n]);
      StepKeepsKeys(o, RunMoves(o, d, moves[..n]), moves[n]);
    }
  }

  /** And always: the claim token stays seated, and an owner is set exactly when the device is not unclaimed. */
  lemma {:induction false} TokenStaysSeated(o: Origin, loaded: KeyStore, moves: seq<Move>)
    ensures var d := RunMoves(o, Boot(o, loaded), moves);
            SLOT_CLAIM_TOKEN in d.keys && (d.own.ownerSet <==> !d.own.uncommissioned)
  {
    hide Apply;
    if moves != [] {
      var n := |moves| - 1;
      TokenStaysSeated(o, loaded, moves[..n]);
      StepKeepsKeys(o, RunMoves(o, Boot(o, loaded), moves[..n]), moves[n]);
    }
  }

  /* ---- Ownership ---- */

  /** The vouchers accepted in a run, in order. */
  function AcceptedVouchers(o: Origin, d: Device, moves: seq<Move>): seq<seq<byte>> {
    if moves == [] then []
    else
      var n := |moves| - 1;
      var before := AcceptedVouchers(o, d, moves[..n]);
      if moves[n].Voucher? && ClaimAccepted(o, RunMoves(o, d, moves[..n]).own, moves[n].bytes) then before + [moves[n].bytes]
      else before
  }

  ghost predicate Rising(vouchers: seq<seq<byte>>, from: u32, to: u32) {
    && (forall k :: 0 <= k < |vouchers| ==> |vouchers[k]| == VOUCHER_LEN && from < VoucherEpoch(vouchers[k]) <= to)
    && (forall j, k :: 0 <= j < k < |vouchers| ==> VoucherEpoch(vouchers[j]) < VoucherEpoch(vouchers[k]))
  }

  lemma EpochNeverFalls(o: Origin, d: Device, m: Move)
    ensures Apply(o, d, m).own.epoch >= d.own.epoch
    ensures m.Voucher? && ClaimAccepted(o, d.own, m.bytes) ==> Apply(o, d, m).own.epoch == VoucherEpoch(m.bytes) > d.own.epoch
  {
    hide VoucherGenuine, InstallAccepted;
  }

  /** Accepted epochs rise strictly over a whole run, resets included; the device remembers the last. */
  lemma {:induction false} EpochsRise(o: Origin, d: Device, moves: seq<Move>)
    ensures Rising(AcceptedVouchers(o, d, moves), d.own.epoch, RunMoves(o, d, moves).own.epoch)
    ensures d.own.epoch <= RunMoves(o, d, moves).own.epoch
  {
    hide Apply;
    if moves != [] {
      var n := |moves| - 1;
      EpochsRise(o, d, moves[..n]);
      EpochNeverFalls(o, RunMoves(o, d, moves[..n]), moves[n]);
    }
  }

  lemma NoVoucherTwice(o: Origin, d: Device, moves: seq<Move>, j: nat, k: nat)
    requires j < k < |AcceptedVouchers(o, d, moves)|
    ensures AcceptedVouchers(o, d, moves)[j] != AcceptedVouchers(o, d, moves)[k]
  {
    EpochsRise(o, d, moves);
  }

  lemma ClaimNeedsReset(o: Origin, d: Device, m: Move)
    ensures m != Restore && !d.own.uncommissioned ==> !Apply(o, d, m).own.uncommissioned
    ensures m.Voucher? && ClaimAccepted(o, d.own, m.bytes) ==> d.own.uncommissioned && !Apply(o, d, m).own.uncommissioned
  {
    hide VoucherGenuine, InstallAccepted;
  }

  /** A claimed device accepts no voucher until it is reset: two claims are separated by a reset. */
  lemma {:induction false} ClaimsAreSeparated(o: Origin, d: Device, moves: seq<Move>)
    requires !d.own.uncommissioned && Restore !in moves
    ensures AcceptedVouchers(o, d, moves) == [] && !RunMoves(o, d, moves).own.uncommissioned
  {
    hide Apply, ClaimAccepted;
    if moves != [] {
      var n := |moves| - 1;
      ClaimsAreSeparated(o, d, moves[..n]);
      ClaimNeedsReset(o, RunMoves(o, d, moves[..n]), moves[n]);
    }
  }

  /* ---- The client's voucher ---- */

  function BuildVoucher(s: Scheme, manufacturer: Seed, serial: Serial, integrator: PubKey, epoch: u32): (r: seq<byte>)
    ensures |r| == VOUCHER_LEN
  {
    var body := serial + integrator + Le32(epoch);
    body + s.sign(manufacturer, Transcript(RD_VOUCHER, body))
  }

  lemma VoucherReadsBack(s: Scheme, manufacturer: Seed, serial: Serial, integrator: PubKey, epoch: u32)
    ensures var v := BuildVoucher(s, manufacturer, serial, integrator, epoch);
            && v[..8] == serial && v[8..40] == integrator && VoucherEpoch(v) == epoch
            && v[44..] == s.sign(manufacturer, VoucherTranscript(v))
  {
    var v := BuildVoucher(s, manufacturer, serial, integrator, epoch);
    var body := serial + integrator + Le32(epoch);
    assert v[..44] == body;
    assert v[40..44] == Le32(epoch) && v[8..40] == integrator && v[..8] == serial;
    Le32RoundTrip(epoch);
  }

  /** One past the epoch just read, in 32 bits; 2 when it could not be read. */
  function MintedEpoch(read: Option<u32>): u32 {
    if read.Some? then (read.value + 1) % 0x1_0000_0000 else 2
  }

  /**
   * The voucher the client mints, for the device's own serial and signed by
   * its manufacturer, is accepted exactly on an unclaimed device whose epoch
   * is below 2^32 - 1; unread, exactly below 2.
   */
  lemma MintedVoucherAccepted(o: Origin, own: Ownership, manufacturer: Seed, integrator: PubKey, read: Option<u32>)
    requires Correct(o.scheme) && o.anchor == o.scheme.public(manufacturer)
    requires read.Some? ==> read.value == own.epoch
    ensures var v := BuildVoucher(o.scheme, manufacturer, o.serial, integrator, MintedEpoch(read));
            && (ClaimAccepted(o, own, v) <==>
                  own.uncommissioned && own.epoch < (if read.Some? then 0xFFFF_FFFF else 2))
            && (ClaimAccepted(o, own, v) ==>
                  Claim(o, own, v).0 == own.(owner := integrator, ownerSet := true, epoch := MintedEpoch(read), uncommissioned := false))
  {
    var epoch := MintedEpoch(read);
    var v := BuildVoucher(o.scheme, manufacturer, o.serial, integrator, epoch);
    VoucherReadsBack(o.scheme, manufacturer, o.serial, integrator, epoch);
    assert o.scheme.verify(o.scheme.public(manufacturer), VoucherTranscript(v), o.scheme.sign(manufacturer, VoucherTranscript(v)));
  }

  function BuildProvision(s: Scheme, integrator: Seed, key: Key): (r: seq<byte>)
    ensures |r| == PROVISION_LEN
  {
    key + s.sign(integrator, Transcript(RD_PKINSTALL_ACK, key))
  }

  /**
   * The ownership path: mint, claim, install. On an unclaimed device with room
   * for a higher epoch it leaves the integrator as owner and the client's key
   * in the Provisioning slot, unless that slot was filled before.
   */
  lemma OwnershipPath(o: Origin, d: Device, manufacturer: Seed, integrator: Seed, key: Key)
    requires Correct(o.scheme) && o.anchor == o.scheme.public(manufacturer)
    requires d.own.uncommissioned && d.own.epoch < 0xFFFF_FFFF
    ensures var v := BuildVoucher(o.scheme, manufacturer, o.serial, o.scheme.public(integrator), MintedEpoch(Some(d.own.epoch)));
            var claimed := HandleVoucher(o, d, v);
            var r := HandleProvision(o, claimed.0, BuildProvision(o.scheme, integrator, key));
            && claimed.1 == NO_ABORT && r.1 == NO_ABORT
            && r.0.stage == Owned && r.0.own.owner == o.scheme.public(integrator) && r.0.own.ownerSet
            && r.0.own.epoch == d.own.epoch + 1 && r.0.own.provisioning == key
            && r.0.keys == (if SLOT_PROVISIONING in d.keys then d.keys
                            else d.keys[SLOT_PROVISIONING := KeyRecord(key, ID_PROVISIONING)])
  {
    hide ClaimAccepted;
    MintedVoucherAccepted(o, d.own, manufacturer, o.scheme.public(integrator), Some(d.own.epoch));
    var p := BuildProvision(o.scheme, integrator, key);
    assert p[..16] == key && p[16..] == o.scheme.sign(integrator, Transcript(RD_PKINSTALL_ACK, key));
    assert o.scheme.verify(o.scheme.public(integrator), Transcript(RD_PKINSTALL_ACK, key),
                           o.scheme.sign(integrator, Transcript(RD_PKINSTALL_ACK, key)));
  }
}
