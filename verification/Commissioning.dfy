/**
 * Ownership and keys on the device: the key ladder, the ownership voucher, the
 * provisioning install, the reset, and the lifecycle stage they all move. The
 * state is spread over four stores that are updated in place; the class keeps
 * them as fields, and each operation is proved to do what its function says.
 */
module Commissioning {
  import opened Bytes
  import opened Aborts
  import opened Aead
  import opened Asym
  import opened SecureOd

  const SLOT_PROVISIONING: byte := 1
  const SLOT_INTEGRATOR: byte := 2
  const SLOT_OPERATOR: byte := 3
  const SLOT_CLAIM_TOKEN: byte := 4
  const ID_CLAIM_TOKEN: u32 := 0x1000
  const ID_PROVISIONING: u32 := 0x1001
  const ID_INTEGRATOR: u32 := 0x1002
  const ID_OPERATOR: u32 := 0x1003

  const KEY_SET_BODY_LEN := 1 + 4 + KEY_SIZE
  const SERIAL_LEN := 8
  const VOUCHER_BODY_LEN := SERIAL_LEN + PUBKEY_SIZE + 4
  const VOUCHER_LEN := VOUCHER_BODY_LEN + SIG_SIZE
  const PROVISION_LEN := KEY_SIZE + SIG_SIZE
  const EPOCH_START: u32 := 1

  const STAT_UNCOMMISSIONED: byte := 0
  const STAT_COMMISSIONED: byte := 1

  datatype Stage = Factory | Uncommissioned | Owned | Operational | Decommissioned

  /** The status byte of C001h:01h. */
  function CommissioningByte(stage: Stage): byte {
    match stage
    case Owned => STAT_COMMISSIONED
    case Operational => STAT_COMMISSIONED
    case _ => STAT_UNCOMMISSIONED
  }

  type Serial = s: seq<byte> | |s| == SERIAL_LEN witness Zeros(SERIAL_LEN)

  /** What the factory put into the device. */
  datatype Origin = Origin(scheme: Scheme, anchor: PubKey, serial: Serial, claimToken: Key)

  datatype Ownership = Ownership(owner: PubKey, ownerSet: bool, epoch: u32, uncommissioned: bool,
                                 provisioning: Key, provisioningSet: bool)

  const UNOWNED := Ownership(Zeros(PUBKEY_SIZE), false, EPOCH_START, true, Zeros(KEY_SIZE), false)

  datatype Device = Device(keys: KeyStore, stage: Stage, own: Ownership)

  /* ---- The key ladder ---- */

  /** The tier below, which must authorize installing a tier. */
  function NeededFor(selector: byte): Option<byte> {
    if selector == SLOT_PROVISIONING then Some(SLOT_CLAIM_TOKEN)
    else if selector == SLOT_INTEGRATOR then Some(SLOT_PROVISIONING)
    else if selector == SLOT_OPERATOR then Some(SLOT_INTEGRATOR)
    else None
  }

  function StageFor(keys: KeyStore, stage: Stage): Stage {
    if SLOT_OPERATOR in keys then Operational else if SLOT_PROVISIONING in keys then Owned else stage
  }

  datatype KeySetResult = KeySetResult(keys: KeyStore, stage: Stage, abort: byte)

  /** One rung: selector, key id, key. */
  function ApplyKeySet(keys: KeyStore, stage: Stage, authorizing: byte, body: seq<byte>): (r: KeySetResult)
    ensures r.abort != NO_ABORT ==> r.keys == keys && r.stage == stage
  {
    if |body| != KEY_SET_BODY_LEN then KeySetResult(keys, stage, TYPE_MISMATCH)
    else
      var selector := body[0];
      var need := NeededFor(selector);
      if need.None? then KeySetResult(keys, stage, TYPE_MISMATCH)
      else if authorizing != need.value then KeySetResult(keys, stage, ROLE_DENIED)
      else
        var put := SetKey(keys, selector, body[5..], FromLe32(body[1..5]));
        if !put.1 then KeySetResult(keys, stage, DEVICE_STATE)
        else KeySetResult(put.0, StageFor(put.0, stage), NO_ABORT)
  }

  function WithToken(o: Origin, keys: KeyStore): KeyStore {
    SetKey(keys, SLOT_CLAIM_TOKEN, o.claimToken, ID_CLAIM_TOKEN).0
  }

  /* ---- Ownership ---- */

  function VoucherTranscript(voucher: seq<byte>): seq<byte>
    requires |voucher| == VOUCHER_LEN
  {
    Transcript(RD_VOUCHER, voucher[..44])
  }

  function VoucherEpoch(voucher: seq<byte>): u32
    requires |voucher| == VOUCHER_LEN
  {
    FromLe32(voucher[40..44])
  }

  predicate VoucherGenuine(o: Origin, voucher: seq<byte>) {
    |voucher| == VOUCHER_LEN && o.scheme.verify(o.anchor, VoucherTranscript(voucher), voucher[44..])
  }

  /** Genuine, for this device, for an unclaimed device, and newer than any owner before. */
  predicate ClaimAccepted(o: Origin, own: Ownership, voucher: seq<byte>) {
    VoucherGenuine(o, voucher) && voucher[..8] == o.serial && own.uncommissioned && VoucherEpoch(voucher) > own.epoch
  }

  function Claim(o: Origin, own: Ownership, voucher: seq<byte>): (Ownership, bool) {
    if !ClaimAccepted(o, own, voucher) then (own, false)
    else (own.(owner := voucher[8..40], ownerSet := true, epoch := VoucherEpoch(voucher), uncommissioned := false), true)
  }

  predicate InstallAccepted(o: Origin, own: Ownership, payload: seq<byte>) {
    && |payload| == PROVISION_LEN && own.ownerSet
    && o.scheme.verify(own.owner, Transcript(RD_PKINSTALL_ACK, payload[..16]), payload[16..])
  }

  function InstallProvisioning(o: Origin, own: Ownership, payload: seq<byte>): (Ownership, bool) {
    if !InstallAccepted(o, own, payload) then (own, false)
    else (own.(provisioning := payload[..16], provisioningSet := true), true)
  }

  function Disown(own: Ownership): Ownership {
    own.(owner := Zeros(PUBKEY_SIZE), ownerSet := false, provisioning := Zeros(KEY_SIZE), provisioningSet := false,
         uncommissioned := true)
  }

  /* ---- The handlers on the whole device ---- */

  function HandleVoucher(o: Origin, d: Device, voucher: seq<byte>): (Device, byte) {
    var r := Claim(o, d.own, voucher);
    if r.1 then (d.(own := r.0, stage := Owned), NO_ABORT) else (d, VOUCHER)
  }

  function HandleProvision(o: Origin, d: Device, payload: seq<byte>): (Device, byte) {
    var r := InstallProvisioning(o, d.own, payload);
    if !r.1 then (d, SIG_VERIFY)
    else
      (Device(SetKey(d.keys, SLOT_PROVISIONING, r.0.provisioning, ID_PROVISIONING).0, Owned, r.0), NO_ABORT)
  }

  function HandleKeySet(d: Device, authorizing: byte, body: seq<byte>): (Device, byte) {
    var r := ApplyKeySet(d.keys, d.stage, authorizing, body);
    (d.(keys := r.keys, stage := r.stage), r.abort)
  }

  function Reset(o: Origin, d: Device): Device {
    Device(WithToken(o, map[]), Uncommissioned, Disown(d.own))
  }

  predicate HasSessionKey(keys: KeyStore) {
    SLOT_PROVISIONING in keys || SLOT_INTEGRATOR in keys || SLOT_OPERATOR in keys
  }

  /** Boot with whatever keys the key file or the demo option put in place. */
  function Boot(o: Origin, loaded: KeyStore): Device {
    Device(WithToken(o, loaded), if HasSessionKey(loaded) then Operational else Uncommissioned, UNOWNED)
  }

  /* ---- The device object ---- */

  class Commissioner {
    const origin: Origin
    var keys: KeyStore
    var stage: Stage
    var owner: PubKey
    var ownerSet: bool
    var ownerEpoch: u32
    var uncommissioned: bool
    var provisioningKey: Key
    var provisioningSet: bool

    ghost function Own(): Ownership
      reads this
    {
      Ownership(owner, ownerSet, ownerEpoch, uncommissioned, provisioningKey, provisioningSet)
    }

    ghost function Model(): Device
      reads this
    {
      Device(keys, stage, Own())
    }

    constructor (origin: Origin, loaded: KeyStore)
      ensures this.origin == origin && Model() == Boot(origin, loaded)
    {
      this.origin := origin;
      stage := Factory;
      owner, ownerSet, provisioningKey, provisioningSet := Zeros(PUBKEY_SIZE), false, Zeros(KEY_SIZE), false;
      ownerEpoch, uncommissioned := EPOCH_START, true;
      keys := loaded;
      new;
      InstallClaimToken();
      stage := if HasSessionKey(keys) then Operational else Uncommissioned;
    }

    method InstallClaimToken()
      modifies `keys
      ensures keys == WithToken(origin, old(keys))
    {
      if SLOT_CLAIM_TOKEN !in keys {
        keys := keys[SLOT_CLAIM_TOKEN := KeyRecord(origin.claimToken, ID_CLAIM_TOKEN)];
      }
    }

    method InstallRung(authorizing: byte, body: seq<byte>) returns (abort: byte)
      modifies `keys, `stage
      ensures (Model(), abort) == HandleKeySet(old(Model()), authorizing, body)
    {
      if |body| != KEY_SET_BODY_LEN {
        return TYPE_MISMATCH;
      }
      var selector, idValue, need := body[0], FromLe32(body[1..5]), NeededFor(body[0]);
      if need.None? {
        return TYPE_MISMATCH;
      }
      if authorizing != need.value {
        return ROLE_DENIED;
      }
      if selector in keys {
        return DEVICE_STATE;
      }
      keys := keys[selector := KeyRecord(body[5..], idValue)];
      if SLOT_OPERATOR in keys {
        stage := Operational;
      } else if SLOT_PROVISIONING in keys {
        stage := Owned;
      }
      return NO_ABORT;
    }

    method TakeOwnership(voucher: seq<byte>) returns (ok: bool)
      modifies `owner, `ownerSet, `ownerEpoch, `uncommissioned
      ensures (Own(), ok) == Claim(origin, old(Own()), voucher)
    {
      if |voucher| != VOUCHER_LEN {
        return false;
      }
      var epoch := FromLe32(voucher[40..44]);
      var transcript := new byte[TRANSCRIPT_OVERHEAD + VOUCHER_BODY_LEN];
      var n := TranscriptInto(RD_VOUCHER, voucher[..44], transcript);
      if n == 0 || !origin.scheme.verify(origin.anchor, transcript[..n], voucher[44..]) {
        return false;
      }
      if voucher[..8] != origin.serial || !uncommissioned || epoch <= ownerEpoch {
        return false;
      }
      owner := voucher[8..40];
      ownerSet := true;
      ownerEpoch := epoch;
      uncommissioned := false;
      return true;
    }

    method AcceptProvisioning(payload: seq<byte>) returns (ok: bool)
      modifies `provisioningKey, `provisioningSet
      ensures (Own(), ok) == InstallProvisioning(origin, old(Own()), payload)
    {
      if |payload| != PROVISION_LEN {
        return false;
      }
      var transcript := new byte[TRANSCRIPT_OVERHEAD + KEY_SIZE];
      var n := TranscriptInto(RD_PKINSTALL_ACK, payload[..16], transcript);
      if !ownerSet || n == 0 || !origin.scheme.verify(owner, transcript[..n], payload[16..]) {
        return false;
      }
      provisioningKey := payload[..16];
      provisioningSet := true;
      return true;
    }

    method ServeVoucher(voucher: seq<byte>) returns (status: byte)
      modifies this
      ensures (Model(), status) == HandleVoucher(origin, old(Model()), voucher)
    {
      var ok := TakeOwnership(voucher);
      if ok {
        stage := Owned;
      }
      return if ok then NO_ABORT else VOUCHER;
    }

    method ServeProvision(payload: seq<byte>) returns (status: byte)
      modifies this
      ensures (Model(), status) == HandleProvision(origin, old(Model()), payload)
    {
      var ok := AcceptProvisioning(payload);
      if ok {
        if SLOT_PROVISIONING !in keys {
          keys := keys[SLOT_PROVISIONING := KeyRecord(provisioningKey, ID_PROVISIONING)];
        }
        stage := Owned;
      }
      return if ok then NO_ABORT else SIG_VERIFY;
    }

    method ResetDevice()
      modifies this
      ensures Model() == Reset(origin, old(Model()))
    {
      keys := map[];
      InstallClaimToken();
      owner, ownerSet := Zeros(PUBKEY_SIZE), false;
      provisioningKey, provisioningSet := Zeros(KEY_SIZE), false;
      uncommissioned := true;
      stage := Uncommissioned;
    }
  }
}
