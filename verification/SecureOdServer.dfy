/**
 * The secure object dictionary as the server keeps it: one object whose
 * registry, slots, key store and authorizing-key note are updated in place.
 * Every handler is proved to do what its transition function says.
 */
module SecureOdServer {
  import opened Bytes
  import opened Aborts
  import opened Aead
  import opened SecureOd

  class Server<A> {
    const port: Port<A>
    var registry: seq<Entry>
    var readSlot: seq<ReadSlot>
    var writeSlot: seq<WriteSlot>
    var keys: KeyStore
    var lastWriteKid: byte
    var app: A

    ghost function Model(): Sod<A>
      reads this
    {
      Sod(registry, readSlot, writeSlot, keys, lastWriteKid, app)
    }

    ghost predicate Valid()
      reads this
    {
      Model().Valid()
    }

    constructor (port: Port<A>, app: A)
      ensures Valid() && this.port == port && Model() == Sod([], [], [], map[], KEY_NONE, app)
    {
      this.port, this.app := port, app;
      registry, readSlot, writeSlot := [], [], [];
      keys, lastWriteKid := map[], KEY_NONE;
    }

    /** Replaces the entry with the same data_id or appends; long entries and a full registry are refused. */
    method RegisterEntry(e: Entry) returns (ok: bool)
      requires Valid()
      modifies this
      ensures Valid()
      ensures var i := FindIndex(old(registry), e.dataId);
              && (ok <==> e.dataLen <= MAX_PROTECTED && (i < old(|registry|) || i < MAX_ENTRIES))
              && Model() == (
                   if !ok then old(Model())
                   else if i < old(|registry|) then old(Model()).(entries := old(registry)[i := e])
                   else old(Model()).(entries := old(registry) + [e],
                                      readSlots := old(readSlot) + [EMPTY_READ],
                                      writeSlots := old(writeSlot) + [EMPTY_WRITE]))
    {
      if e.dataLen > MAX_PROTECTED {
        return false;
      }
      var i := FindIndex(registry, e.dataId);
      if i < |registry| {
        registry := registry[i := e];
        return true;
      }
      if |registry| >= MAX_ENTRIES {
        return false;
      }
      registry, readSlot, writeSlot := registry + [e], readSlot + [EMPTY_READ], writeSlot + [EMPTY_WRITE];
      return true;
    }

    method SetKeyEx(slot: byte, key: Key, idValue: u32) returns (ok: bool)
      modifies `keys
      ensures (keys, ok) == SetKey(old(keys), slot, key, idValue)
    {
      if slot < 1 || slot > KEY_SLOTS || slot in keys {
        return false;
      }
      keys := keys[slot := KeyRecord(key, idValue)];
      return true;
    }

    method ClearKeys()
      modifies `keys
      ensures keys == map[]
    {
      keys := map[];
    }

    method ArmReadResponse(i: nat, q: Request) returns (reply: Reply)
      requires Valid() && i < |registry| && |q.body| == READ_CHALLENGE_LEN
      modifies `readSlot, `app
      ensures var r := WithRead(old(Model()), i, ArmRead(port, registry[i], old(readSlot[i]), old(app), keys, q));
              Model() == r.sod && reply == r.reply
    {
      var e, slot := registry[i], readSlot[i];
      var kid, clientRandom := q.body[0], q.body[1..];
      assert readSlot[i := slot] == readSlot;
      if ReservedBits(kid) != 0 || (e.keyId != KEY_NONE && BaseId(kid) != e.keyId) {
        return Refused(KEY_ID);
      }
      if BaseId(kid) !in keys {
        return Refused(KEY_ID);
      }
      if !port.accessAllowed(app, OpRead, e.dataId) {
        return Refused(DEVICE_STATE);
      }
      if !port.roleAllowed(app, OpRead, BaseId(kid), e.dataId) {
        return Refused(ROLE_DENIED);
      }
      if HeldByOther(slot.inUse, slot.cyclic, slot.clientDev, slot.armedAt, q) {
        return Refused(DEVICE_STATE);
      }
      var h := port.readBefore(app, e.dataId);
      app := h.app;
      if h.abort != NO_ABORT {
        return Refused(h.abort);
      }
      if |h.plain| != e.dataLen || q.random.None? {
        return Refused(INTERNAL);
      }
      var serverRandom := q.random.value;
      var nonce := XorSeq(clientRandom, serverRandom);
      slot := EMPTY_READ;
      slot := slot.(prepared := serverRandom);
      var sealed := Seal(port.gcm, keys[BaseId(kid)].key, nonce, ContextOf(port, DIR_READ_RESPONSE, kid, q.client, e),
                         Some(Randoms(clientRandom, serverRandom)), h.plain);
      slot := slot.(prepared := slot.prepared + sealed.value.text + sealed.value.tag);
      slot := slot.(inUse := true, clientDev := q.client, armedAt := q.now, cyclic := IsCyclic(kid));
      if slot.cyclic {
        slot := slot.(keyId := kid, nonceBase := nonce, counter := 0);
      }
      readSlot := readSlot[i := slot];
      return Deferred;
    }

    method DeliverPrepared(i: nat, q: Request) returns (reply: Reply)
      requires Valid() && i < |registry|
      modifies `readSlot
      ensures var r := WithRead(old(Model()), i, Deliver(old(readSlot[i]), app, q));
              Model() == r.sod && reply == r.reply
    {
      var slot := readSlot[i];
      if |slot.prepared| > q.replyMax {
        readSlot := readSlot[i := slot.(inUse := false)];
        return Refused(INTERNAL);
      }
      reply := Accepted(slot.prepared);
      if slot.cyclic {
        slot := slot.(prepared := [], armedAt := q.now);
      } else {
        slot := slot.(inUse := false);
      }
      readSlot := readSlot[i := slot];
    }

    method HandleReadPoll(i: nat, q: Request) returns (reply: Reply)
      requires Valid() && i < |registry|
      modifies `readSlot, `app
      ensures var r := WithRead(old(Model()), i, ReadPoll(port, registry[i], old(readSlot[i]), old(app), keys, q));
              Model() == r.sod && reply == r.reply
    {
      hide Seal, SessionNonce;
      var e, slot := registry[i], readSlot[i];
      assert readSlot[i := slot] == readSlot;
      if !slot.inUse || !slot.cyclic || slot.clientDev != q.client {
        return Refused(NO_SESSION);
      }
      if !SessionFresh(q.now, slot.armedAt) {
        readSlot := readSlot[i := slot.(inUse := false)];
        return Refused(NO_SESSION);
      }
      if |q.body| != 1 {
        return Refused(LengthAbort(|q.body|, 1));
      }
      if q.replyMax < 1 + e.dataLen + TAG_SIZE {
        return Refused(INTERNAL);
      }
      if slot.counter >= KEY_USE_LIMIT {
        readSlot := readSlot[i := slot.(inUse := false)];
        return Refused(KEY_BUDGET);
      }
      var expected := slot.counter + 1;
      if expected % 0x100 != q.body[0] {
        return Refused(POLL_COUNTER);
      }
      if !port.accessAllowed(app, OpRead, e.dataId) {
        return Refused(DEVICE_STATE);
      }
      if !port.roleAllowed(app, OpRead, BaseId(slot.keyId), e.dataId) {
        return Refused(ROLE_DENIED);
      }
      var h := port.readBefore(app, e.dataId);
      app := h.app;
      if h.abort != NO_ABORT {
        return Refused(h.abort);
      }
      if |h.plain| != e.dataLen {
        return Refused(INTERNAL);
      }
      if BaseId(slot.keyId) !in keys {
        return Refused(KEY_ID);
      }
      var sealed := Seal(port.gcm, keys[BaseId(slot.keyId)].key, SessionNonce(slot.nonceBase, expected),
                         ContextOf(port, DIR_READ_POLL_RESPONSE, slot.keyId, slot.clientDev, e), None, h.plain);
      readSlot := readSlot[i := slot.(counter := expected, armedAt := q.now)];
      return Accepted([expected % 0x100] + sealed.value.text + sealed.value.tag);
    }

    method ArmWriteChallenge(i: nat, q: Request, kid: Option<byte>) returns (reply: Reply)
      requires Valid() && i < |registry|
      modifies `writeSlot
      ensures var r := WithWrite(old(Model()), i,
                                 ArmWrite(port, registry[i], old(writeSlot[i]), app, keys, lastWriteKid, q, kid));
              Model() == r.sod && reply == r.reply
    {
      var e, slot := registry[i], writeSlot[i];
      assert writeSlot[i := slot] == writeSlot;
      if !port.accessAllowed(app, OpWrite, e.dataId) {
        return Refused(DEVICE_STATE);
      }
      if kid.Some? {
        if ReservedBits(kid.value) != 0 || !IsCyclic(kid.value) {
          return Refused(KEY_ID);
        }
        if (e.keyId != KEY_NONE && BaseId(kid.value) != e.keyId) || BaseId(kid.value) !in keys {
          return Refused(KEY_ID);
        }
        if !port.roleAllowed(app, OpWrite, BaseId(kid.value), e.dataId) {
          return Refused(ROLE_DENIED);
        }
      }
      if q.replyMax < RAND_SIZE || q.random.None? {
        return Refused(INTERNAL);
      }
      if HeldByOther(slot.inUse, slot.cyclic, slot.clientDev, slot.armedAt, q) {
        return Refused(DEVICE_STATE);
      }
      slot := EMPTY_WRITE.(inUse := true, cyclic := kid.Some?, clientDev := q.client, armedAt := q.now);
      slot := slot.(keyId := if kid.Some? then kid.value else 0, serverRandom := q.random.value);
      writeSlot := writeSlot[i := slot];
      return Accepted(q.random.value);
    }

    /** Ends a Pass-2 attempt: the slot is freed and the request refused. */
    method FreeAndRefuse(i: nat, code: byte) returns (reply: Reply)
      requires i < |writeSlot|
      modifies `writeSlot
      ensures writeSlot == old(writeSlot)[i := old(writeSlot[i]).(inUse := false)] && reply == Refused(code)
    {
      writeSlot := writeSlot[i := writeSlot[i].(inUse := false)];
      return Refused(code);
    }

    method CheckPassTwo(i: nat, q: Request) returns (code: byte)
      requires Valid() && i < |registry|
      ensures code == PassTwoCheck(port, registry[i], writeSlot[i], app, keys, q)
    {
      var e := registry[i];
      if !ChallengeFresh(q.now, writeSlot[i].armedAt) {
        return NO_SESSION;
      }
      var expected := 1 + RAND_SIZE + e.dataLen + TAG_SIZE;
      if |q.body| != expected {
        return LengthAbort(|q.body|, expected);
      }
      var kid := q.body[0];
      if ReservedBits(kid) != 0 || (e.keyId != KEY_NONE && BaseId(kid) != e.keyId) || BaseId(kid) !in keys {
        return KEY_ID;
      }
      if !port.roleAllowed(app, OpWrite, BaseId(kid), e.dataId) {
        return ROLE_DENIED;
      }
      return NO_ABORT;
    }

    /** The end of an accepted Pass 2: bit 6 keeps the slot as a session, otherwise it is freed. */
    method KeepOrFree(i: nat, q: Request)
      requires i < |writeSlot| && |q.body| >= 13
      modifies `writeSlot
      ensures writeSlot == old(writeSlot)[i :=
                if IsCyclic(q.body[0])
                then old(writeSlot[i]).(cyclic := true, armedAt := q.now, counter := 0,
                                        nonceBase := XorSeq(q.body[1..13], old(writeSlot[i]).serverRandom))
                else old(writeSlot[i]).(inUse := false)]
    {
      var slot := writeSlot[i];
      if IsCyclic(q.body[0]) {
        slot := slot.(cyclic := true, nonceBase := XorSeq(q.body[1..13], slot.serverRandom), counter := 0);
        slot := slot.(armedAt := q.now);
      } else {
        slot := slot.(inUse := false);
      }
      writeSlot := writeSlot[i := slot];
    }

    method OpenAndApply(i: nat, q: Request) returns (reply: Reply)
      requires Valid() && i < |registry|
      requires PassTwoCheck(port, registry[i], writeSlot[i], app, keys, q) == NO_ABORT && writeSlot[i].inUse
      modifies `writeSlot, `app, `keys, `lastWriteKid
      ensures var r := ApplyPassTwo(port, registry[i], old(writeSlot[i]), old(app), old(keys), old(lastWriteKid), q);
              && writeSlot == old(writeSlot)[i := r.slot] && app == r.app && keys == r.keys
              && lastWriteKid == r.lastKid && reply == r.reply
    {
      hide OpenPassTwo;
      var e, slot, kid := registry[i], writeSlot[i], q.body[0];
      var base := BaseId(kid);
      writeSlot := writeSlot[i := slot.(keyId := kid)];
      var plain := OpenPassTwo(port, e, slot, keys[base].key, q.body);
      if plain.None? {
        reply := FreeAndRefuse(i, TAG_VERIFY);
        return;
      }
      lastWriteKid := base;
      var h := port.writeAfter(app, keys, base, e.dataId, plain.value);
      app, keys := h.app, h.keys;
      if h.abort != NO_ABORT {
        reply := FreeAndRefuse(i, h.abort);
        return;
      }
      KeepOrFree(i, q);
      return Accepted([]);
    }

    method VerifyAndApplyWrite(i: nat, q: Request) returns (reply: Reply)
      requires Valid() && i < |registry|
      modifies `writeSlot, `app, `keys, `lastWriteKid
      ensures var r := WithWrite(old(Model()), i, VerifyApply(port, registry[i], old(writeSlot[i]), old(app), old(keys),
                                                              old(lastWriteKid), q));
              Model() == r.sod && reply == r.reply
    {
      assert writeSlot[i := writeSlot[i]] == writeSlot;
      if !writeSlot[i].inUse {
        return Refused(NO_SESSION);
      }
      var code := CheckPassTwo(i, q);
      if code != NO_ABORT {
        reply := FreeAndRefuse(i, code);
        return;
      }
      reply := OpenAndApply(i, q);
    }

    method HandleWritePoll(i: nat, q: Request) returns (reply: Reply)
      requires Valid() && i < |registry|
      modifies `writeSlot, `app, `keys
      ensures var r := WithWrite(old(Model()), i, WritePoll(port, registry[i], old(writeSlot[i]), old(app), old(keys),
                                                            lastWriteKid, q));
              Model() == r.sod && reply == r.reply
    {
      hide Open, SessionNonce;
      var e, slot := registry[i], writeSlot[i];
      assert writeSlot[i := slot] == writeSlot;
      if !slot.inUse || !slot.cyclic || slot.clientDev != q.client {
        return Refused(NO_SESSION);
      }
      if !SessionFresh(q.now, slot.armedAt) {
        reply := FreeAndRefuse(i, NO_SESSION);
        return;
      }
      var expectedLen := 1 + e.dataLen + TAG_SIZE;
      if |q.body| != expectedLen {
        return Refused(LengthAbort(|q.body|, expectedLen));
      }
      if slot.counter >= KEY_USE_LIMIT {
        reply := FreeAndRefuse(i, KEY_BUDGET);
        return;
      }
      var expected := slot.counter + 1;
      if expected % 0x100 != q.body[0] {
        return Refused(POLL_COUNTER);
      }
      var base := BaseId(slot.keyId);
      if !port.roleAllowed(app, OpWrite, base, e.dataId) {
        return Refused(ROLE_DENIED);
      }
      if base !in keys {
        return Refused(KEY_ID);
      }
      var plain := Open(port.gcm, keys[base].key, SessionNonce(slot.nonceBase, expected),
                        ContextOf(port, DIR_WRITE_POLL_REQUEST, slot.keyId, slot.clientDev, e), None,
                        q.body[1..1 + e.dataLen], q.body[1 + e.dataLen..]);
      if plain.None? {
        return Refused(TAG_VERIFY);
      }
      var h := port.writeAfter(app, keys, lastWriteKid, e.dataId, plain.value);
      app, keys := h.app, h.keys;
      if h.abort != NO_ABORT {
        return Refused(h.abort);
      }
      writeSlot := writeSlot[i := slot.(counter := expected, armedAt := q.now)];
      return Accepted([]);
    }

    method HandleRequest(dataId: u32, q: Request) returns (reply: Reply)
      requires Valid()
      modifies this
      ensures Valid()
      ensures var r := Dispatch(port, old(Model()), dataId, q); Model() == r.sod && reply == r.reply
    {
      hide ReadPoll, WritePoll, ArmRead, ArmWrite, VerifyApply, Deliver;
      DispatchKeepsValid(port, Model(), dataId, q);
      var i := FindIndex(registry, dataId);
      if i == |registry| {
        return NotHandled;
      }
      var e, n := registry[i], |q.body|;
      if e.secureRo && n == 1 && readSlot[i].inUse && readSlot[i].cyclic {
        reply := HandleReadPoll(i, q);
        return;
      }
      if e.secureWo && n == 1 + e.dataLen + TAG_SIZE && writeSlot[i].inUse && writeSlot[i].cyclic {
        reply := HandleWritePoll(i, q);
        return;
      }
      if e.secureRo {
        if n == READ_CHALLENGE_LEN {
          reply := ArmReadResponse(i, q);
          return;
        }
        if n == 0 && Deliverable(readSlot[i], q.now) {
          reply := DeliverPrepared(i, q);
          return;
        }
        if !e.secureWo {
          return Refused(if n == 0 then NO_SESSION else TYPE_MISMATCH);
        }
      }
      if e.secureWo {
        if n == 0 {
          reply := ArmWriteChallenge(i, q, None);
        } else if n == 1 {
          reply := ArmWriteChallenge(i, q, Some(q.body[0]));
        } else {
          reply := VerifyAndApplyWrite(i, q);
        }
        return;
      }
      return Refused(NOT_BUILT);
    }
  }
}
