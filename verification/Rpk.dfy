/**
 * Signed access on the server: one outstanding challenge shared by the signed
 * read, write and command objects, and the device object that keeps it.
 */
module Rpk {
  import opened Bytes
  import opened Aborts
  import opened Asym

  const GENERIC_READ_ID: u32 := 0xC042_0100
  const GENERIC_WRITE_ID: u32 := 0xC042_0200
  const FUNCCMD_ID: u32 := 0xC049_0000
  const CMD_LEN := 4
  const CMD_FACTORY_RESTORE: u32 := 0x10
  /** index[2], sub[1], client nonce[16] */
  const WRITE_HDR_LEN := 3 + RPK_NONCE_LEN

  datatype Challenge = Challenge(armed: bool, client: u16, objectId: u32, nonce: Rand16)

  const NO_CHALLENGE := Challenge(false, 0, 0, Zeros(RPK_NONCE_LEN))

  datatype Hook<+A> = Hook(app: A, abort: byte, value: seq<byte>)

  /** The device around signed access; `peer` is the integrator key that authorizes writes and commands. */
  datatype Host<!A> = Host(
    scheme: Scheme,
    deviceId: u16,
    identity: Seed,
    peer: Option<PubKey>,
    readBefore: (A, u32) -> Hook<A>,
    writeAfter: (A, u32, seq<byte>) -> Hook<A>,
    restore: A -> A)

  datatype SignedRequest = SignedRequest(client: u16, objectId: u32, body: seq<byte>, random: Option<Rand16>)

  datatype Answer = Answer(status: byte, data: seq<byte>)

  /** What a request made the device do with its keys. */
  datatype Event = Idle | Armed | Signed(access: Access, sig: Sig) | Verified(role: byte, access: Access, sig: Sig, ok: bool)

  datatype Step<+A> = Step(challenge: Challenge, app: A, answer: Answer, event: Event)

  function Refuse<A>(c: Challenge, app: A, code: byte): Step<A> { Step(c, app, Answer(code, []), Idle) }

  predicate Pending(c: Challenge, client: u16, objectId: u32) { c.armed && c.client == client && c.objectId == objectId }

  /** A failed draw leaves everything as it was, an older challenge included. */
  function Arm<A>(c: Challenge, app: A, q: SignedRequest): Step<A> {
    if q.random.None? then Refuse(c, app, INTERNAL)
    else Step(Challenge(true, q.client, q.objectId, q.random.value), app, Answer(NO_ABORT, q.random.value), Armed)
  }

  function TargetOf(body: seq<byte>): u32
    requires |body| >= 3
  {
    FromLe16(body[..2]) * 0x1_0000 + body[2] as int * 0x100
  }

  /* ---- Signed read ---- */

  function HandleRead<A>(h: Host<A>, c: Challenge, app: A, q: SignedRequest): Step<A> {
    var n := |q.body|;
    if n == 3 then Arm(c, app, q)
    else if n != 3 + RPK_NONCE_LEN then Refuse(c, app, if n > 3 + RPK_NONCE_LEN then LEN_TOO_HIGH else LEN_TOO_LOW)
    else if !Pending(c, q.client, GENERIC_READ_ID) then Refuse(c, app, NO_SESSION)
    else
      var target := TargetOf(q.body);
      var rd := h.readBefore(app, target);
      var spent := c.(armed := false);
      if rd.abort != NO_ABORT then Refuse(spent, rd.app, rd.abort)
      else if |rd.value| > RPK_VALUE_MAX then Refuse(spent, rd.app, INTERNAL)
      else
        var access := Access(h.deviceId, q.client, target, q.body[3..], c.nonce, rd.value);
        var sig := h.scheme.sign(h.identity, AccessTranscript(RD_GENERIC_READ, access));
        Step(spent, rd.app, Answer(NO_ABORT, rd.value + sig), Signed(access, sig))
  }

  /* ---- Signed write and command ---- */

  datatype Verdict = Verdict(challenge: Challenge, code: byte, event: Event)

  /** One challenge, one attempt. */
  function VerifySigned<A>(h: Host<A>, c: Challenge, client: u16, objectId: u32, mux: u32, role: byte, clientNonce: Rand16,
                           value: seq<byte>, sig: Sig): Verdict
    requires |value| <= RPK_VALUE_MAX
  {
    if !Pending(c, client, objectId) then Verdict(c, NO_SESSION, Idle)
    else if h.peer.None? then Verdict(c.(armed := false), SIG_VERIFY, Idle)
    else
      var access := Access(h.deviceId, client, mux, clientNonce, c.nonce, value);
      var ok := h.scheme.verify(h.peer.value, AccessTranscript(role, access), sig);
      Verdict(c.(armed := false), if ok then NO_ABORT else SIG_VERIFY, Verified(role, access, sig, ok))
  }

  function HandleWrite<A>(h: Host<A>, c: Challenge, app: A, q: SignedRequest): Step<A> {
    var n := |q.body|;
    if n == 3 then Arm(c, app, q)
    else if n < WRITE_HDR_LEN + SIG_SIZE then Refuse(c, app, LEN_TOO_LOW)
    else if n - WRITE_HDR_LEN - SIG_SIZE > RPK_VALUE_MAX then Refuse(c, app, LEN_TOO_HIGH)
    else
      var valueLen := n - WRITE_HDR_LEN - SIG_SIZE;
      var target, value := TargetOf(q.body), q.body[19..19 + valueLen];
      var v := VerifySigned(h, c, q.client, GENERIC_WRITE_ID, target, RD_GENERIC_WRITE, q.body[3..19], value,
                            q.body[19 + valueLen..]);
      if v.code != NO_ABORT then Step(v.challenge, app, Answer(v.code, []), v.event)
      else
        var w := h.writeAfter(app, target, value);
        Step(v.challenge, w.app, Answer(w.abort, []), v.event)
  }

  function HandleCommand<A>(h: Host<A>, c: Challenge, app: A, q: SignedRequest): Step<A> {
    var n := |q.body|;
    var full := RPK_NONCE_LEN + CMD_LEN + SIG_SIZE;
    if n == 0 then Arm(c, app, q)
    else if n != full then Refuse(c, app, if n < full then LEN_TOO_LOW else LEN_TOO_HIGH)
    else
      var v := VerifySigned(h, c, q.client, FUNCCMD_ID, FUNCCMD_ID, RD_FUNCTION_CMD, q.body[..16], q.body[16..20],
                            q.body[20..]);
      if v.code != NO_ABORT then Step(v.challenge, app, Answer(v.code, []), v.event)
      else
        var code := FromLe32(q.body[16..20]);
        Step(v.challenge, if code == CMD_FACTORY_RESTORE then h.restore(app) else app, Answer(NO_ABORT, []), v.event)
  }

  /** None when the object is not one of the three. */
  function Try<A>(h: Host<A>, c: Challenge, app: A, q: SignedRequest): Option<Step<A>> {
    if q.objectId == GENERIC_READ_ID then Some(HandleRead(h, c, app, q))
    else if q.objectId == GENERIC_WRITE_ID then Some(HandleWrite(h, c, app, q))
    else if q.objectId == FUNCCMD_ID then Some(HandleCommand(h, c, app, q))
    else None
  }

  /* ---- The device object ---- */

  class SignedAccess<A> {
    const host: Host<A>
    var armed: bool
    var client: u16
    var objectId: u32
    const nonce: array<byte>
    var app: A

    ghost predicate Valid()
      reads this
    {
      nonce.Length == RPK_NONCE_LEN
    }

    ghost function Model(): Challenge
      requires Valid()
      reads this, nonce
    {
      Challenge(armed, client, objectId, nonce[..])
    }

    constructor (host: Host<A>, app: A)
      ensures Valid() && fresh(nonce) && this.host == host && this.app == app && !armed
    {
      this.host, this.app := host, app;
      armed, client, objectId := false, 0, 0;
      nonce := new byte[RPK_NONCE_LEN];
    }

    method ArmChallenge(q: SignedRequest) returns (answer: Answer)
      requires Valid()
      modifies this, nonce
      ensures Valid()
      ensures var r := Arm(old(Model()), old(app), q); Model() == r.challenge && app == r.app && answer == r.answer
    {
      if q.random.None? {
        return Answer(INTERNAL, []);
      }
      assert nonce[..0] == [];
      AppendTo(q.random.value, nonce, 0);
      assert nonce[..] == nonce[..RPK_NONCE_LEN];
      armed, client, objectId := true, q.client, q.objectId;
      return Answer(NO_ABORT, nonce[..]);
    }

    /** Fills body and transcript buffers; the challenge is gone before the signature is looked at. */
    method CheckSignature(q: SignedRequest, mux: u32, role: byte, clientNonce: Rand16, value: seq<byte>, sig: Sig)
      returns (code: byte)
      requires Valid() && |value| <= RPK_VALUE_MAX
      modifies `armed
      ensures Valid()
      ensures var v := VerifySigned(host, old(Model()), q.client, q.objectId, mux, role, clientNonce, value, sig);
              Model() == v.challenge && code == v.code
    {
      if !armed || client != q.client || objectId != q.objectId {
        return NO_SESSION;
      }
      if host.peer.None? {
        armed := false;
        return SIG_VERIFY;
      }
      var body := new byte[RPK_BODY_MAX];
      var transcript := new byte[RPK_BODY_MAX + TRANSCRIPT_OVERHEAD];
      var o := BuildSignedBody(Access(host.deviceId, q.client, mux, clientNonce, nonce[..], value), body);
      var n := TranscriptInto(role, body[..o], transcript);
      armed := false;
      if n == 0 || !host.scheme.verify(host.peer.value, transcript[..n], sig) {
        return SIG_VERIFY;
      }
      return NO_ABORT;
    }

    method GenericRead(q: SignedRequest) returns (answer: Answer)
      requires Valid() && q.objectId == GENERIC_READ_ID
      modifies this, nonce
      ensures Valid()
      ensures var r := HandleRead(host, old(Model()), old(app), q); Model() == r.challenge && app == r.app && answer == r.answer
    {
      if |q.body| == 3 {
        answer := ArmChallenge(q);
        return;
      }
      if |q.body| != 3 + RPK_NONCE_LEN {
        return Answer(if |q.body| > 3 + RPK_NONCE_LEN then LEN_TOO_HIGH else LEN_TOO_LOW, []);
      }
      if !armed || client != q.client || objectId != GENERIC_READ_ID {
        return Answer(NO_SESSION, []);
      }
      var target := TargetOf(q.body);
      var rd := host.readBefore(app, target);
      app := rd.app;
      if rd.abort != NO_ABORT {
        armed := false;
        return Answer(rd.abort, []);
      }
      if |rd.value| > RPK_VALUE_MAX {
        armed := false;
        return Answer(INTERNAL, []);
      }
      var body := new byte[RPK_BODY_MAX];
      var transcript := new byte[RPK_BODY_MAX + TRANSCRIPT_OVERHEAD];
      var o := BuildSignedBody(Access(host.deviceId, q.client, target, q.body[3..], nonce[..], rd.value), body);
      var n := TranscriptInto(RD_GENERIC_READ, body[..o], transcript);
      armed := false;
      return Answer(NO_ABORT, rd.value + host.scheme.sign(host.identity, transcript[..n]));
    }

    method GenericWrite(q: SignedRequest) returns (answer: Answer)
      requires Valid() && q.objectId == GENERIC_WRITE_ID
      modifies this, nonce
      ensures Valid()
      ensures var r := HandleWrite(host, old(Model()), old(app), q); Model() == r.challenge && app == r.app && answer == r.answer
    {
      hide AccessTranscript, TargetOf;
      if |q.body| == WRITE_HDR_LEN - RPK_NONCE_LEN {
        answer := ArmChallenge(q);
        return;
      }
      if |q.body| < WRITE_HDR_LEN + SIG_SIZE {
        return Answer(LEN_TOO_LOW, []);
      }
      var valueLen := |q.body| - WRITE_HDR_LEN - SIG_SIZE;
      if valueLen > RPK_VALUE_MAX {
        return Answer(LEN_TOO_HIGH, []);
      }
      var target, value := TargetOf(q.body), q.body[19..19 + valueLen];
      var code := CheckSignature(q, target, RD_GENERIC_WRITE, q.body[3..19], value, q.body[19 + valueLen..]);
      if code != NO_ABORT {
        return Answer(code, []);
      }
      var w := host.writeAfter(app, target, value);
      app := w.app;
      return Answer(w.abort, []);
    }

    method Command(q: SignedRequest) returns (answer: Answer)
      requires Valid() && q.objectId == FUNCCMD_ID
      modifies this, nonce
      ensures Valid()
      ensures var r := HandleCommand(host, old(Model()), old(app), q); Model() == r.challenge && app == r.app && answer == r.answer
    {
      hide AccessTranscript;
      if |q.body| == 0 {
        answer := ArmChallenge(q);
        return;
      }
      var full := RPK_NONCE_LEN + CMD_LEN + SIG_SIZE;
      if |q.body| != full {
        return Answer(if |q.body| < full then LEN_TOO_LOW else LEN_TOO_HIGH, []);
      }
      var code := CheckSignature(q, FUNCCMD_ID, RD_FUNCTION_CMD, q.body[..16], q.body[16..20], q.body[20..]);
      if code != NO_ABORT {
        return Answer(code, []);
      }
      if FromLe32(q.body[16..20]) == CMD_FACTORY_RESTORE {
        app := host.restore(app);
      }
      return Answer(NO_ABORT, []);
    }

    /** The three signed objects; anything else is left to other handlers. */
    method TryRequest(q: SignedRequest) returns (handled: bool, answer: Answer)
      requires Valid()
      modifies this, nonce
      ensures Valid()
      ensures var r := Try(host, old(Model()), old(app), q);
              && handled == r.Some?
              && (if handled then Model() == r.value.challenge && app == r.value.app && answer == r.value.answer
                  else Model() == old(Model()) && app == old(app))
    {
      hide HandleRead, HandleWrite, HandleCommand;
      handled, answer := true, Answer(NO_ABORT, []);
      if q.objectId == GENERIC_READ_ID {
        answer := GenericRead(q);
      } else if q.objectId == GENERIC_WRITE_ID {
        answer := GenericWrite(q);
      } else if q.objectId == FUNCCMD_ID {
        answer := Command(q);
      } else {
        handled := false;
      }
    }
  }
}
