/**
 * The client side of signed access, composed with the device: exactly when a
 * signed read, write or command succeeds, and what it then did.
 */
module RpkClient {
  import opened Bytes
  import opened Aborts
  import opened Asym
  import opened Channel
  import opened Rpk
  import opened RpkRuns

  /** The device's random source and the channel during one exchange. */
  datatype Env = Env(random: Option<Rand16>, fate: Fate)

  /** The two parties as the client names them, and the object meant. */
  datatype Target = Target(client: u16, device: u16, index: u16, sub: byte)

  function MuxOf(t: Target): u32 { t.index * 0x1_0000 + t.sub * 0x100 }

  function Header(t: Target): (r: seq<byte>)
    ensures |r| == 3
  {
    Le16(t.index) + [t.sub]
  }

  /* ---- Exchanges ---- */

  function Exchange<A>(h: Host<A>, st: State<A>, client: u16, objectId: u32, body: seq<byte>, env: Env): (State<A>, Option<Answer>) {
    if env.fate == RequestLost then (st, None)
    else
      var r := StepOf(h, st, SignedRequest(client, objectId, body, env.random));
      (State(r.challenge, r.app), if env.fate == ReplyLost then None else Some(r.answer))
  }

  predicate ReadOk(answer: Option<Answer>, max: nat) {
    answer.Some? && answer.value.status == NO_ABORT && |answer.value.data| <= max
  }

  /** Code 0 and the nonce, 2 when the read fails, 3 when its length is wrong. */
  function FetchChallenge<A>(h: Host<A>, st: State<A>, client: u16, objectId: u32, body: seq<byte>, env: Env)
    : (r: (State<A>, nat, seq<byte>))
    ensures r.1 == 0 ==> |r.2| == RPK_NONCE_LEN
  {
    var x := Exchange(h, st, client, objectId, body, env);
    if !ReadOk(x.1, RPK_NONCE_LEN) then (x.0, 2, [])
    else if |x.1.value.data| != RPK_NONCE_LEN then (x.0, 3, [])
    else (x.0, 0, x.1.value.data)
  }

  /* ---- Signed read ---- */

  datatype Outcome<+A> = Outcome(state: State<A>, code: nat, value: seq<byte>)

  function SignedRead<A>(h: Host<A>, st: State<A>, t: Target, idevid: PubKey, bufSize: nat, random: Option<Rand16>,
                         e1: Env, e2: Env): Outcome<A> {
    var c := FetchChallenge(h, st, t.client, GENERIC_READ_ID, Header(t), e1);
    if c.1 != 0 then Outcome(c.0, c.1, [])
    else if random.None? then Outcome(c.0, 1, [])
    else
      var x := Exchange(h, c.0, t.client, GENERIC_READ_ID, Header(t) + random.value, e2);
      if !ReadOk(x.1, RPK_VALUE_MAX + SIG_SIZE) then Outcome(x.0, 2, [])
      else
        var reply := x.1.value.data;
        if |reply| < SIG_SIZE || |reply| - SIG_SIZE > bufSize then Outcome(x.0, 3, [])
        else
          var n := |reply| - SIG_SIZE;
          var access := Access(t.device, t.client, MuxOf(t), random.value, c.2, reply[..n]);
          if !h.scheme.verify(idevid, AccessTranscript(RD_GENERIC_READ, access), reply[n..]) then Outcome(x.0, 5, [])
          else Outcome(x.0, 0, reply[..n])
  }

  /* ---- Signed write and command ---- */

  function WritePayload(s: Scheme, t: Target, signer: Seed, value: seq<byte>, random: Rand16, nonce: Rand16): (r: seq<byte>)
    requires |value| <= RPK_VALUE_MAX
    ensures |r| == WRITE_HDR_LEN + |value| + SIG_SIZE
  {
    var access := Access(t.device, t.client, MuxOf(t), random, nonce, value);
    Header(t) + random + value + s.sign(signer, AccessTranscript(RD_GENERIC_WRITE, access))
  }

  function SignedWrite<A>(h: Host<A>, st: State<A>, t: Target, signer: Seed, value: seq<byte>, random: Option<Rand16>,
                          e1: Env, e2: Env): Outcome<A> {
    if |value| > RPK_VALUE_MAX then Outcome(st, 1, [])
    else
      var c := FetchChallenge(h, st, t.client, GENERIC_WRITE_ID, Header(t), e1);
      if c.1 != 0 then Outcome(c.0, c.1, [])
      else if random.None? then Outcome(c.0, 1, [])
      else
        var x := Exchange(h, c.0, t.client, GENERIC_WRITE_ID, WritePayload(h.scheme, t, signer, value, random.value, c.2), e2);
        Outcome(x.0, if ReadOk(x.1, 56) then 0 else 2, [])
  }

  function CommandPayload(s: Scheme, t: Target, signer: Seed, code: u32, random: Rand16, nonce: Rand16): (r: seq<byte>)
    ensures |r| == RPK_NONCE_LEN + CMD_LEN + SIG_SIZE
  {
    var access := Access(t.device, t.client, FUNCCMD_ID, random, nonce, Le32(code));
    random + Le32(code) + s.sign(signer, AccessTranscript(RD_FUNCTION_CMD, access))
  }

  /** `t.index` and `t.sub` play no part. */
  function SendCommand<A>(h: Host<A>, st: State<A>, t: Target, signer: Seed, code: u32, random: Option<Rand16>,
                          e1: Env, e2: Env): Outcome<A> {
    var c := FetchChallenge(h, st, t.client, FUNCCMD_ID, [], e1);
    if c.1 != 0 then Outcome(c.0, c.1, [])
    else if random.None? then Outcome(c.0, 1, [])
    else
      var x := Exchange(h, c.0, t.client, FUNCCMD_ID, CommandPayload(h.scheme, t, signer, code, random.value, c.2), e2);
      Outcome(x.0, if ReadOk(x.1, 56) then 0 else 2, [])
  }

  /* ---- Correctness ---- */

  /** A signature by `signer` over `m` that passes under another key or for another message. */
  ghost predicate Confused(s: Scheme, signer: Seed, m: seq<byte>, pub: PubKey, n: seq<byte>) {
    (pub != s.public(signer) || n != m) && s.verify(pub, n, s.sign(signer, m))
  }

  /** What is signed between `server` and the target's client about object `mux`. */
  function Spoken(role: byte, server: u16, t: Target, mux: u32, random: Rand16, nonce: Rand16, value: seq<byte>): seq<byte>
    requires |value| <= RPK_VALUE_MAX
  {
    AccessTranscript(role, Access(server, t.client, mux, random, nonce, value))
  }

  /** Pass 1 always arms when the device has a random, whoever held the challenge before. */
  lemma FetchArms<A>(h: Host<A>, st: State<A>, client: u16, objectId: u32, body: seq<byte>, env: Env)
    requires ((objectId == GENERIC_READ_ID || objectId == GENERIC_WRITE_ID) && |body| == 3) || (objectId == FUNCCMD_ID && body == [])
    ensures var r := FetchChallenge(h, st, client, objectId, body, env);
            && (r.1 == 0 <==> env.fate == Delivered && env.random.Some?)
            && (r.1 == 0 ==> r.0 == State(Challenge(true, client, objectId, env.random.value), st.app) && r.2 == env.random.value)
  {
  }

  lemma HeaderReadsBack(t: Target, rest: seq<byte>)
    ensures TargetOf(Header(t) + rest) == MuxOf(t)
  {
    Le16RoundTrip(t.index);
    assert (Header(t) + rest)[..2] == Le16(t.index);
  }

  predicate WriteReady<A>(h: Host<A>, st: State<A>, t: Target, signer: Seed, value: seq<byte>, random: Option<Rand16>,
                          e1: Env, e2: Env) {
    && |value| <= RPK_VALUE_MAX && random.Some? && e1.random.Some? && e1.fate == Delivered && e2.fate == Delivered
    && t.device == h.deviceId && h.peer == Some(h.scheme.public(signer))
    && h.writeAfter(st.app, MuxOf(t), value).abort == NO_ABORT
  }

  lemma WritePayloadSplits(s: Scheme, t: Target, signer: Seed, value: seq<byte>, random: Rand16, nonce: Rand16)
    requires |value| <= RPK_VALUE_MAX
    ensures var p := WritePayload(s, t, signer, value, random, nonce);
            var n := |value|;
            && TargetOf(p) == MuxOf(t) && p[3..19] == random && p[19..19 + n] == value
            && p[19 + n..] == s.sign(signer, AccessTranscript(RD_GENERIC_WRITE,
                                                              Access(t.device, t.client, MuxOf(t), random, nonce, value)))
  {
    hide AccessTranscript;
    var sig := s.sign(signer, AccessTranscript(RD_GENERIC_WRITE, Access(t.device, t.client, MuxOf(t), random, nonce, value)));
    HeaderReadsBack(t, random + value + sig);
    assert Header(t) + random + value + sig == Header(t) + (random + value + sig);
  }

  /**
   * A signed write succeeds when everything is ready, and then the host got
   * exactly the value for exactly the target; it succeeds otherwise only if a
   * signature passes for what was not signed.
   */
  lemma SignedWriteCorrect<A>(h: Host<A>, st: State<A>, t: Target, signer: Seed, value: seq<byte>, random: Option<Rand16>,
                              e1: Env, e2: Env)
    requires Correct(h.scheme)
    ensures var r := SignedWrite(h, st, t, signer, value, random, e1, e2);
            && (WriteReady(h, st, t, signer, value, random, e1, e2) ==>
                  r.code == 0 && r.state.app == h.writeAfter(st.app, MuxOf(t), value).app && !r.state.challenge.armed)
            && (r.code == 0 ==>
                  || WriteReady(h, st, t, signer, value, random, e1, e2)
                  || (&& |value| <= RPK_VALUE_MAX && random.Some? && e1.random.Some? && h.peer.Some?
                      && Confused(h.scheme, signer,
                           Spoken(RD_GENERIC_WRITE, t.device, t, MuxOf(t), random.value, e1.random.value, value),
                           h.peer.value,
                           Spoken(RD_GENERIC_WRITE, h.deviceId, t, MuxOf(t), random.value, e1.random.value, value))))
  {
    hide AccessTranscript, FetchChallenge, TargetOf, WritePayload;
    if |value| <= RPK_VALUE_MAX {
      FetchArms(h, st, t.client, GENERIC_WRITE_ID, Header(t), e1);
      if random.Some? && e1.random.Some? {
        var a := Access(t.device, t.client, MuxOf(t), random.value, e1.random.value, value);
        WritePayloadSplits(h.scheme, t, signer, value, random.value, e1.random.value);
        AccessTranscriptInjective(RD_GENERIC_WRITE, a, RD_GENERIC_WRITE, a.(server := h.deviceId));
        assert h.scheme.verify(h.scheme.public(signer), AccessTranscript(RD_GENERIC_WRITE, a),
                               h.scheme.sign(signer, AccessTranscript(RD_GENERIC_WRITE, a)));
      }
    }
  }

  predicate CommandReady<A>(h: Host<A>, t: Target, signer: Seed, random: Option<Rand16>, e1: Env, e2: Env) {
    && random.Some? && e1.random.Some? && e1.fate == Delivered && e2.fate == Delivered
    && t.device == h.deviceId && h.peer == Some(h.scheme.public(signer))
  }

  lemma CommandPayloadSplits(s: Scheme, t: Target, signer: Seed, code: u32, random: Rand16, nonce: Rand16)
    ensures var p := CommandPayload(s, t, signer, code, random, nonce);
            && p[..16] == random && p[16..20] == Le32(code) && FromLe32(p[16..20]) == code
            && p[20..] == s.sign(signer, AccessTranscript(RD_FUNCTION_CMD,
                                                          Access(t.device, t.client, FUNCCMD_ID, random, nonce, Le32(code))))
  {
    hide AccessTranscript;
    Le32RoundTrip(code);
  }

  /** A signed command succeeds when everything is ready; the reset code, and no other, then restores the device. */
  lemma SignedCommandCorrect<A>(h: Host<A>, st: State<A>, t: Target, signer: Seed, code: u32, random: Option<Rand16>,
                                e1: Env, e2: Env)
    requires Correct(h.scheme)
    ensures var r := SendCommand(h, st, t, signer, code, random, e1, e2);
            && (CommandReady(h, t, signer, random, e1, e2) ==>
                  r.code == 0 && r.state.app == if code == CMD_FACTORY_RESTORE then h.restore(st.app) else st.app)
            && (r.code == 0 ==>
                  || CommandReady(h, t, signer, random, e1, e2)
                  || (&& random.Some? && e1.random.Some? && h.peer.Some?
                      && Confused(h.scheme, signer,
                           Spoken(RD_FUNCTION_CMD, t.device, t, FUNCCMD_ID, random.value, e1.random.value, Le32(code)),
                           h.peer.value,
                           Spoken(RD_FUNCTION_CMD, h.deviceId, t, FUNCCMD_ID, random.value, e1.random.value, Le32(code)))))
  {
    hide AccessTranscript, FetchChallenge, CommandPayload;
    FetchArms(h, st, t.client, FUNCCMD_ID, [], e1);
    if random.Some? && e1.random.Some? {
      var a := Access(t.device, t.client, FUNCCMD_ID, random.value, e1.random.value, Le32(code));
      CommandPayloadSplits(h.scheme, t, signer, code, random.value, e1.random.value);
      AccessTranscriptInjective(RD_FUNCTION_CMD, a, RD_FUNCTION_CMD, a.(server := h.deviceId));
      assert h.scheme.verify(h.scheme.public(signer), AccessTranscript(RD_FUNCTION_CMD, a),
                             h.scheme.sign(signer, AccessTranscript(RD_FUNCTION_CMD, a)));
    }
  }

  predicate ReadReady<A>(h: Host<A>, st: State<A>, t: Target, idevid: PubKey, bufSize: nat, random: Option<Rand16>,
                         e1: Env, e2: Env) {
    var rd := h.readBefore(st.app, MuxOf(t));
    && random.Some? && e1.random.Some? && e1.fate == Delivered && e2.fate == Delivered
    && t.device == h.deviceId && idevid == h.scheme.public(h.identity)
    && rd.abort == NO_ABORT && |rd.value| <= RPK_VALUE_MAX && |rd.value| <= bufSize
  }

  /** A signed read returns the host's value exactly; a wrong value, device or key passes only with a confused signature. */
  lemma SignedReadCorrect<A>(h: Host<A>, st: State<A>, t: Target, idevid: PubKey, bufSize: nat, random: Option<Rand16>,
                             e1: Env, e2: Env)
    requires Correct(h.scheme)
    ensures var r := SignedRead(h, st, t, idevid, bufSize, random, e1, e2);
            var rd := h.readBefore(st.app, MuxOf(t));
            && (ReadReady(h, st, t, idevid, bufSize, random, e1, e2) ==> r.code == 0 && r.value == rd.value)
            && (r.code == 0 ==>
                  && r.value == rd.value
                  && (|| ReadReady(h, st, t, idevid, bufSize, random, e1, e2)
                      || (&& random.Some? && e1.random.Some? && |rd.value| <= RPK_VALUE_MAX
                          && Confused(h.scheme, h.identity,
                               Spoken(RD_GENERIC_READ, h.deviceId, t, MuxOf(t), random.value, e1.random.value, rd.value),
                               idevid,
                               Spoken(RD_GENERIC_READ, t.device, t, MuxOf(t), random.value, e1.random.value, rd.value)))))
  {
    hide AccessTranscript, FetchChallenge, TargetOf;
    FetchArms(h, st, t.client, GENERIC_READ_ID, Header(t), e1);
    var rd := h.readBefore(st.app, MuxOf(t));
    if random.Some? && e1.random.Some? && |rd.value| <= RPK_VALUE_MAX {
      HeaderReadsBack(t, random.value);
      var a := Access(h.deviceId, t.client, MuxOf(t), random.value, e1.random.value, rd.value);
      var sig := h.scheme.sign(h.identity, AccessTranscript(RD_GENERIC_READ, a));
      assert (Header(t) + random.value)[3..] == random.value;
      assert (rd.value + sig)[..|rd.value|] == rd.value && (rd.value + sig)[|rd.value|..] == sig;
      AccessTranscriptInjective(RD_GENERIC_READ, a, RD_GENERIC_READ, a.(server := t.device));
      assert h.scheme.verify(h.scheme.public(h.identity), AccessTranscript(RD_GENERIC_READ, a), sig);
    } else if random.Some? {
      HeaderReadsBack(t, random.value);
    }
  }
}
