/**
 * Signed access as the client performs it: payloads filled behind a moving
 * offset and sent to a live device.
 */
module RpkRequester {
  import opened Bytes
  import opened Aborts
  import opened Asym
  import opened Channel
  import opened Rpk
  import opened RpkRuns
  import opened RpkClient

  ghost function Seen<A>(device: SignedAccess<A>): State<A>
    requires device.Valid()
    reads device, device.nonce
  {
    State(device.Model(), device.app)
  }

  method Send<A>(device: SignedAccess<A>, client: u16, objectId: u32, body: seq<byte>, env: Env) returns (answer: Option<Answer>)
    requires device.Valid()
    modifies device, device.nonce
    ensures device.Valid()
    ensures (Seen(device), answer) == Exchange(device.host, old(Seen(device)), client, objectId, body, env)
  {
    hide Try;
    if env.fate == RequestLost {
      return None;
    }
    var handled, reply := device.TryRequest(SignedRequest(client, objectId, body, env.random));
    if !handled {
      reply := Answer(NO_OBJECT, []);
    }
    answer := if env.fate == ReplyLost then None else Some(reply);
  }

  method Fetch<A>(device: SignedAccess<A>, client: u16, objectId: u32, body: seq<byte>, env: Env)
    returns (code: nat, nonce: seq<byte>)
    requires device.Valid()
    modifies device, device.nonce
    ensures device.Valid()
    ensures (Seen(device), code, nonce) == FetchChallenge(device.host, old(Seen(device)), client, objectId, body, env)
  {
    hide Exchange;
    var answer := Send(device, client, objectId, body, env);
    if !ReadOk(answer, RPK_NONCE_LEN) {
      return 2, [];
    }
    if |answer.value.data| != RPK_NONCE_LEN {
      return 3, [];
    }
    return 0, answer.value.data;
  }

  /** Builds body and transcript in work buffers and signs. */
  method SignAccess(s: Scheme, signer: Seed, role: byte, access: Access) returns (sig: Sig)
    requires |access.value| <= RPK_VALUE_MAX
    ensures sig == s.sign(signer, AccessTranscript(role, access))
  {
    var body := new byte[RPK_BODY_MAX];
    var transcript := new byte[RPK_BODY_MAX + TRANSCRIPT_OVERHEAD];
    var o := BuildSignedBody(access, body);
    var n := TranscriptInto(role, body[..o], transcript);
    sig := s.sign(signer, transcript[..n]);
  }

  method FillWritePayload(s: Scheme, t: Target, signer: Seed, value: seq<byte>, random: Rand16, nonce: Rand16,
                          payload: array<byte>) returns (p: nat)
    requires |value| <= RPK_VALUE_MAX && payload.Length == WRITE_HDR_LEN + RPK_VALUE_MAX + SIG_SIZE
    modifies payload
    ensures p <= payload.Length && payload[..p] == WritePayload(s, t, signer, value, random, nonce)
  {
    hide AccessTranscript;
    assert payload[..0] == [];
    AppendTo(Le16(t.index), payload, 0);
    p := 2;
    AppendTo([t.sub], payload, p);
    p := p + 1;
    AppendTo(random, payload, p);
    p := p + RPK_NONCE_LEN;
    AppendTo(value, payload, p);
    p := p + |value|;
    var sig := SignAccess(s, signer, RD_GENERIC_WRITE, Access(t.device, t.client, MuxOf(t), random, nonce, value));
    AppendTo(sig, payload, p);
    p := p + SIG_SIZE;
  }

  method FillCommandPayload(s: Scheme, t: Target, signer: Seed, code: u32, random: Rand16, nonce: Rand16,
                            payload: array<byte>) returns (p: nat)
    requires payload.Length == RPK_NONCE_LEN + CMD_LEN + SIG_SIZE
    modifies payload
    ensures p == payload.Length && payload[..p] == CommandPayload(s, t, signer, code, random, nonce)
  {
    hide AccessTranscript;
    assert payload[..0] == [];
    AppendTo(random, payload, 0);
    p := RPK_NONCE_LEN;
    AppendTo(Le32(code), payload, p);
    p := p + CMD_LEN;
    var sig := SignAccess(s, signer, RD_FUNCTION_CMD, Access(t.device, t.client, FUNCCMD_ID, random, nonce, Le32(code)));
    AppendTo(sig, payload, p);
    p := p + SIG_SIZE;
  }

  method WriteSigned<A>(device: SignedAccess<A>, t: Target, signer: Seed, value: seq<byte>, random: Option<Rand16>,
                        e1: Env, e2: Env) returns (code: nat)
    requires device.Valid()
    modifies device, device.nonce
    ensures device.Valid()
    ensures Outcome(Seen(device), code, []) == SignedWrite(device.host, old(Seen(device)), t, signer, value, random, e1, e2)
  {
    hide FetchChallenge, Exchange, WritePayload;
    if |value| > RPK_VALUE_MAX {
      return 1;
    }
    var nonce;
    code, nonce := Fetch(device, t.client, GENERIC_WRITE_ID, Header(t), e1);
    if code != 0 {
      return;
    }
    if random.None? {
      return 1;
    }
    var payload := new byte[WRITE_HDR_LEN + RPK_VALUE_MAX + SIG_SIZE];
    var p := FillWritePayload(device.host.scheme, t, signer, value, random.value, nonce, payload);
    var answer := Send(device, t.client, GENERIC_WRITE_ID, payload[..p], e2);
    return if ReadOk(answer, 56) then 0 else 2;
  }

  method CommandSigned<A>(device: SignedAccess<A>, t: Target, signer: Seed, action: u32, random: Option<Rand16>,
                          e1: Env, e2: Env) returns (code: nat)
    requires device.Valid()
    modifies device, device.nonce
    ensures device.Valid()
    ensures Outcome(Seen(device), code, []) == SendCommand(device.host, old(Seen(device)), t, signer, action, random, e1, e2)
  {
    hide FetchChallenge, Exchange, CommandPayload;
    var nonce;
    code, nonce := Fetch(device, t.client, FUNCCMD_ID, [], e1);
    if code != 0 {
      return;
    }
    if random.None? {
      return 1;
    }
    var payload := new byte[RPK_NONCE_LEN + CMD_LEN + SIG_SIZE];
    var p := FillCommandPayload(device.host.scheme, t, signer, action, random.value, nonce, payload);
    var answer := Send(device, t.client, FUNCCMD_ID, payload[..p], e2);
    return if ReadOk(answer, 56) then 0 else 2;
  }

  method ReadSigned<A>(device: SignedAccess<A>, t: Target, idevid: PubKey, random: Option<Rand16>, e1: Env, e2: Env,
                       buf: array<byte>) returns (code: nat, len: nat)
    requires device.Valid() && buf != device.nonce
    modifies device, device.nonce, buf
    ensures device.Valid()
    ensures var r := SignedRead(device.host, old(Seen(device)), t, idevid, buf.Length, random, e1, e2);
            && Seen(device) == r.state && code == r.code
            && (code == 0 ==> len <= buf.Length && buf[..len] == r.value)
  {
    hide FetchChallenge, Exchange;
    var nonce;
    len := 0;
    code, nonce := Fetch(device, t.client, GENERIC_READ_ID, Header(t), e1);
    if code != 0 {
      return;
    }
    if random.None? {
      code := 1;
      return;
    }
    var answer := Send(device, t.client, GENERIC_READ_ID, Header(t) + random.value, e2);
    if !ReadOk(answer, RPK_VALUE_MAX + SIG_SIZE) {
      code := 2;
      return;
    }
    var reply := answer.value.data;
    if |reply| < SIG_SIZE || |reply| - SIG_SIZE > buf.Length {
      code := 3;
      return;
    }
    var n := |reply| - SIG_SIZE;
    var body := new byte[RPK_BODY_MAX];
    var transcript := new byte[RPK_BODY_MAX + TRANSCRIPT_OVERHEAD];
    var o := BuildSignedBody(Access(t.device, t.client, MuxOf(t), random.value, nonce, reply[..n]), body);
    var m := TranscriptInto(RD_GENERIC_READ, body[..o], transcript);
    if !device.host.scheme.verify(idevid, transcript[..m], reply[n..]) {
      code := 5;
      return;
    }
    assert buf[..0] == [];
    AppendTo(reply[..n], buf, 0);
    assert buf[..n] == reply[..n];
    len := n;
  }
}
