/**
 * The client side of the secure tunnel: what one single-shot or armed access
 * and one poll do, as functions of the server's state, and the client object
 * that performs them on a live server.
 */
module SecureProto {
  import opened Bytes
  import opened Aborts
  import opened Aead
  import opened Channel
  import opened SecureOd

  const RESPONSE_MAX := RAND_SIZE + MAX_PROTECTED + TAG_SIZE
  const POLL_REPLY_MAX := 1 + MAX_PROTECTED + TAG_SIZE
  /** The longest reply that a carrier hands back for a write. */
  const ACK_MAX := 56

  datatype Status = SecOk | Timeout | Protocol | BufSize | Aborted(code: byte) | TagFail | RandomFail

  datatype Session = Session(inUse: bool, dataId: u32, keyId: byte, nonceBase: Nonce, counter: u32)

  const NO_CYCLE := Session(false, 0, 0, Zeros(NONCE_SIZE), 0)

  /** The server's clock and random source while it handles one request, and the channel's behaviour. */
  datatype Env = Env(now: u16, random: Option<Nonce>, fate: Fate)

  /** The peer, the object and the key of one access. */
  datatype Call = Call(client: u16, device: u16, dataId: u32, key: Key, keyId: byte)

  /* ---- One exchange ---- */

  datatype Round<+A> = Round(sod: Sod<A>, reply: Option<Reply>, commit: Option<Commit>)

  function Exchange<A>(p: Port<A>, d: Sod<A>, client: u16, dataId: u32, body: seq<byte>, env: Env): (r: Round<A>)
    requires d.Shaped()
    ensures r.sod.Shaped() && r.sod.entries == d.entries
  {
    if env.fate == RequestLost then Round(d, None, None)
    else
      var r := Dispatch(p, d, dataId, Request(client, body, env.now, env.random, REPLY_MAX));
      Round(r.sod, if env.fate == ReplyLost then None else Some(r.reply), r.commit)
  }

  datatype Answer = Got(data: seq<byte>) | Failed(status: Status)

  /** What a transport read returns into a buffer of `max` bytes. */
  function ReadAnswer(reply: Option<Reply>, max: nat): (r: Answer)
    ensures r != Failed(SecOk)
  {
    match reply
    case None => Failed(Timeout)
    case Some(Accepted(data)) => if |data| > max then Failed(BufSize) else Got(data)
    case Some(Deferred) => Got([])
    case Some(Refused(code)) => Failed(Aborted(code))
    case Some(NotHandled) => Failed(Aborted(NO_OBJECT))
  }

  function WriteAnswer(reply: Option<Reply>): Status {
    match reply
    case None => Timeout
    case Some(Accepted(data)) => if |data| > ACK_MAX then Protocol else SecOk
    case Some(Deferred) => SecOk
    case Some(Refused(code)) => Aborted(code)
    case Some(NotHandled) => Aborted(NO_OBJECT)
  }

  /* ---- Single-shot and armed accesses ---- */

  predicate KeyIdUsable(kid: byte) { ReservedBits(kid) == 0 && BaseId(kid) != 0 }

  /** `base` is the nonce base of the access; it means something only on success. */
  datatype Access<+A> = Access(sod: Sod<A>, status: Status, plain: seq<byte>, base: Nonce, commit: Option<Commit>)

  function AccessFailed<A>(d: Sod<A>, status: Status, commit: Option<Commit>): Access<A> {
    Access(d, status, [], Zeros(NONCE_SIZE), commit)
  }

  function ServerContext(direction: byte, call: Call): Context {
    Context(direction, call.keyId, call.device, call.client, call.dataId)
  }

  function OpenResponse(g: Gcm, call: Call, bufSize: nat, random: Nonce, response: seq<byte>): (r: (Status, seq<byte>))
    ensures r.0 == SecOk ==> RAND_SIZE + TAG_SIZE <= |response|
  {
    if |response| < RAND_SIZE + TAG_SIZE then (Protocol, [])
    else
      var dataLen := |response| - RAND_SIZE - TAG_SIZE;
      if dataLen > MAX_PROTECTED then (Protocol, [])
      else if dataLen > bufSize then (BufSize, [])
      else
        var serverRandom := response[..12];
        var plain := Open(g, call.key, XorSeq(random, serverRandom), ServerContext(DIR_READ_RESPONSE, call),
                          Some(Randoms(random, serverRandom)), response[12..12 + dataLen], response[12 + dataLen..]);
        if plain.None? then (TagFail, []) else (SecOk, plain.value)
  }

  /** Challenge by a write, fetch by an empty read. */
  function ReadFlow<A>(p: Port<A>, d: Sod<A>, call: Call, bufSize: nat, random: Option<Nonce>, e1: Env, e2: Env): (r: Access<A>)
    requires d.Shaped()
    ensures r.sod.Shaped() && r.sod.entries == d.entries
  {
    if !KeyIdUsable(call.keyId) then AccessFailed(d, Protocol, None)
    else if random.None? then AccessFailed(d, RandomFail, None)
    else
      var first := Exchange(p, d, call.client, call.dataId, [call.keyId] + random.value, e1);
      if WriteAnswer(first.reply) != SecOk then AccessFailed(first.sod, WriteAnswer(first.reply), first.commit)
      else
        var second := Exchange(p, first.sod, call.client, call.dataId, [], e2);
        var answer := ReadAnswer(second.reply, RESPONSE_MAX);
        if answer.Failed? then AccessFailed(second.sod, answer.status, None)
        else
          var view := OpenResponse(p.gcm, call, bufSize, random.value, answer.data);
          if view.0 != SecOk then AccessFailed(second.sod, view.0, None)
          else Access(second.sod, SecOk, view.1, XorSeq(random.value, answer.data[..12]), None)
  }

  function PassTwoFrame(g: Gcm, call: Call, random: Nonce, serverRandom: Nonce, plain: seq<byte>): (r: seq<byte>)
    requires |plain| <= MAX_PROTECTED
    ensures |r| == 1 + RAND_SIZE + |plain| + TAG_SIZE
  {
    var sealed := Seal(g, call.key, XorSeq(random, serverRandom), ServerContext(DIR_WRITE_REQUEST, call),
                       Some(Randoms(random, serverRandom)), plain).value;
    [call.keyId] + random + sealed.text + sealed.tag
  }

  /** Fetch a server random by an empty read, then write key_id, random, text and tag. */
  function WriteFlow<A>(p: Port<A>, d: Sod<A>, call: Call, plain: seq<byte>, random: Option<Nonce>, e1: Env, e2: Env): (r: Access<A>)
    requires d.Shaped()
    ensures r.sod.Shaped() && r.sod.entries == d.entries
  {
    if !KeyIdUsable(call.keyId) then AccessFailed(d, Protocol, None)
    else if |plain| == 0 || |plain| > MAX_PROTECTED then AccessFailed(d, BufSize, None)
    else
      var first := Exchange(p, d, call.client, call.dataId, [], e1);
      var answer := ReadAnswer(first.reply, RAND_SIZE);
      if answer.Failed? then AccessFailed(first.sod, answer.status, first.commit)
      else if |answer.data| != RAND_SIZE then AccessFailed(first.sod, Protocol, first.commit)
      else if random.None? then AccessFailed(first.sod, RandomFail, first.commit)
      else
        var frame := PassTwoFrame(p.gcm, call, random.value, answer.data, plain);
        var second := Exchange(p, first.sod, call.client, call.dataId, frame, e2);
        Access(second.sod, WriteAnswer(second.reply), [], XorSeq(random.value, answer.data), second.commit)
  }

  /** The session that a successful armed access leaves behind. */
  function ArmedSession<A>(before: Session, call: Call, r: Access<A>): Session {
    if r.status == SecOk then Session(true, call.dataId, call.keyId, r.base, 0) else before
  }

  /** The same access with bit 6 of the key id on; the reserved bits and the base id stay. */
  function Armed(call: Call): (r: Call)
    ensures KeyIdUsable(r.keyId) == KeyIdUsable(call.keyId) && IsCyclic(r.keyId)
    ensures BaseId(r.keyId) == BaseId(call.keyId) && IsEncrypt(r.keyId) == IsEncrypt(call.keyId)
  {
    call.(keyId := ArmId(call.keyId))
  }

  /* ---- Polls ---- */

  /** `sess` is the client's session afterwards. */
  datatype Poll<+A> = Poll(sod: Sod<A>, sess: Session, status: Status, plain: seq<byte>, commit: Option<Commit>)

  function PollContext(direction: byte, call: Call, sess: Session): Context {
    Context(direction, sess.keyId, call.device, call.client, sess.dataId)
  }

  function OpenPollReply(g: Gcm, call: Call, sess: Session, counter: u32, plainMax: nat, reply: seq<byte>): (Status, seq<byte>) {
    if |reply| < 1 + TAG_SIZE || reply[0] != counter % 0x100 then (Protocol, [])
    else
      var n := |reply| - 1 - TAG_SIZE;
      if n > MAX_PROTECTED then (Protocol, [])
      else if n > plainMax then (BufSize, [])
      else
        var plain := Open(g, call.key, SessionNonce(sess.nonceBase, counter),
                          PollContext(DIR_READ_POLL_RESPONSE, call, sess), None, reply[1..1 + n], reply[1 + n..]);
        if plain.None? then (TagFail, []) else (SecOk, plain.value)
  }

  /** `call.dataId` and `call.keyId` play no part: a poll uses those of its session. */
  function PollRead<A>(p: Port<A>, d: Sod<A>, call: Call, sess: Session, plainMax: nat, env: Env): (r: Poll<A>)
    requires d.Shaped()
    ensures r.sod.Shaped() && r.sod.entries == d.entries
  {
    if !sess.inUse || sess.counter >= KEY_USE_LIMIT then Poll(d, sess, Protocol, [], None)
    else
      var counter := sess.counter + 1;
      var round := Exchange(p, d, call.client, sess.dataId, [counter % 0x100], env);
      var answer := ReadAnswer(round.reply, POLL_REPLY_MAX);
      if answer.Failed? then Poll(round.sod, sess, answer.status, [], round.commit)
      else
        var view := OpenPollReply(p.gcm, call, sess, counter, plainMax, answer.data);
        if view.0 != SecOk then Poll(round.sod, sess, view.0, [], round.commit)
        else Poll(round.sod, sess.(counter := counter), SecOk, view.1, round.commit)
  }

  function PollFrame(g: Gcm, call: Call, sess: Session, counter: u32, plain: seq<byte>): (r: seq<byte>)
    requires |plain| <= MAX_PROTECTED
    ensures |r| == 1 + |plain| + TAG_SIZE
  {
    var sealed := Seal(g, call.key, SessionNonce(sess.nonceBase, counter),
                       PollContext(DIR_WRITE_POLL_REQUEST, call, sess), None, plain).value;
    [counter % 0x100] + sealed.text + sealed.tag
  }

  function PollWrite<A>(p: Port<A>, d: Sod<A>, call: Call, sess: Session, plain: seq<byte>, env: Env): (r: Poll<A>)
    requires d.Shaped()
    ensures r.sod.Shaped() && r.sod.entries == d.entries
  {
    if !sess.inUse then Poll(d, sess, Protocol, [], None)
    else if |plain| == 0 || |plain| > MAX_PROTECTED then Poll(d, sess, BufSize, [], None)
    else if sess.counter >= KEY_USE_LIMIT then Poll(d, sess, Protocol, [], None)
    else
      var counter := sess.counter + 1;
      var round := Exchange(p, d, call.client, sess.dataId, PollFrame(p.gcm, call, sess, counter, plain), env);
      var status := WriteAnswer(round.reply);
      Poll(round.sod, if status == SecOk then sess.(counter := counter) else sess, status, [], round.commit)
  }

  /* ---- Runs of the poll verbs ---- */

  /** Consecutive read polls up to the first failure. */
  datatype PollRun<+A> = PollRun(sod: Sod<A>, sess: Session, status: Status, values: seq<seq<byte>>)

  function ReadPollStep<A>(p: Port<A>, before: PollRun<A>, call: Call, plainMax: nat, env: Env): (r: PollRun<A>)
    requires before.sod.Shaped()
    ensures r.sod.Shaped() && r.sod.entries == before.sod.entries
    ensures before.status != SecOk ==> r == before
  {
    if before.status != SecOk then before
    else
      var r := PollRead(p, before.sod, call, before.sess, plainMax, env);
      PollRun(r.sod, r.sess, r.status, if r.status == SecOk then before.values + [r.plain] else before.values)
  }

  function ReadPolls<A>(p: Port<A>, d: Sod<A>, call: Call, sess: Session, plainMax: nat, envs: seq<Env>): (r: PollRun<A>)
    requires d.Shaped()
    ensures r.sod.Shaped() && r.sod.entries == d.entries
  {
    if envs == [] then PollRun(d, sess, SecOk, [])
    else
      var n := |envs| - 1;
      ReadPollStep(p, ReadPolls(p, d, call, sess, plainMax, envs[..n]), call, plainMax, envs[n])
  }

  /** `values` collects what the server committed for the polls that succeeded. */
  function WritePollStep<A>(p: Port<A>, before: PollRun<A>, call: Call, plain: seq<byte>, env: Env): (r: PollRun<A>)
    requires before.sod.Shaped()
    ensures r.sod.Shaped() && r.sod.entries == before.sod.entries
    ensures before.status != SecOk ==> r == before
  {
    if before.status != SecOk then before
    else
      var r := PollWrite(p, before.sod, call, before.sess, plain, env);
      PollRun(r.sod, r.sess, r.status,
              if r.commit.Some? then before.values + [r.commit.value.plain] else before.values)
  }

  /** Consecutive polls that write the same value, up to the first failure. */
  function WritePolls<A>(p: Port<A>, d: Sod<A>, call: Call, sess: Session, plain: seq<byte>, envs: seq<Env>): (r: PollRun<A>)
    requires d.Shaped()
    ensures r.sod.Shaped() && r.sod.entries == d.entries
  {
    if envs == [] then PollRun(d, sess, SecOk, [])
    else
      var n := |envs| - 1;
      WritePollStep(p, WritePolls(p, d, call, sess, plain, envs[..n]), call, plain, envs[n])
  }

  /** A run of read polls is over once it has failed. */
  lemma {:induction false} ReadPollsStop<A>(p: Port<A>, d: Sod<A>, call: Call, sess: Session, plainMax: nat,
                                            envs: seq<Env>, n: nat)
    requires d.Shaped() && n <= |envs|
    requires n < |envs| ==> ReadPolls(p, d, call, sess, plainMax, envs[..n]).status != SecOk
    ensures ReadPolls(p, d, call, sess, plainMax, envs) == ReadPolls(p, d, call, sess, plainMax, envs[..n])
  {
    hide PollRead, PollWrite;
    if n < |envs| {
      var m := |envs| - 1;
      assert envs[..m][..n] == envs[..n];
      ReadPollsStop(p, d, call, sess, plainMax, envs[..m], n);
    } else {
      assert envs[..n] == envs;
    }
  }

  lemma {:induction false} WritePollsStop<A>(p: Port<A>, d: Sod<A>, call: Call, sess: Session, plain: seq<byte>,
                                             envs: seq<Env>, n: nat)
    requires d.Shaped() && n <= |envs|
    requires n < |envs| ==> WritePolls(p, d, call, sess, plain, envs[..n]).status != SecOk
    ensures WritePolls(p, d, call, sess, plain, envs) == WritePolls(p, d, call, sess, plain, envs[..n])
  {
    hide PollRead, PollWrite;
    if n < |envs| {
      var m := |envs| - 1;
      assert envs[..m][..n] == envs[..n];
      WritePollsStop(p, d, call, sess, plain, envs[..m], n);
    } else {
      assert envs[..n] == envs;
    }
  }

  function ExitCode(status: Status): nat {
    match status
    case SecOk => 0
    case Aborted(_) => 2
    case TagFail => 3
    case _ => 1
  }
}
