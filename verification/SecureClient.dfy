/**
 * The client object: its cyclic session is updated in place by the armed
 * accesses and the polls, each performed on a live server object.
 */
module SecureClient {
  import opened Bytes
  import opened Aead
  import opened Channel
  import opened SecureOd
  import opened SecureOdServer
  import opened SecureProto

  class Client<A> {
    var session: Session

    constructor ()
      ensures session == NO_CYCLE
    {
      session := NO_CYCLE;
    }

    /** One request through the channel; the server may or may not see it. */
    method Send(server: Server<A>, client: u16, dataId: u32, body: seq<byte>, env: Env) returns (reply: Option<Reply>)
      requires server.Valid()
      modifies server
      ensures server.Valid()
      ensures var r := Exchange(server.port, old(server.Model()), client, dataId, body, env);
              server.Model() == r.sod && reply == r.reply
    {
      if env.fate == RequestLost {
        return None;
      }
      var answer := server.HandleRequest(dataId, Request(client, body, env.now, env.random, REPLY_MAX));
      reply := if env.fate == ReplyLost then None else Some(answer);
    }

    method SecureRead(server: Server<A>, call: Call, bufSize: nat, random: Option<Nonce>, e1: Env, e2: Env)
      returns (status: Status, plain: seq<byte>, base: Nonce)
      requires server.Valid()
      modifies server
      ensures server.Valid()
      ensures var r := ReadFlow(server.port, old(server.Model()), call, bufSize, random, e1, e2);
              server.Model() == r.sod && status == r.status && plain == r.plain && base == r.base
    {
      hide Exchange, OpenResponse;
      status, plain, base := Protocol, [], Zeros(NONCE_SIZE);
      if !KeyIdUsable(call.keyId) {
        return;
      }
      if random.None? {
        status := RandomFail;
        return;
      }
      var reply := Send(server, call.client, call.dataId, [call.keyId] + random.value, e1);
      status := WriteAnswer(reply);
      if status != SecOk {
        return;
      }
      reply := Send(server, call.client, call.dataId, [], e2);
      var answer := ReadAnswer(reply, RESPONSE_MAX);
      if answer.Failed? {
        status := answer.status;
        return;
      }
      var view := OpenResponse(server.port.gcm, call, bufSize, random.value, answer.data);
      status := view.0;
      if status == SecOk {
        plain, base := view.1, XorSeq(random.value, answer.data[..12]);
      }
    }

    method SecureWrite(server: Server<A>, call: Call, plain: seq<byte>, random: Option<Nonce>, e1: Env, e2: Env)
      returns (status: Status, base: Nonce)
      requires server.Valid()
      modifies server
      ensures server.Valid()
      ensures var r := WriteFlow(server.port, old(server.Model()), call, plain, random, e1, e2);
              server.Model() == r.sod && status == r.status && base == r.base
    {
      hide Exchange, PassTwoFrame;
      base := Zeros(NONCE_SIZE);
      if !KeyIdUsable(call.keyId) {
        status := Protocol;
        return;
      }
      if |plain| == 0 || |plain| > MAX_PROTECTED {
        status := BufSize;
        return;
      }
      var reply := Send(server, call.client, call.dataId, [], e1);
      var answer := ReadAnswer(reply, RAND_SIZE);
      if answer.Failed? {
        status := answer.status;
        return;
      }
      if |answer.data| != RAND_SIZE {
        status := Protocol;
        return;
      }
      if random.None? {
        status := RandomFail;
        return;
      }
      base := XorSeq(random.value, answer.data);
      var frame := PassTwoFrame(server.port.gcm, call, random.value, answer.data, plain);
      reply := Send(server, call.client, call.dataId, frame, e2);
      status := WriteAnswer(reply);
    }

    /** Forces bit 6 of the key id on; on success a session with counter 0 is kept. */
    method ReadArmed(server: Server<A>, call: Call, bufSize: nat, random: Option<Nonce>, e1: Env, e2: Env)
      returns (status: Status, plain: seq<byte>)
      requires server.Valid()
      modifies this, server
      ensures server.Valid()
      ensures var armed := Armed(call);
              var r := ReadFlow(server.port, old(server.Model()), armed, bufSize, random, e1, e2);
              && server.Model() == r.sod && status == r.status && plain == r.plain
              && session == ArmedSession(old(session), armed, r)
    {
      hide ReadFlow, ArmId;
      var base;
      var armed := Armed(call);
      status, plain, base := SecureRead(server, armed, bufSize, random, e1, e2);
      if status == SecOk {
        session := Session(true, call.dataId, armed.keyId, base, 0);
      }
    }

    method WriteArmed(server: Server<A>, call: Call, plain: seq<byte>, random: Option<Nonce>, e1: Env, e2: Env)
      returns (status: Status)
      requires server.Valid()
      modifies this, server
      ensures server.Valid()
      ensures var armed := Armed(call);
              var r := WriteFlow(server.port, old(server.Model()), armed, plain, random, e1, e2);
              && server.Model() == r.sod && status == r.status
              && session == ArmedSession(old(session), armed, r)
    {
      hide WriteFlow, ArmId;
      var base;
      var armed := Armed(call);
      status, base := SecureWrite(server, armed, plain, random, e1, e2);
      if status == SecOk {
        session := Session(true, call.dataId, armed.keyId, base, 0);
      }
    }

    /** The counter advances only when the reply opens. */
    method PollReadOnce(server: Server<A>, call: Call, plainMax: nat, env: Env) returns (status: Status, plain: seq<byte>)
      requires server.Valid()
      modifies this, server
      ensures server.Valid()
      ensures var r := PollRead(server.port, old(server.Model()), call, old(session), plainMax, env);
              server.Model() == r.sod && session == r.sess && status == r.status && plain == r.plain
    {
      hide Exchange, OpenPollReply;
      plain := [];
      if !session.inUse || session.counter >= KEY_USE_LIMIT {
        status := Protocol;
        return;
      }
      var counter := session.counter + 1;
      var reply := Send(server, call.client, session.dataId, [counter % 0x100], env);
      var answer := ReadAnswer(reply, POLL_REPLY_MAX);
      if answer.Failed? {
        status := answer.status;
        return;
      }
      var view := OpenPollReply(server.port.gcm, call, session, counter, plainMax, answer.data);
      status := view.0;
      if status == SecOk {
        session := session.(counter := counter);
        plain := view.1;
      }
    }

    /** The counter advances only when the write is acknowledged. */
    method PollWriteOnce(server: Server<A>, call: Call, plain: seq<byte>, env: Env) returns (status: Status)
      requires server.Valid()
      modifies this, server
      ensures server.Valid()
      ensures var r := PollWrite(server.port, old(server.Model()), call, old(session), plain, env);
              server.Model() == r.sod && session == r.sess && status == r.status
    {
      hide Exchange, PollFrame;
      if !session.inUse {
        status := Protocol;
        return;
      }
      if |plain| == 0 || |plain| > MAX_PROTECTED {
        status := BufSize;
        return;
      }
      if session.counter >= KEY_USE_LIMIT {
        status := Protocol;
        return;
      }
      var counter := session.counter + 1;
      var frame := PollFrame(server.port.gcm, call, session, counter, plain);
      var reply := Send(server, call.client, session.dataId, frame, env);
      status := WriteAnswer(reply);
      if status == SecOk {
        session := session.(counter := counter);
      }
    }

    /**
     * The poll-read verb: one armed read, then a poll per environment, stopping
     * at the first failure. The session is wiped at the end.
     */
    method RunReadPoll(server: Server<A>, call: Call, bufSize: nat, random: Option<Nonce>, e1: Env, e2: Env,
                       polls: seq<Env>)
      returns (exit: nat, values: seq<seq<byte>>)
      requires server.Valid()
      modifies this, server
      ensures server.Valid() && session == NO_CYCLE
      ensures var armed := Armed(call);
              var first := ReadFlow(server.port, old(server.Model()), armed, bufSize, random, e1, e2);
              if first.status != SecOk then
                exit == ExitCode(first.status) && values == [] && server.Model() == first.sod
              else
                var run := ReadPolls(server.port, first.sod, call, ArmedSession(NO_CYCLE, armed, first), bufSize, polls);
                exit == ExitCode(run.status) && values == [first.plain] + run.values && server.Model() == run.sod
    {
      hide PollRead, ReadFlow;
      session := NO_CYCLE;
      var status, plain := ReadArmed(server, call, bufSize, random, e1, e2);
      if status != SecOk {
        session := NO_CYCLE;
        return ExitCode(status), [];
      }
      values := [plain];
      ghost var port, start, sess := server.port, server.Model(), session;
      ghost var run := PollRun(start, sess, SecOk, []);
      var n := 0;
      while n < |polls| && status == SecOk
        invariant 0 <= n <= |polls| && server.Valid()
        invariant run == ReadPolls(port, start, call, sess, bufSize, polls[..n])
        invariant server.Model() == run.sod && session == run.sess && status == run.status
        invariant values == [plain] + run.values
      {
        var value;
        assert polls[..n + 1][..n] == polls[..n];
        run := ReadPollStep(port, run, call, bufSize, polls[n]);
        status, value := PollReadOnce(server, call, bufSize, polls[n]);
        if status == SecOk {
          values := values + [value];
        }
        n := n + 1;
      }
      ReadPollsStop(port, start, call, sess, bufSize, polls, n);
      session := NO_CYCLE;
      exit := ExitCode(status);
    }

    /** The poll-write verb: one armed write, then a poll with the same value per environment. */
    method RunWritePoll(server: Server<A>, call: Call, plain: seq<byte>, random: Option<Nonce>, e1: Env, e2: Env,
                        polls: seq<Env>)
      returns (exit: nat)
      requires server.Valid()
      modifies this, server
      ensures server.Valid() && session == NO_CYCLE
      ensures var armed := Armed(call);
              var first := WriteFlow(server.port, old(server.Model()), armed, plain, random, e1, e2);
              if first.status != SecOk then
                exit == ExitCode(first.status) && server.Model() == first.sod
              else
                var run := WritePolls(server.port, first.sod, call, ArmedSession(NO_CYCLE, armed, first), plain, polls);
                exit == ExitCode(run.status) && server.Model() == run.sod
    {
      hide PollWrite, WriteFlow;
      session := NO_CYCLE;
      var status := WriteArmed(server, call, plain, random, e1, e2);
      if status != SecOk {
        session := NO_CYCLE;
        return ExitCode(status);
      }
      ghost var port, start, sess := server.port, server.Model(), session;
      ghost var run := PollRun(start, sess, SecOk, []);
      var n := 0;
      while n < |polls| && status == SecOk
        invariant 0 <= n <= |polls| && server.Valid()
        invariant run == WritePolls(port, start, call, sess, plain, polls[..n])
        invariant server.Model() == run.sod && session == run.sess && status == run.status
      {
        assert polls[..n + 1][..n] == polls[..n];
        run := WritePollStep(port, run, call, plain, polls[n]);
        status := PollWriteOnce(server, call, plain, polls[n]);
        n := n + 1;
      }
      WritePollsStop(port, start, call, sess, plain, polls, n);
      session := NO_CYCLE;
      exit := ExitCode(status);
    }
  }
}
