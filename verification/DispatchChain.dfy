/**
 * The request chain as it runs: each handler either answers through the reply
 * callback and says so, or leaves the request to the next.
 */
module DispatchChain {
  import opened Bytes
  import opened Aborts
  import opened SecureOd
  import Rpk
  import opened ServerCarrier
  import opened DeviceModel

  class Chain {
    const config: Config
    var sod: Sod<App>
    var challenge: Rpk.Challenge
    /** What went out through the reply callback, oldest first. */
    var sent: seq<DispatchReply>

    ghost predicate Valid()
      reads this
    {
      sod.Shaped()
    }

    ghost function Model(): State
      reads this
    {
      State(sod, challenge)
    }

    constructor (config: Config, sod: Sod<App>)
      requires sod.Shaped()
      ensures Valid() && this.config == config && Model() == State(sod, Rpk.NO_CHALLENGE) && sent == []
    {
      this.config, this.sod, this.challenge, this.sent := config, sod, Rpk.NO_CHALLENGE, [];
    }

    method SendReply(status: byte, data: seq<byte>)
      modifies `sent
      ensures sent == old(sent) + [DispatchReply(status, data)]
    {
      sent := sent + [DispatchReply(status, data)];
    }

    method TryConstant(q: Incoming) returns (handled: bool)
      modifies `sent
      ensures var r := config.constants(sod, q.dataId, q.body);
              handled == r.Some? && sent == old(sent) + if handled then [r.value] else []
    {
      var r := config.constants(sod, q.dataId, q.body);
      if r.None? {
        return false;
      }
      SendReply(r.value.status, r.value.data);
      return true;
    }

    method TryHandover(q: Incoming) returns (handled: bool)
      requires Valid()
      modifies this
      ensures Valid() && challenge == old(challenge) && handled == IsHandover(q.dataId)
      ensures if handled then
                var r := Handover(config, Commissioned(old(sod)), q);
                sod == WithCommissioned(old(sod), r.0) && sent == old(sent) + [r.1]
              else sod == old(sod) && sent == old(sent)
    {
      if !IsHandover(q.dataId) {
        return false;
      }
      var r := Handover(config, Commissioned(sod), q);
      sod := WithCommissioned(sod, r.0);
      SendReply(r.1.status, r.1.data);
      return true;
    }

    method TrySigned(q: Incoming, t: Tick) returns (handled: bool)
      requires Valid()
      modifies this
      ensures Valid()
      ensures var r := Rpk.Try(HostOf(config), old(challenge), old(sod), SignedRequest(q, t));
              && handled == r.Some?
              && (if handled then
                    && sod == r.value.app && challenge == r.value.challenge
                    && sent == old(sent) + [DispatchReply(r.value.answer.status, r.value.answer.data)]
                  else sod == old(sod) && challenge == old(challenge) && sent == old(sent))
    {
      hide Rpk.Try, HostOf;
      var r := Rpk.Try(HostOf(config), challenge, sod, SignedRequest(q, t));
      if r.None? {
        return false;
      }
      SignedShape(config, State(sod, challenge), q, t);
      sod, challenge := r.value.app, r.value.challenge;
      SendReply(r.value.answer.status, r.value.answer.data);
      return true;
    }

    /** Every request gets exactly one reply, on every path. */
    method HandleRequest(q: Incoming, t: Tick)
      requires Valid()
      modifies this
      ensures Valid()
      ensures var r := Serve(config, old(Model()), q, t); Model() == r.0 && sent == old(sent) + [r.1]
    {
      hide Dispatch, Rpk.Try, HostOf, Handover, PortOf;
      var handled := TryConstant(q);
      if handled {
        return;
      }
      handled := TryHandover(q);
      if handled {
        return;
      }
      handled := TrySigned(q, t);
      if handled {
        return;
      }
      var r := Dispatch(PortOf(config), sod, q.dataId, SodRequest(q, t));
      sod := r.sod;
      match r.reply {
        case Accepted(data) => SendReply(NO_ABORT, data);
        case Deferred => SendReply(NO_ABORT, []);
        case Refused(code) => SendReply(code, []);
        case NotHandled => SendReply(NO_OBJECT, []);
      }
    }
  }
}
