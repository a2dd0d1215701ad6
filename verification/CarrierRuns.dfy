/**
 * The server's carrier under every sequence of frames: exactly one answer per
 * request, and a dispatcher that only ever sees whole bodies.
 */
module CarrierRuns {
  import opened Bytes
  import opened Aborts
  import opened CanFdFrame
  import opened Usdo
  import opened ServerCarrier

  /* ---- One answer per request ---- */

  /** The dispatch that handling this request would make, if any. */
  function DispatchOf<D>(c: Carrier<D>, pdu: Pdu): Option<Served> {
    if pdu.cmd == CMD_DOWNLOAD_INIT_REQ || pdu.cmd == CMD_DOWNLOAD_SEG_REQ || pdu.cmd == CMD_UPLOAD_SEG_REQ then None
    else if pdu.cmd == CMD_DOWNLOAD_END_REQ then
      if Matches(c.down, pdu) && |c.down.body| + |pdu.data| == c.down.total
      then Some(Served(c.down.src, DataIdOf(c.down.index, c.down.sub), c.down.body + pdu.data)) else None
    else Some(Served(pdu.src, DataIdOf(pdu.index, pdu.sub), pdu.data))
  }

  /** The one case without an answer: a successful result too large for a segmented upload. */
  predicate TooLargeToAnswer<D>(s: Dispatcher<D>, c: Carrier<D>, pdu: Pdu) {
    var call := DispatchOf(c, pdu);
    && call.Some?
    && var r := s.call(c.app, call.value.src, call.value.dataId, call.value.body).1;
       r.status == NO_ABORT && |r.data| > SEG_BODY_MAX
  }

  /**
   * In every state, a client command with a nonzero session gets exactly one
   * message back, from this node to the requester and under its session;
   * nothing is sent exactly when the result is too large to announce.
   */
  lemma OneAnswerPerRequest<D>(s: Dispatcher<D>, c: Carrier<D>, pdu: Pdu)
    requires CarrierOk(c) && RequestOk(pdu) && CmdIsRequest(pdu.cmd) && pdu.session != 0
    ensures var r := HandlePdu(s, c, pdu);
            && r.served == DispatchOf(c, pdu)
            && (r.out.None? <==> TooLargeToAnswer(s, c, pdu))
            && (r.out.Some? ==>
                  r.out.value.src == c.node && r.out.value.dst == pdu.src && r.out.value.session == pdu.session
                  && Encodable(r.out.value) && !CmdIsRequest(CmdOf(r.out.value.body)))
  {
    hide Tail;
  }

  lemma OneAnswerPerFrame<D>(s: Dispatcher<D>, c: Carrier<D>, f: Frame)
    requires CarrierOk(c) && ForUs(c, f) && CmdIsRequest(Decode(f).pdu.cmd) && Decode(f).pdu.session != 0
    ensures var pdu, r := Decode(f).pdu, HandleFrame(s, c, f);
            && (r.out.None? <==> TooLargeToAnswer(s, c, pdu))
            && (r.out.Some? ==>
                  r.out.value.src == c.node && r.out.value.dst == pdu.src && r.out.value.session == pdu.session)
  {
    hide Decode, HandlePdu, TooLargeToAnswer;
    DecodedRequestOk(f);
    OneAnswerPerRequest(s, c, Decode(f).pdu);
  }

  /* ---- Reassembly over runs ---- */

  /** The declared size and the accepted segments since the last initiate. */
  datatype Log = Log(total: nat, segments: seq<seq<byte>>)

  function Concat(segments: seq<seq<byte>>): seq<byte> {
    if segments == [] then [] else Concat(segments[..|segments| - 1]) + segments[|segments| - 1]
  }

  predicate Accepts(d: Download, pdu: Pdu) {
    && Matches(d, pdu) && |d.body| + |pdu.data| <= d.total
    && (pdu.cmd == CMD_DOWNLOAD_SEG_REQ ==> pdu.counter == d.counter)
  }

  function LogPdu(d: Download, log: Log, pdu: Pdu): Log {
    if pdu.cmd == CMD_DOWNLOAD_INIT_REQ then Log(pdu.totalSize, [])
    else if (pdu.cmd == CMD_DOWNLOAD_SEG_REQ || pdu.cmd == CMD_DOWNLOAD_END_REQ) && Accepts(d, pdu) then
      log.(segments := log.segments + [pdu.data])
    else log
  }

  function LogFrame<D>(c: Carrier<D>, log: Log, f: Frame): Log {
    if ForUs(c, f) then LogPdu(c.down, log, Decode(f).pdu) else log
  }

  function RunFrames<D>(s: Dispatcher<D>, c: Carrier<D>, frames: seq<Frame>): (r: Carrier<D>)
    requires CarrierOk(c)
    ensures CarrierOk(r) && r.node == c.node
  {
    if frames == [] then c
    else
      var n := |frames| - 1;
      var before := RunFrames(s, c, frames[..n]);
      assert CarrierOk(HandleFrame(s, before, frames[n]).carrier) && HandleFrame(s, before, frames[n]).carrier.node == c.node by {
        FrameKeepsCarrierOk(s, before, frames[n]);
      }
      HandleFrame(s, before, frames[n]).carrier
  }

  function LogOf<D>(s: Dispatcher<D>, c: Carrier<D>, frames: seq<Frame>): Log
    requires CarrierOk(c)
  {
    if frames == [] then Log(0, [])
    else
      var n := |frames| - 1;
      LogFrame(RunFrames(s, c, frames[..n]), LogOf(s, c, frames[..n]), frames[n])
  }

  ghost predicate Reassembles(d: Download, log: Log) {
    d.active ==> d.body == Concat(log.segments) && d.total == log.total
  }

  lemma ConcatAppends(segments: seq<seq<byte>>, last: seq<byte>)
    ensures Concat(segments + [last]) == Concat(segments) + last
  {
    assert (segments + [last])[..|segments|] == segments;
  }

  lemma FeedReassembles<D>(c: Carrier<D>, log: Log, pdu: Pdu)
    requires CarrierOk(c) && Reassembles(c.down, log) && RequestOk(pdu)
    requires pdu.cmd == CMD_DOWNLOAD_SEG_REQ || pdu.cmd == CMD_DOWNLOAD_END_REQ
    ensures var fed, after := DownloadFeed(c, pdu), LogPdu(c.down, log, pdu);
            && Reassembles(fed.0.carrier.down, after) && fed.0.served.None?
            && (fed.1 ==> fed.0.carrier.down.body == Concat(after.segments) && |fed.0.carrier.down.body| == after.total)
  {
    hide Encodable, Concat;
    ConcatAppends(log.segments, pdu.data);
  }

  lemma PduReassembles<D>(s: Dispatcher<D>, c: Carrier<D>, log: Log, pdu: Pdu)
    requires CarrierOk(c) && Reassembles(c.down, log) && RequestOk(pdu)
    ensures var r, after := HandlePdu(s, c, pdu), LogPdu(c.down, log, pdu);
            && Reassembles(r.carrier.down, after)
            && (r.served.Some? && pdu.cmd == CMD_DOWNLOAD_END_REQ ==>
                  r.served.value.body == Concat(after.segments) && |r.served.value.body| == after.total)
  {
    assert Concat([]) == [];
    hide ServeRequest, DownloadFeed, Encodable, Concat;
    if pdu.cmd == CMD_DOWNLOAD_SEG_REQ || pdu.cmd == CMD_DOWNLOAD_END_REQ {
      FeedReassembles(c, log, pdu);
    }
  }

  lemma FrameReassembles<D>(s: Dispatcher<D>, c: Carrier<D>, log: Log, f: Frame)
    requires CarrierOk(c) && Reassembles(c.down, log)
    ensures var r, after := HandleFrame(s, c, f), LogFrame(c, log, f);
            && Reassembles(r.carrier.down, after)
            && (r.served.Some? && Decode(f).pdu.cmd == CMD_DOWNLOAD_END_REQ ==>
                  r.served.value.body == Concat(after.segments) && |r.served.value.body| == after.total)
  {
    hide Decode, HandlePdu, LogPdu;
    DecodedRequestOk(f);
    if ForUs(c, f) {
      PduReassembles(s, c, log, Decode(f).pdu);
    }
  }

  /** Over every run, an active download holds exactly the segments accepted since its initiate. */
  lemma {:induction false} RunReassembles<D>(s: Dispatcher<D>, c: Carrier<D>, frames: seq<Frame>)
    requires CarrierOk(c) && !c.down.active
    ensures Reassembles(RunFrames(s, c, frames).down, LogOf(s, c, frames))
  {
    hide HandleFrame, LogFrame;
    if frames != [] {
      var n := |frames| - 1;
      RunReassembles(s, c, frames[..n]);
      FrameReassembles(s, RunFrames(s, c, frames[..n]), LogOf(s, c, frames[..n]), frames[n]);
    }
  }

  /** A segmented download reaches the dispatcher only whole: all its segments in order, of the declared length. */
  lemma DispatcherSeesWholeBodies<D>(s: Dispatcher<D>, c: Carrier<D>, frames: seq<Frame>, f: Frame)
    requires CarrierOk(c) && !c.down.active
    ensures var before := RunFrames(s, c, frames);
            var r, log := HandleFrame(s, before, f), LogFrame(before, LogOf(s, c, frames), f);
            r.served.Some? && Decode(f).pdu.cmd == CMD_DOWNLOAD_END_REQ ==>
              r.served.value.body == Concat(log.segments) && |r.served.value.body| == log.total
  {
    hide HandleFrame, LogFrame;
    RunReassembles(s, c, frames);
    FrameReassembles(s, RunFrames(s, c, frames), LogOf(s, c, frames), f);
  }
}
