/**
 * The carrier refines a direct call: what a transport read or write returns is
 * what the server's dispatcher answers, whatever its size and the noise on the bus.
 */
module CarrierRefinement {
  import opened Bytes
  import opened Aborts
  import opened CanFdFrame
  import opened Usdo
  import opened ServerCarrier
  import opened CarrierRuns
  import opened SecureProto
  import opened ClientCarrier

  /** What a direct caller with a buffer of `bufSize` bytes gets. */
  function DirectRead(r: DispatchReply, bufSize: nat): Answer {
    if r.status != NO_ABORT then Failed(Aborted(r.status))
    else if |r.data| > SEG_BODY_MAX then Failed(Timeout)
    else if |r.data| > bufSize then Failed(BufSize)
    else Got(r.data)
  }

  /** A write expects an empty reply; a small one is dropped, a large one is taken for a protocol error. */
  function DirectWrite(r: DispatchReply): Status {
    if r.status != NO_ABORT then Aborted(r.status)
    else if |r.data| <= DATA_MAX then SecOk
    else if |r.data| <= SEG_BODY_MAX then Protocol
    else Timeout
  }

  lemma DataIdRoundTrip(dataId: u32)
    ensures DataIdOf(IndexOf(dataId), SubOf(dataId)) == dataId - dataId % 0x100
  {
    var a := dataId / 0x100;
    assert dataId == 0x100 * a + dataId % 0x100;
    assert dataId / 0x1_0000 == a / 0x100 && a == 0x100 * (a / 0x100) + a % 0x100;
  }

  lemma FairStays<D>(bus: Bus<D>, w: Wire<D>, v: Wire<D>, me: byte)
    requires Fair(bus, w, me) && v.carrier.node == w.carrier.node
    ensures Fair(bus, v, me)
  {
    forall n: nat, f | f in bus.noise(n) ensures Foreign(v.carrier, me, f) {
      assert Foreign(w.carrier, me, f);
    }
  }

  lemma RequestPduOk(m: Message)
    requires Encodable(m) && CmdIsRequest(CmdOf(m.body))
    ensures RequestOk(PduOf(m)) && PduOf(m).session == m.session != 0 && PduOf(m).cmd == CmdOf(m.body)
            && PduOf(m).src == m.src && PduOf(m).dst == m.dst
  {
  }

  /** An answer to a request with a multiplexor names the same object. */
  lemma AnswerAgrees<D>(s: Dispatcher<D>, c: Carrier<D>, m: Message, index: u16, sub: byte)
    requires CarrierOk(c) && Encodable(m) && c.node == m.dst
    requires (m.body.DownloadReq? || m.body.UploadReq? || m.body.DownloadInitReq?) && m.body.index == index && m.body.sub == sub
    ensures var out := HandlePdu(s, c, PduOf(m)).out;
            out.Some? ==> Encodable(out.value) && MuxAgrees(Some((index, sub)), out.value)
  {
    RequestPduOk(m);
    OneAnswerPerRequest(s, c, PduOf(m));
  }

  /** A round trip with a multiplexor, seen from the client. */
  lemma MuxRoundTrip<D>(bus: Bus<D>, w: Wire<D>, link: Link, session: byte, body: Body, expected: byte, alt: byte, bufSize: nat)
    requires CarrierOk(w.carrier) && w.carrier.node == link.node && Fair(bus, w, link.me)
    requires Encodable(Message(link.me, link.node, session, body))
    requires body.DownloadReq? || body.UploadReq? || body.DownloadInitReq?
    ensures var step := HandlePdu(bus.dispatcher, w.carrier, PduOf(Message(link.me, link.node, session, body)));
            && (step.out.Some? ==> Encodable(step.out.value))
            && RoundTrip(bus, w, link, session, body, expected, alt, Some((body.index, body.sub)), bufSize)
                 == (Wire(step.carrier, w.n + 1),
                     if step.out.None? then Gave(Timeout) else JudgeAnswer(PduOf(step.out.value), expected, alt, bufSize))
  {
    hide HandlePdu, PduOf, JudgeAnswer, RoundTrip, MuxAgrees, TooLargeToAnswer, DispatchOf;
    var m := Message(link.me, link.node, session, body);
    RequestPduOk(m);
    OneAnswerPerRequest(bus.dispatcher, w.carrier, PduOf(m));
    AnswerAgrees(bus.dispatcher, w.carrier, m, body.index, body.sub);
    RoundTripIsDirect(bus, w, link, session, body, expected, alt, Some((body.index, body.sub)), bufSize);
  }

  /** A round trip of a segment frame, which carries no multiplexor. */
  lemma SegmentRoundTrip<D>(bus: Bus<D>, w: Wire<D>, link: Link, session: byte, body: Body, expected: byte, alt: byte)
    requires CarrierOk(w.carrier) && w.carrier.node == link.node && Fair(bus, w, link.me)
    requires Encodable(Message(link.me, link.node, session, body))
    requires body.DownloadSegReq? || body.DownloadEndReq? || body.UploadSegReq?
    ensures var step := HandlePdu(bus.dispatcher, w.carrier, PduOf(Message(link.me, link.node, session, body)));
            && (step.out.Some? ==> Encodable(step.out.value))
            && RoundTrip(bus, w, link, session, body, expected, alt, None, PAYLOAD_MAX)
                 == (Wire(step.carrier, w.n + 1),
                     if step.out.None? then Gave(Timeout)
                     else JudgeAnswer(PduOf(step.out.value), expected, alt, PAYLOAD_MAX))
  {
    hide HandlePdu, PduOf, JudgeAnswer, RoundTrip, TooLargeToAnswer, DispatchOf;
    var m := Message(link.me, link.node, session, body);
    RequestPduOk(m);
    OneAnswerPerRequest(bus.dispatcher, w.carrier, PduOf(m));
    RoundTripIsDirect(bus, w, link, session, body, expected, alt, None, PAYLOAD_MAX);
  }

  /* ---- Reading ---- */

  /** The server's upload automaton holds `data` for this link and session, `counter` segments sent. */
  predicate Parked<D>(c: Carrier<D>, link: Link, session: byte, counter: byte, data: seq<byte>) {
    && c.up == Upload(true, link.me, session, SEG_DATA_MAX * counter, counter, data)
    && SEG_DATA_MAX * counter < |data| <= SEG_BODY_MAX
  }

  /** One upload-segment request on a parked result. */
  lemma ParkedAnswers<D>(s: Dispatcher<D>, c: Carrier<D>, link: Link, session: byte, counter: byte, data: seq<byte>)
    requires CarrierOk(c) && c.node == link.node && NodeOk(link.me) && session != 0 && Parked(c, link, session, counter, data)
    ensures var at := SEG_DATA_MAX * counter;
            var r := HandlePdu(s, c, PduOf(Message(link.me, link.node, session, UploadSegReq(counter))));
            && r.carrier.app == c.app && r.carrier.node == c.node && r.out.Some?
            && (if |data| - at > SEG_DATA_MAX then
                  && counter < 4 && Parked(r.carrier, link, session, counter + 1, data)
                  && r.out.value == Message(link.node, link.me, session, UploadSegResp(counter, data[at..at + SEG_DATA_MAX]))
                else r.out.value == Message(link.node, link.me, session, UploadEndResp(data[at..])))
  {
  }

  lemma PullGetsParked<D>(bus: Bus<D>, w: Wire<D>, link: Link, session: byte, counter: byte, data: seq<byte>)
    requires CarrierOk(w.carrier) && w.carrier.node == link.node && NodeOk(link.me) && session != 0 && Fair(bus, w, link.me)
    requires Parked(w.carrier, link, session, counter, data)
    ensures var r := SegPull(bus, w, link, session, |data|, counter, data[..SEG_DATA_MAX * counter]);
            r.1 == Got(data) && r.0.carrier.app == w.carrier.app
    decreases 0x100 - counter
  {
    hide HandlePdu, RoundTrip;
    var at := SEG_DATA_MAX * counter;
    SegmentRoundTrip(bus, w, link, session, UploadSegReq(counter), CMD_UPLOAD_SEG_RESP, CMD_UPLOAD_END_RESP);
    ParkedAnswers(bus.dispatcher, w.carrier, link, session, counter, data);
    var step := HandlePdu(bus.dispatcher, w.carrier, PduOf(Message(link.me, link.node, session, UploadSegReq(counter))));
    if |data| - at > SEG_DATA_MAX {
      assert data[..at] + data[at..at + SEG_DATA_MAX] == data[..at + SEG_DATA_MAX];
      FairStays(bus, w, Wire(step.carrier, w.n + 1), link.me);
      PullGetsParked(bus, Wire(step.carrier, w.n + 1), link, session, counter + 1, data);
    } else {
      assert data[..at] + data[at..] == data;
    }
  }

  /** What the server does with a one-frame request. */
  lemma RequestIsServed<D>(s: Dispatcher<D>, c: Carrier<D>, link: Link, session: byte, index: u16, sub: byte, body: seq<byte>,
                           fetch: bool)
    requires CarrierOk(c) && c.node == link.node && NodeOk(link.me) && session != 0 && IndexOk(index) && |body| <= DATA_MAX
    requires fetch ==> body == []
    ensures var request := if fetch then UploadReq(index, sub) else DownloadReq(index, sub, body);
            var r := HandlePdu(s, c, PduOf(Message(link.me, link.node, session, request)));
            var d := s.call(c.app, link.me, DataIdOf(index, sub), body);
            && r.carrier.app == d.0 && r.carrier.node == c.node
            && if d.1.status == NO_ABORT && |d.1.data| > DATA_MAX then
                 if |d.1.data| > SEG_BODY_MAX then r.out.None?
                 else
                   && r.out == Some(Message(link.node, link.me, session, UploadInitResp(index, sub, |d.1.data|)))
                   && Parked(r.carrier, link, session, 0, d.1.data)
               else
                 r.out == Some(Message(link.node, link.me, session,
                                       if d.1.status != NO_ABORT then Abort(index, sub, d.1.status)
                                       else if fetch then UploadResp(index, sub, d.1.data)
                                       else DownloadResp(index, sub, d.1.data)))
  {
  }

  /**
   * A read returns exactly the bytes, the failure or the abort code of a direct
   * dispatch, for request bodies up to 56 bytes and results up to 256.
   */
  lemma ReadRefinesDispatch<D>(bus: Bus<D>, cl: Client<D>, me: byte, device: u16, dataId: u32, body: seq<byte>, bufSize: nat)
    requires CarrierOk(cl.wire.carrier) && NodeOk(me) && cl.wire.carrier.node == device % 0x100 && Fair(bus, cl.wire, me)
    requires |body| <= DATA_MAX && IndexOk(IndexOf(dataId))
    ensures var r := TransportRead(bus, cl, me, device, dataId, body, bufSize);
            var d := bus.dispatcher.call(cl.wire.carrier.app, me, dataId - dataId % 0x100, body);
            && r.1 == DirectRead(d.1, bufSize) && r.0.wire.carrier.app == d.0
            && r.0.session == NextSession(cl.session)
  {
    hide HandlePdu, RoundTrip, SegPull;
    var link, session, w := Link(me, device % 0x100), NextSession(cl.session), cl.wire;
    var index, sub := IndexOf(dataId), SubOf(dataId);
    var request := FetchBody(index, sub, body);
    DataIdRoundTrip(dataId);
    RequestIsServed(bus.dispatcher, w.carrier, link, session, index, sub, body, body == []);
    MuxRoundTrip(bus, w, link, session, request, if body == [] then CMD_UPLOAD_RESP else CMD_DOWNLOAD_RESP,
                 CMD_UPLOAD_INIT_RESP, bufSize);
    var step := HandlePdu(bus.dispatcher, w.carrier, PduOf(Message(me, link.node, session, request)));
    var d := bus.dispatcher.call(w.carrier.app, me, dataId - dataId % 0x100, body).1;
    if d.status == NO_ABORT && DATA_MAX < |d.data| <= SEG_BODY_MAX && |d.data| <= bufSize {
      FairStays(bus, w, Wire(step.carrier, w.n + 1), me);
      PullGetsParked(bus, Wire(step.carrier, w.n + 1), link, session, 0, d.data);
      assert d.data[..0] == [];
    }
  }

  /* ---- Writing ---- */

  /** The server's download automaton has the first `counter` segments of `body` from this link and session. */
  predicate Receiving<D>(c: Carrier<D>, link: Link, session: byte, index: u16, sub: byte, counter: byte, body: seq<byte>) {
    && SEG_DATA_MAX * counter < |body| <= SEG_BODY_MAX
    && c.down == Download(true, link.me, session, index, sub, counter, |body|, body[..SEG_DATA_MAX * counter])
  }

  lemma InitiateOpens<D>(s: Dispatcher<D>, c: Carrier<D>, link: Link, session: byte, index: u16, sub: byte, body: seq<byte>)
    requires CarrierOk(c) && c.node == link.node && NodeOk(link.me) && session != 0 && IndexOk(index)
    requires 0 < |body| <= SEG_BODY_MAX
    ensures var r := HandlePdu(s, c, PduOf(Message(link.me, link.node, session, DownloadInitReq(index, sub, |body|))));
            && r.carrier.app == c.app && r.carrier.node == c.node
            && Receiving(r.carrier, link, session, index, sub, 0, body)
            && r.out == Some(Message(link.node, link.me, session, DownloadInitResp(index, sub)))
  {
    assert body[..0] == [];
  }

  lemma SegmentIsTaken<D>(s: Dispatcher<D>, c: Carrier<D>, link: Link, session: byte, index: u16, sub: byte, counter: byte,
                          body: seq<byte>)
    requires CarrierOk(c) && c.node == link.node && NodeOk(link.me) && session != 0
    requires Receiving(c, link, session, index, sub, counter, body) && |body| - SEG_DATA_MAX * counter > SEG_DATA_MAX
    ensures var at := SEG_DATA_MAX * counter;
            var r := HandlePdu(s, c, PduOf(Message(link.me, link.node, session,
                                                   DownloadSegReq(counter, body[at..at + SEG_DATA_MAX]))));
            && r.carrier.app == c.app && r.carrier.node == c.node && counter < 4
            && Receiving(r.carrier, link, session, index, sub, counter + 1, body)
            && r.out == Some(Message(link.node, link.me, session, DownloadSegResp(counter)))
  {
    var at := SEG_DATA_MAX * counter;
    assert body[..at] + body[at..at + SEG_DATA_MAX] == body[..at + SEG_DATA_MAX];
  }

  lemma EndIsServed<D>(s: Dispatcher<D>, c: Carrier<D>, link: Link, session: byte, index: u16, sub: byte, counter: byte,
                       body: seq<byte>)
    requires CarrierOk(c) && c.node == link.node && NodeOk(link.me) && session != 0
    requires Receiving(c, link, session, index, sub, counter, body) && |body| - SEG_DATA_MAX * counter <= SEG_DATA_MAX
    ensures var at := SEG_DATA_MAX * counter;
            var r := HandlePdu(s, c, PduOf(Message(link.me, link.node, session, DownloadEndReq(body[at..]))));
            var d := s.call(c.app, link.me, DataIdOf(index, sub), body);
            && r.carrier.app == d.0
            && r.out == (if d.1.status != NO_ABORT then Some(Message(link.node, link.me, session, Abort(index, sub, d.1.status)))
                         else if |d.1.data| <= DATA_MAX then Some(Message(link.node, link.me, session, DownloadEndResp))
                         else if |d.1.data| <= SEG_BODY_MAX then
                           Some(Message(link.node, link.me, session, UploadInitResp(index, sub, |d.1.data|)))
                         else None)
  {
    assert body[..SEG_DATA_MAX * counter] + body[SEG_DATA_MAX * counter..] == body;
  }

  lemma PushDelivers<D>(bus: Bus<D>, w: Wire<D>, link: Link, session: byte, index: u16, sub: byte, body: seq<byte>, counter: byte)
    requires CarrierOk(w.carrier) && w.carrier.node == link.node && NodeOk(link.me) && session != 0 && Fair(bus, w, link.me)
    requires Receiving(w.carrier, link, session, index, sub, counter, body)
    ensures var r := SegPush(bus, w, link, session, body, counter);
            var d := bus.dispatcher.call(w.carrier.app, link.me, DataIdOf(index, sub), body);
            r.1 == DirectWrite(d.1) && r.0.carrier.app == d.0
    decreases 0x100 - counter
  {
    hide HandlePdu, RoundTrip;
    var at := SEG_DATA_MAX * counter;
    if |body| - at > SEG_DATA_MAX {
      var request := DownloadSegReq(counter, body[at..at + SEG_DATA_MAX]);
      SegmentRoundTrip(bus, w, link, session, request, CMD_DOWNLOAD_SEG_RESP, 0);
      SegmentIsTaken(bus.dispatcher, w.carrier, link, session, index, sub, counter, body);
      var step := HandlePdu(bus.dispatcher, w.carrier, PduOf(Message(link.me, link.node, session, request)));
      FairStays(bus, w, Wire(step.carrier, w.n + 1), link.me);
      PushDelivers(bus, Wire(step.carrier, w.n + 1), link, session, index, sub, body, counter + 1);
    } else {
      SegmentRoundTrip(bus, w, link, session, DownloadEndReq(body[at..]), CMD_DOWNLOAD_END_RESP, 0);
      EndIsServed(bus.dispatcher, w.carrier, link, session, index, sub, counter, body);
    }
  }

  /**
   * A write of up to 256 bytes, in one frame or in segments, makes exactly one
   * dispatch with exactly these bytes, and reports its success or abort code.
   */
  lemma WriteRefinesDispatch<D>(bus: Bus<D>, cl: Client<D>, me: byte, device: u16, dataId: u32, body: seq<byte>)
    requires CarrierOk(cl.wire.carrier) && NodeOk(me) && cl.wire.carrier.node == device % 0x100 && Fair(bus, cl.wire, me)
    requires |body| <= SEG_BODY_MAX && IndexOk(IndexOf(dataId))
    ensures var r := TransportWrite(bus, cl, me, device, dataId, body);
            var d := bus.dispatcher.call(cl.wire.carrier.app, me, dataId - dataId % 0x100, body);
            && r.1 == DirectWrite(d.1) && r.0.wire.carrier.app == d.0
            && r.0.session == NextSession(cl.session)
  {
    hide HandlePdu, RoundTrip, SegPush;
    var link, session, w := Link(me, device % 0x100), NextSession(cl.session), cl.wire;
    var index, sub := IndexOf(dataId), SubOf(dataId);
    DataIdRoundTrip(dataId);
    if |body| <= DATA_MAX {
      RequestIsServed(bus.dispatcher, w.carrier, link, session, index, sub, body, false);
      MuxRoundTrip(bus, w, link, session, DownloadReq(index, sub, body), CMD_DOWNLOAD_RESP, 0, PAYLOAD_MAX);
    } else {
      var request := DownloadInitReq(index, sub, |body|);
      InitiateOpens(bus.dispatcher, w.carrier, link, session, index, sub, body);
      MuxRoundTrip(bus, w, link, session, request, CMD_DOWNLOAD_INIT_RESP, 0, PAYLOAD_MAX);
      var step := HandlePdu(bus.dispatcher, w.carrier, PduOf(Message(me, link.node, session, request)));
      FairStays(bus, w, Wire(step.carrier, w.n + 1), me);
      PushDelivers(bus, Wire(step.carrier, w.n + 1), link, session, index, sub, body, 0);
    }
  }
}
