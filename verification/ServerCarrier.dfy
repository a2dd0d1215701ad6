/**
 * The server's end of the USDO carrier: what it does with one received frame.
 * The dispatcher behind it is a parameter: `D` is its state. The two segmented
 * transfers are automata; a body reaches the dispatcher only when complete.
 */
module ServerCarrier {
  import opened Bytes
  import opened Aborts
  import opened CanFdFrame
  import opened Usdo

  /** Stands in for the multiplexor in aborts of segments that carry none. */
  const SEG_ABORT_INDEX: u16 := 0x1000

  function DataIdOf(index: u16, sub: byte): u32 { index * 0x1_0000 + sub * 0x100 }

  datatype DispatchReply = DispatchReply(status: byte, data: seq<byte>)

  /** Calls with the requester's node id, a data id and a body; always one reply. */
  datatype Dispatcher<!D> = Dispatcher(call: (D, u16, u32, seq<byte>) -> (D, DispatchReply))

  /** `body` is what has been received; its length is the source's `have`. */
  datatype Download = Download(active: bool, src: byte, session: byte, index: u16, sub: byte,
                               counter: byte, total: nat, body: seq<byte>)

  datatype Upload = Upload(active: bool, dst: byte, session: byte, sent: nat, counter: byte, body: seq<byte>)

  const NO_DOWNLOAD := Download(false, 0, 0, 0, 0, 0, 0, [])
  const NO_UPLOAD := Upload(false, 0, 0, 0, 0, [])

  datatype Carrier<+D> = Carrier(node: byte, down: Download, up: Upload, app: D)

  /** Where a dispatch came from, for addressing its reply. */
  datatype Origin = Origin(src: byte, cmd: byte, session: byte, index: u16, sub: byte)

  /** A call of the dispatcher, as it saw it. */
  datatype Served = Served(src: byte, dataId: u32, body: seq<byte>)

  /** The new state, the message put on the bus, and the dispatch that was made. */
  datatype Step<+D> = Step(carrier: Carrier<D>, out: Option<Message>, served: Option<Served>)

  /** An encoder that refuses its arguments puts nothing on the bus. */
  function Sent(m: Message): Option<Message> {
    if Encodable(m) then Some(m) else None
  }

  /* ---- Segmented transfers ---- */

  function SegAbort<D>(c: Carrier<D>, peer: byte, session: byte, index: u16, sub: byte, code: byte): Step<D> {
    Step(c.(down := c.down.(active := false), up := c.up.(active := false)),
         Sent(Message(c.node, peer, session, Abort(index, sub, code))), None)
  }

  function DownloadInit<D>(c: Carrier<D>, pdu: Pdu): Step<D> {
    if pdu.totalSize > SEG_BODY_MAX then SegAbort(c, pdu.src, pdu.session, pdu.index, pdu.sub, LEN_TOO_HIGH)
    else
      Step(c.(down := Download(true, pdu.src, pdu.session, pdu.index, pdu.sub, 0, pdu.totalSize, [])),
           Sent(Message(c.node, pdu.src, pdu.session, DownloadInitResp(pdu.index, pdu.sub))), None)
  }

  predicate Matches(d: Download, pdu: Pdu) { d.active && pdu.src == d.src && pdu.session == d.session }

  /** A segment or the end; the flag says that the body is complete. */
  function DownloadFeed<D>(c: Carrier<D>, pdu: Pdu): (r: (Step<D>, bool)) {
    var d := c.down;
    var last := pdu.cmd == CMD_DOWNLOAD_END_REQ;
    if !Matches(d, pdu) then (SegAbort(c, pdu.src, pdu.session, SEG_ABORT_INDEX, 0, SESSION_ID), false)
    else if !last && pdu.counter != d.counter then
      (SegAbort(c, pdu.src, pdu.session, d.index, d.sub, SEG_COUNTER), false)
    else if |d.body| + |pdu.data| > d.total then
      (SegAbort(c, pdu.src, pdu.session, d.index, d.sub, DATA_SIZE), false)
    else
      var fed := d.(body := d.body + pdu.data);
      if !last then
        (Step(c.(down := fed.(counter := (d.counter + 1) % 0x100)),
              Sent(Message(c.node, pdu.src, pdu.session, DownloadSegResp(d.counter))), None), false)
      else if |fed.body| != d.total then
        (SegAbort(c.(down := fed), pdu.src, pdu.session, d.index, d.sub, DATA_SIZE), false)
      else (Step(c.(down := fed), None, None), true)
  }

  function UploadServe<D>(c: Carrier<D>, pdu: Pdu): Step<D>
    requires c.up.active ==> c.up.sent <= |c.up.body|
  {
    var u := c.up;
    if !u.active || pdu.src != u.dst || pdu.session != u.session then
      SegAbort(c, pdu.src, pdu.session, SEG_ABORT_INDEX, 0, SESSION_ID)
    else if pdu.counter != u.counter then
      SegAbort(c, pdu.src, pdu.session, SEG_ABORT_INDEX, 0, SEG_COUNTER)
    else if |u.body| - u.sent > SEG_DATA_MAX then
      Step(c.(up := u.(sent := u.sent + SEG_DATA_MAX, counter := (u.counter + 1) % 0x100)),
           Sent(Message(c.node, u.dst, u.session, UploadSegResp(u.counter, u.body[u.sent..u.sent + SEG_DATA_MAX]))), None)
    else
      Step(c.(up := u.(active := false)), Sent(Message(c.node, u.dst, u.session, UploadEndResp(u.body[u.sent..]))), None)
  }

  /* ---- Dispatch and reply ---- */

  function ReplyBody(o: Origin, r: DispatchReply): Body {
    if r.status != NO_ABORT then Abort(o.index, o.sub, r.status)
    else if o.cmd == CMD_DOWNLOAD_REQ then DownloadResp(o.index, o.sub, r.data)
    else if o.cmd == CMD_DOWNLOAD_END_REQ then DownloadEndResp
    else if o.cmd == CMD_UPLOAD_REQ then UploadResp(o.index, o.sub, r.data)
    else Abort(o.index, o.sub, BAD_CMD)
  }

  /** A large result is parked and announced; anything else answers the request directly. */
  function SendReply<D>(c: Carrier<D>, o: Origin, r: DispatchReply): (Carrier<D>, Option<Message>) {
    if r.status == NO_ABORT && |r.data| > DATA_MAX then
      if |r.data| > SEG_BODY_MAX then (c, None)
      else
        (c.(up := Upload(true, o.src, o.session, 0, 0, r.data)),
         Sent(Message(c.node, o.src, o.session, UploadInitResp(o.index, o.sub, |r.data|))))
    else (c, Sent(Message(c.node, o.src, o.session, ReplyBody(o, r))))
  }

  function ServeRequest<D>(s: Dispatcher<D>, c: Carrier<D>, o: Origin, body: seq<byte>): (r: Step<D>)
    ensures r.carrier.down == c.down && r.carrier.node == c.node
    ensures r.served == Some(Served(o.src, DataIdOf(o.index, o.sub), body))
  {
    var dataId := DataIdOf(o.index, o.sub);
    var r := s.call(c.app, o.src, dataId, body);
    var sent := SendReply(c.(app := r.0), o, r.1);
    Step(sent.0, sent.1, Some(Served(o.src, dataId, body)))
  }

  /** The routing of a decoded request that is addressed to this node. */
  function HandlePdu<D>(s: Dispatcher<D>, c: Carrier<D>, pdu: Pdu): Step<D>
    requires c.up.active ==> c.up.sent <= |c.up.body|
  {
    if pdu.cmd == CMD_DOWNLOAD_INIT_REQ then DownloadInit(c, pdu)
    else if pdu.cmd == CMD_DOWNLOAD_SEG_REQ || pdu.cmd == CMD_DOWNLOAD_END_REQ then
      var fed := DownloadFeed(c, pdu);
      if !fed.1 then fed.0
      else
        var d := fed.0.carrier.down;
        var r := ServeRequest(s, fed.0.carrier, Origin(d.src, CMD_DOWNLOAD_END_REQ, d.session, d.index, d.sub), d.body);
        r.(carrier := r.carrier.(down := r.carrier.down.(active := false)))
    else if pdu.cmd == CMD_UPLOAD_SEG_REQ then UploadServe(c, pdu)
    else ServeRequest(s, c, Origin(pdu.src, pdu.cmd, pdu.session, pdu.index, pdu.sub), pdu.data)
  }

  /** A frame is for this server when it decodes, rides a request identifier and names its node. */
  predicate ForUs<D>(c: Carrier<D>, f: Frame) {
    && Decode(f).Ok? && Decode(f).pdu.dst == c.node
    && SplitId(IdValue(f.canId)).Some? && SplitId(IdValue(f.canId)).value.1 == Request
  }

  function HandleFrame<D>(s: Dispatcher<D>, c: Carrier<D>, f: Frame): Step<D>
    requires c.up.active ==> c.up.sent <= |c.up.body|
  {
    if ForUs(c, f) then HandlePdu(s, c, Decode(f).pdu) else Step(c, None, None)
  }

  /* ---- The invariant of both automata ---- */

  predicate DownloadOk(d: Download) {
    d.active ==>
      && |d.body| == SEG_DATA_MAX * d.counter <= d.total && 1 <= d.total <= SEG_BODY_MAX
      && NodeOk(d.src) && IndexOk(d.index)
  }

  predicate UploadOk(u: Upload) {
    u.active ==> u.sent == SEG_DATA_MAX * u.counter < |u.body| <= SEG_BODY_MAX && NodeOk(u.dst)
  }

  predicate CarrierOk<D>(c: Carrier<D>) { NodeOk(c.node) && DownloadOk(c.down) && UploadOk(c.up) }

  /** What decoding guarantees about a request. */
  predicate RequestOk(pdu: Pdu) {
    && NodeOk(pdu.src)
    && (pdu.muxValid ==> pdu.cmd == CMD_ABORT || IndexOk(pdu.index))
    && (pdu.cmd == CMD_DOWNLOAD_INIT_REQ ==> pdu.muxValid && TotalOk(pdu.totalSize))
    && (pdu.cmd == CMD_DOWNLOAD_REQ || pdu.cmd == CMD_UPLOAD_REQ ==> pdu.muxValid && |pdu.data| <= DATA_MAX)
    && (pdu.cmd == CMD_DOWNLOAD_SEG_REQ ==> |pdu.data| == SEG_DATA_MAX)
  }

  lemma DecodedRequestOk(f: Frame)
    ensures Decode(f).Ok? ==> RequestOk(Decode(f).pdu) && Decode(f).pdu.src == SplitId(IdValue(f.canId)).value.0
  {
  }

  lemma PduKeepsCarrierOk<D>(s: Dispatcher<D>, c: Carrier<D>, pdu: Pdu)
    requires CarrierOk(c) && RequestOk(pdu)
    ensures CarrierOk(HandlePdu(s, c, pdu).carrier) && HandlePdu(s, c, pdu).carrier.node == c.node
  {
    hide Encodable, ReplyBody;
  }

  /**
   * Any frame whatsoever keeps the invariant: an active download holds
   * 60 * counter <= total <= 256 bytes, an active upload has sent
   * 60 * counter < total, so neither counter can wrap.
   */
  lemma FrameKeepsCarrierOk<D>(s: Dispatcher<D>, c: Carrier<D>, f: Frame)
    requires CarrierOk(c)
    ensures CarrierOk(HandleFrame(s, c, f).carrier) && HandleFrame(s, c, f).carrier.node == c.node
    ensures var r := HandleFrame(s, c, f).carrier;
            && (r.down.active ==> r.down.counter <= 4)
            && (r.up.active ==> r.up.counter <= 4)
  {
    hide HandlePdu, Decode;
    DecodedRequestOk(f);
    if ForUs(c, f) {
      PduKeepsCarrierOk(s, c, Decode(f).pdu);
    }
  }

  /**
   * A segment goes out only to the client and session the result was parked
   * for, only when asked for in order, and is exactly the next bytes of it;
   * any other request for one is answered by an abort that closes both transfers.
   */
  lemma UploadServesInOrder<D>(c: Carrier<D>, pdu: Pdu)
    requires CarrierOk(c) && RequestOk(pdu) && pdu.session != 0
    ensures var r, u := UploadServe(c, pdu), c.up;
            var at := SEG_DATA_MAX * pdu.counter;
            && r.out.Some?
            && (if u.active && pdu.src == u.dst && pdu.session == u.session && pdu.counter == u.counter then
                  && at < |u.body|
                  && r.out.value.body == (if |u.body| - at > SEG_DATA_MAX
                                          then UploadSegResp(pdu.counter, u.body[at..at + SEG_DATA_MAX])
                                          else UploadEndResp(u.body[at..]))
                else r.out.value.body.Abort? && !r.carrier.up.active && !r.carrier.down.active)
  {
  }
}
