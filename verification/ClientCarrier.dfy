/**
 * The client's end of the USDO carrier over a bus that delivers every frame,
 * possibly padded, among arbitrary frames between other nodes. The whole
 * carrier behaves like a direct call of the server's dispatcher.
 */
module ClientCarrier {
  import opened Bytes
  import opened CanFdFrame
  import opened Usdo
  import opened ServerCarrier
  import opened CarrierRuns
  import opened SecureProto

  /* ---- Sessions ---- */

  /** 1..255 round and round; 0 is only the state before the first transfer. */
  function NextSession(session: byte): (r: byte)
    ensures r != 0
  {
    if session == 0xFF then 1 else session + 1
  }

  function NthSession(session: byte, n: nat): byte {
    if n == 0 then session else NextSession(NthSession(session, n - 1))
  }

  lemma {:induction false} NthSessionIs(session: byte, n: nat)
    requires n > 0
    ensures NthSession(session, n) == 1 + (session + n - 1) % 255
  {
    if n > 1 {
      NthSessionIs(session, n - 1);
      var x := session + n - 2;
      assert (x + 1) % 255 == if x % 255 == 254 then 0 else x % 255 + 1;
    }
  }

  /** Sessions are never 0, and any 255 consecutive ones are distinct. */
  lemma SessionsAreDistinct(session: byte, i: nat, j: nat)
    requires 0 < i < j < i + 255
    ensures NthSession(session, i) != 0 && NthSession(session, i) != NthSession(session, j)
  {
    NthSessionIs(session, i);
    NthSessionIs(session, j);
  }

  /* ---- The bus ---- */

  /**
   * The server's dispatcher, and what the bus does around the n-th
   * transmission: the frames it carries between other nodes, and how it pads
   * the two frames of the exchange.
   */
  datatype Bus<!D> = Bus(dispatcher: Dispatcher<D>, noise: nat -> seq<Frame>, arrive: (nat, Frame) -> Frame)

  /** The server's end of the wire, and the number of transmissions so far. */
  datatype Wire<+D> = Wire(carrier: Carrier<D>, n: nat)

  predicate IsFromTo(f: Frame, src: byte, dst: byte) {
    && Decode(f).Ok? && Decode(f).pdu.src == src && Decode(f).pdu.dst == dst
    && SplitId(IdValue(f.canId)).value.1 == Response
  }

  /** A frame between other nodes: no request to this server, no response from it to this client. */
  predicate Foreign<D>(c: Carrier<D>, me: byte, f: Frame) { !ForUs(c, f) && !IsFromTo(f, c.node, me) }

  /** Noise is foreign, and frames arrive as sent or padded. */
  ghost predicate Fair<D>(bus: Bus<D>, w: Wire<D>, me: byte) {
    && (forall n: nat, f :: f in bus.noise(n) ==> Foreign(w.carrier, me, f))
    && (forall n: nat, f: Frame :: f.len <= PAYLOAD_MAX ==> ArrivesAs(f, bus.arrive(n, f)))
  }

  lemma NoiseLeavesServer<D>(bus: Bus<D>, w: Wire<D>, me: byte, frames: seq<Frame>)
    requires CarrierOk(w.carrier) && forall f :: f in frames ==> Foreign(w.carrier, me, f)
    ensures RunFrames(bus.dispatcher, w.carrier, frames) == w.carrier
  {
    if frames != [] {
      var n := |frames| - 1;
      NoiseLeavesServer(bus, w, me, frames[..n]);
      assert frames[n] in frames;
    }
  }

  function Padded(f: Frame): Frame {
    if f.len > PAYLOAD_MAX then f
    else f.(len := DlcToLen(LenToDlc(f.len)), payload := f.payload[..f.len] + Zeros(PAYLOAD_MAX - f.len))
  }

  lemma PaddedArrives(f: Frame)
    requires f.len <= PAYLOAD_MAX
    ensures ArrivesAs(f, Padded(f))
  {
    PaddingIsTight(f.len);
    hide DlcToLen, LenToDlc;
    var g := Padded(f);
    assert g.payload[..g.len] == f.payload[..f.len] + Zeros(g.len - f.len);
  }

  /** A bus that carries nothing else and pads every frame to a CAN FD length. */
  function PaddingBus<D>(dispatcher: Dispatcher<D>): Bus<D> { Bus(dispatcher, (n: nat) => [], (n: nat, f: Frame) => Padded(f)) }

  /** Fair buses exist. */
  lemma PaddingBusIsFair<D>(dispatcher: Dispatcher<D>, w: Wire<D>, me: byte)
    ensures Fair(PaddingBus(dispatcher), w, me)
  {
    hide ArrivesAs, Padded;
    var bus := PaddingBus(dispatcher);
    forall n: nat, f: Frame | f.len <= PAYLOAD_MAX ensures ArrivesAs(f, bus.arrive(n, f)) {
      PaddedArrives(f);
      assert bus.arrive(n, f) == Padded(f);
    }
  }

  /** One transmission: the server sees noise and the request; the client's inbox gets noise and the answer. */
  function Transmit<D>(bus: Bus<D>, w: Wire<D>, m: Message): (r: (Wire<D>, seq<Frame>))
    requires CarrierOk(w.carrier) && Encodable(m)
    ensures CarrierOk(r.0.carrier) && r.0.carrier.node == w.carrier.node
  {
    var noise := bus.noise(w.n);
    var before := RunFrames(bus.dispatcher, w.carrier, noise);
    var request := bus.arrive(w.n, Encode(m));
    assert CarrierOk(HandleFrame(bus.dispatcher, before, request).carrier)
           && HandleFrame(bus.dispatcher, before, request).carrier.node == before.node by {
      FrameKeepsCarrierOk(bus.dispatcher, before, request);
    }
    var step := HandleFrame(bus.dispatcher, before, request);
    (Wire(step.carrier, w.n + 1),
     noise + if step.out.Some? && Encodable(step.out.value) then [bus.arrive(w.n, Encode(step.out.value))] else [])
  }

  /* ---- Round trip ---- */

  /** What a response must look like to be taken for the answer. */
  datatype Filter = Filter(me: byte, node: byte, session: byte, mux: Option<(u16, byte)>)

  predicate Relevant(x: Filter, f: Frame) {
    && IsFromTo(f, x.node, x.me)
    && var pdu := Decode(f).pdu;
       pdu.session == x.session
       && (x.mux.Some? && pdu.muxValid ==> pdu.index == x.mux.value.0 && pdu.sub == x.mux.value.1)
  }

  datatype Outcome = Answered(pdu: Pdu) | Gave(status: Status)

  function JudgeAnswer(pdu: Pdu, expected: byte, alt: byte, bufSize: nat): (r: Outcome)
    ensures r.Gave? ==> r.status != SecOk
  {
    if pdu.cmd == CMD_ABORT then Gave(Aborted(pdu.abortCode))
    else if pdu.cmd != expected && (alt == 0 || pdu.cmd != alt) then Gave(Protocol)
    else if |pdu.data| > bufSize then Gave(BufSize)
    else Answered(pdu)
  }

  /** The receive loop: skip what is not the answer, judge the first frame that is. */
  function Scan(x: Filter, expected: byte, alt: byte, bufSize: nat, inbox: seq<Frame>): (r: Outcome)
    ensures r.Gave? ==> r.status != SecOk
  {
    if inbox == [] then Gave(Timeout)
    else if Relevant(x, inbox[0]) then JudgeAnswer(Decode(inbox[0]).pdu, expected, alt, bufSize)
    else Scan(x, expected, alt, bufSize, inbox[1..])
  }

  lemma {:induction false} ScanSkips(x: Filter, expected: byte, alt: byte, bufSize: nat, noise: seq<Frame>, rest: seq<Frame>)
    requires forall f :: f in noise ==> !Relevant(x, f)
    ensures Scan(x, expected, alt, bufSize, noise + rest) == Scan(x, expected, alt, bufSize, rest)
  {
    if noise == [] {
      assert noise + rest == rest;
    } else {
      assert (noise + rest)[0] == noise[0] && noise[0] in noise;
      assert (noise + rest)[1..] == noise[1..] + rest;
      ScanSkips(x, expected, alt, bufSize, noise[1..], rest);
    }
  }

  /** Who talks to whom. */
  datatype Link = Link(me: byte, node: byte)

  function RoundTrip<D>(bus: Bus<D>, w: Wire<D>, link: Link, session: byte, body: Body, expected: byte, alt: byte,
                        mux: Option<(u16, byte)>, bufSize: nat): (r: (Wire<D>, Outcome))
    requires CarrierOk(w.carrier) && Encodable(Message(link.me, link.node, session, body))
    ensures CarrierOk(r.0.carrier) && r.0.carrier.node == w.carrier.node
    ensures r.1.Gave? ==> r.1.status != SecOk
  {
    var t := Transmit(bus, w, Message(link.me, link.node, session, body));
    (t.0, Scan(Filter(link.me, link.node, session, mux), expected, alt, bufSize, t.1))
  }

  /** The multiplexor of a response, if it carries one. */
  predicate MuxAgrees(mux: Option<(u16, byte)>, m: Message)
    requires Encodable(m)
  {
    mux.Some? && PduOf(m).muxValid ==> PduOf(m).index == mux.value.0 && PduOf(m).sub == mux.value.1
  }

  /**
   * Through any noise and padding, a round trip does at the server exactly
   * what handling the request's own PDU does, and gets back exactly its answer.
   */
  lemma RoundTripIsDirect<D>(bus: Bus<D>, w: Wire<D>, link: Link, session: byte, body: Body, expected: byte, alt: byte,
                             mux: Option<(u16, byte)>, bufSize: nat)
    requires CarrierOk(w.carrier) && w.carrier.node == link.node && Fair(bus, w, link.me)
    requires Encodable(Message(link.me, link.node, session, body)) && CmdIsRequest(CmdOf(body))
    requires var step := HandlePdu(bus.dispatcher, w.carrier, PduOf(Message(link.me, link.node, session, body)));
             step.out.Some? ==> Encodable(step.out.value) && step.out.value.src == link.node && step.out.value.dst == link.me
                                && step.out.value.session == session && !CmdIsRequest(CmdOf(step.out.value.body))
                                && MuxAgrees(mux, step.out.value)
    ensures var step := HandlePdu(bus.dispatcher, w.carrier, PduOf(Message(link.me, link.node, session, body)));
            RoundTrip(bus, w, link, session, body, expected, alt, mux, bufSize)
              == (Wire(step.carrier, w.n + 1),
                  if step.out.None? then Gave(Timeout)
                  else JudgeAnswer(PduOf(step.out.value), expected, alt, bufSize))
  {
    hide HandlePdu, PduOf, JudgeAnswer, Decode;
    var m := Message(link.me, link.node, session, body);
    var noise, request := bus.noise(w.n), bus.arrive(w.n, Encode(m));
    NoiseLeavesServer(bus, w, link.me, noise);
    DecodeInvertsEncode(m, request);
    SplitInvertsCanId(m.src, true);
    PduFields(m);
    assert ForUs(w.carrier, request);
    var step := HandlePdu(bus.dispatcher, w.carrier, PduOf(m));
    var x := Filter(link.me, link.node, session, mux);
    var t := Transmit(bus, w, m);
    if step.out.None? {
      assert t.1 == noise + [];
      ScanSkips(x, expected, alt, bufSize, noise, []);
    } else {
      var answer := bus.arrive(w.n, Encode(step.out.value));
      DecodeInvertsEncode(step.out.value, answer);
      SplitInvertsCanId(step.out.value.src, false);
      PduFields(step.out.value);
      assert Relevant(x, answer);
      ScanSkips(x, expected, alt, bufSize, noise, [answer]);
    }
  }

  lemma PduFields(m: Message)
    requires Encodable(m)
    ensures PduOf(m).src == m.src && PduOf(m).dst == m.dst && PduOf(m).session == m.session && PduOf(m).cmd == CmdOf(m.body)
  {
  }

  /* ---- Reading ---- */

  /** Pull a parked result segment by segment; `have` is what has come so far. */
  function SegPull<D>(bus: Bus<D>, w: Wire<D>, link: Link, session: byte, total: nat, counter: byte, have: seq<byte>)
    : (r: (Wire<D>, Answer))
    requires CarrierOk(w.carrier) && NodeOk(link.me) && NodeOk(link.node) && session != 0
    ensures CarrierOk(r.0.carrier) && r.0.carrier.node == w.carrier.node
    decreases 0x100 - counter
  {
    var t := RoundTrip(bus, w, link, session, UploadSegReq(counter), CMD_UPLOAD_SEG_RESP, CMD_UPLOAD_END_RESP, None,
                       PAYLOAD_MAX);
    if t.1.Gave? then (t.0, Failed(t.1.status))
    else
      var pdu := t.1.pdu;
      if pdu.cmd == CMD_UPLOAD_SEG_RESP && pdu.counter != counter then (t.0, Failed(Protocol))
      else if |have| + |pdu.data| > total then (t.0, Failed(Protocol))
      else
        var got := have + pdu.data;
        if pdu.cmd == CMD_UPLOAD_END_RESP then (t.0, if |got| == total then Got(got) else Failed(Protocol))
        else if counter == 0xFF then (t.0, Failed(Protocol))
        else SegPull(bus, t.0, link, session, total, counter + 1, got)
  }

  /** The object a transfer names; the low byte of a data id does not travel. */
  function IndexOf(dataId: u32): u16 { dataId / 0x1_0000 }

  function SubOf(dataId: u32): byte { dataId / 0x100 % 0x100 }

  /** The client's state: the session of its last transfer, and the wire. */
  datatype Client<+D> = Client(session: byte, wire: Wire<D>)

  function FetchBody(index: u16, sub: byte, body: seq<byte>): Body {
    if body == [] then UploadReq(index, sub) else DownloadReq(index, sub, body)
  }

  /** Reads with a request body of up to 56 bytes: a download request, or an upload request when it is empty. */
  function TransportRead<D>(bus: Bus<D>, cl: Client<D>, me: byte, device: u16, dataId: u32, body: seq<byte>, bufSize: nat)
    : (r: (Client<D>, Answer))
    requires CarrierOk(cl.wire.carrier)
    ensures CarrierOk(r.0.wire.carrier) && r.0.wire.carrier.node == cl.wire.carrier.node
  {
    var node, index, sub := device % 0x100, IndexOf(dataId), SubOf(dataId);
    if !NodeOk(node) then (cl, Failed(Protocol))
    else
      var session := NextSession(cl.session);
      var request := FetchBody(index, sub, body);
      if !Encodable(Message(me, node, session, request)) then (Client(session, cl.wire), Failed(Protocol))
      else
        var t := RoundTrip(bus, cl.wire, Link(me, node), session, request,
                           if body == [] then CMD_UPLOAD_RESP else CMD_DOWNLOAD_RESP, CMD_UPLOAD_INIT_RESP,
                           Some((index, sub)), bufSize);
        if t.1.Gave? then (Client(session, t.0), Failed(t.1.status))
        else if t.1.pdu.cmd != CMD_UPLOAD_INIT_RESP then (Client(session, t.0), Got(t.1.pdu.data))
        else if t.1.pdu.totalSize > bufSize then (Client(session, t.0), Failed(BufSize))
        else
          var pulled := SegPull(bus, t.0, Link(me, node), session, t.1.pdu.totalSize, 0, []);
          (Client(session, pulled.0), pulled.1)
  }

  /* ---- Writing ---- */

  /** Full segments while more than 60 bytes remain, then the end. */
  function SegPush<D>(bus: Bus<D>, w: Wire<D>, link: Link, session: byte, body: seq<byte>, counter: byte): (r: (Wire<D>, Status))
    requires CarrierOk(w.carrier) && NodeOk(link.me) && NodeOk(link.node) && session != 0
    requires SEG_DATA_MAX * counter < |body| <= SEG_BODY_MAX
    ensures CarrierOk(r.0.carrier) && r.0.carrier.node == w.carrier.node
    decreases |body| - SEG_DATA_MAX * counter
  {
    var offset := SEG_DATA_MAX * counter;
    if |body| - offset > SEG_DATA_MAX then
      var t := RoundTrip(bus, w, link, session, DownloadSegReq(counter, body[offset..offset + SEG_DATA_MAX]),
                         CMD_DOWNLOAD_SEG_RESP, 0, None, PAYLOAD_MAX);
      if t.1.Gave? then (t.0, t.1.status)
      else if t.1.pdu.counter != counter then (t.0, Protocol)
      else SegPush(bus, t.0, link, session, body, counter + 1)
    else
      var t := RoundTrip(bus, w, link, session, DownloadEndReq(body[offset..]), CMD_DOWNLOAD_END_RESP, 0, None, PAYLOAD_MAX);
      (t.0, if t.1.Gave? then t.1.status else SecOk)
  }

  /** Writes of up to 56 bytes go in one frame, up to 256 bytes in segments. */
  function TransportWrite<D>(bus: Bus<D>, cl: Client<D>, me: byte, device: u16, dataId: u32, body: seq<byte>)
    : (r: (Client<D>, Status))
    requires CarrierOk(cl.wire.carrier)
    ensures CarrierOk(r.0.wire.carrier) && r.0.wire.carrier.node == cl.wire.carrier.node
  {
    var node, index, sub := device % 0x100, IndexOf(dataId), SubOf(dataId);
    if !NodeOk(node) then (cl, Protocol)
    else if |body| > SEG_BODY_MAX then (cl, BufSize)
    else
      var session := NextSession(cl.session);
      var request := if |body| <= DATA_MAX then DownloadReq(index, sub, body) else DownloadInitReq(index, sub, |body|);
      if !Encodable(Message(me, node, session, request)) then (Client(session, cl.wire), Protocol)
      else
        var t := RoundTrip(bus, cl.wire, Link(me, node), session, request,
                           if |body| <= DATA_MAX then CMD_DOWNLOAD_RESP else CMD_DOWNLOAD_INIT_RESP, 0,
                           Some((index, sub)), PAYLOAD_MAX);
        if t.1.Gave? then (Client(session, t.0), t.1.status)
        else if |body| <= DATA_MAX then (Client(session, t.0), SecOk)
        else
          var pushed := SegPush(bus, t.0, Link(me, node), session, body, 0);
          (Client(session, pushed.0), pushed.1)
  }
}
