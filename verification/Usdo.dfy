/**
 * The USDO protocol data units: what every encoder puts into a frame, what the
 * decoder reads back, and the frame object that the encoders fill in place.
 */
module Usdo {
  import opened Bytes
  import opened CanFdFrame

  const NODE_ID_MAX := 127
  const DATA_MAX := 56
  const SEG_DATA_MAX := 60
  const SEG_BODY_MAX := 256
  const REQ_BASE := 0x600
  const RSP_BASE := 0x580
  const TYPE_DOMAIN: byte := 0x0F

  const CMD_DOWNLOAD_REQ: byte := 0x01
  const CMD_DOWNLOAD_INIT_REQ: byte := 0x02
  const CMD_DOWNLOAD_SEG_REQ: byte := 0x03
  const CMD_DOWNLOAD_END_REQ: byte := 0x04
  const CMD_UPLOAD_REQ: byte := 0x11
  const CMD_UPLOAD_SEG_REQ: byte := 0x13
  const CMD_DOWNLOAD_RESP: byte := 0x21
  const CMD_DOWNLOAD_INIT_RESP: byte := 0x22
  const CMD_DOWNLOAD_SEG_RESP: byte := 0x23
  const CMD_DOWNLOAD_END_RESP: byte := 0x24
  const CMD_UPLOAD_RESP: byte := 0x31
  const CMD_UPLOAD_INIT_RESP: byte := 0x32
  const CMD_UPLOAD_SEG_RESP: byte := 0x33
  const CMD_UPLOAD_END_RESP: byte := 0x34
  const CMD_ABORT: byte := 0x7F

  /* ---- CAN identifiers ---- */

  datatype Kind = Request | Response

  /** The sender's node id rides in the low 7 bits. */
  function CanId(sender: byte, toServer: bool): u32
    requires 1 <= sender <= NODE_ID_MAX
  {
    (if toServer then REQ_BASE else RSP_BASE) + sender
  }

  /** Bits 10..7 select requests or responses; higher bits are ignored. */
  function SplitId(id: nat): Option<(byte, Kind)> {
    var sender := id % 0x80;
    if sender == 0 then None
    else if id / 0x80 % 0x10 == 12 then Some((sender, Request))
    else if id / 0x80 % 0x10 == 11 then Some((sender, Response))
    else None
  }

  lemma SplitInvertsCanId(sender: byte, toServer: bool)
    requires 1 <= sender <= NODE_ID_MAX
    ensures SplitId(IdValue(CanId(sender, toServer))) == Some((sender, if toServer then Request else Response))
  {
  }

  /* ---- Messages: one case per encoder ---- */

  datatype Body =
    | DownloadReq(index: u16, sub: byte, data: seq<byte>)
    | DownloadResp(index: u16, sub: byte, data: seq<byte>)
    | UploadReq(index: u16, sub: byte)
    | UploadResp(index: u16, sub: byte, data: seq<byte>)
    | DownloadInitReq(index: u16, sub: byte, total: u32)
    | DownloadInitResp(index: u16, sub: byte)
    | DownloadSegReq(counter: byte, data: seq<byte>)
    | DownloadSegResp(counter: byte)
    | DownloadEndReq(data: seq<byte>)
    | DownloadEndResp
    | UploadInitResp(index: u16, sub: byte, total: u32)
    | UploadSegReq(counter: byte)
    | UploadSegResp(counter: byte, data: seq<byte>)
    | UploadEndResp(data: seq<byte>)
    | Abort(index: u16, sub: byte, code: byte)

  datatype Message = Message(src: byte, dst: byte, session: byte, body: Body)

  function CmdOf(b: Body): byte {
    match b
    case DownloadReq(_, _, _) => CMD_DOWNLOAD_REQ
    case DownloadResp(_, _, _) => CMD_DOWNLOAD_RESP
    case UploadReq(_, _) => CMD_UPLOAD_REQ
    case UploadResp(_, _, _) => CMD_UPLOAD_RESP
    case DownloadInitReq(_, _, _) => CMD_DOWNLOAD_INIT_REQ
    case DownloadInitResp(_, _) => CMD_DOWNLOAD_INIT_RESP
    case DownloadSegReq(_, _) => CMD_DOWNLOAD_SEG_REQ
    case DownloadSegResp(_) => CMD_DOWNLOAD_SEG_RESP
    case DownloadEndReq(_) => CMD_DOWNLOAD_END_REQ
    case DownloadEndResp => CMD_DOWNLOAD_END_RESP
    case UploadInitResp(_, _, _) => CMD_UPLOAD_INIT_RESP
    case UploadSegReq(_) => CMD_UPLOAD_SEG_REQ
    case UploadSegResp(_, _) => CMD_UPLOAD_SEG_RESP
    case UploadEndResp(_) => CMD_UPLOAD_END_RESP
    case Abort(_, _, _) => CMD_ABORT
  }

  predicate CmdIsRequest(cmd: byte) {
    cmd == CMD_DOWNLOAD_REQ || cmd == CMD_UPLOAD_REQ || cmd == CMD_DOWNLOAD_INIT_REQ
    || cmd == CMD_DOWNLOAD_SEG_REQ || cmd == CMD_DOWNLOAD_END_REQ || cmd == CMD_UPLOAD_SEG_REQ
  }

  predicate CmdIsKnown(cmd: byte) {
    CmdIsRequest(cmd) || cmd == CMD_DOWNLOAD_RESP || cmd == CMD_UPLOAD_RESP || cmd == CMD_ABORT
    || cmd == CMD_DOWNLOAD_INIT_RESP || cmd == CMD_DOWNLOAD_SEG_RESP || cmd == CMD_DOWNLOAD_END_RESP
    || cmd == CMD_UPLOAD_INIT_RESP || cmd == CMD_UPLOAD_SEG_RESP || cmd == CMD_UPLOAD_END_RESP
  }

  predicate IndexOk(index: u16) { index >= 0x1000 }

  predicate TotalOk(total: u32) { 1 <= total <= SEG_BODY_MAX }

  predicate BodyOk(b: Body) {
    match b
    case DownloadReq(index, _, data) => IndexOk(index) && |data| <= DATA_MAX
    case DownloadResp(index, _, data) => IndexOk(index) && |data| <= DATA_MAX
    case UploadReq(index, _) => IndexOk(index)
    case UploadResp(index, _, data) => IndexOk(index) && |data| <= DATA_MAX
    case DownloadInitReq(index, _, total) => IndexOk(index) && TotalOk(total)
    case DownloadInitResp(index, _) => IndexOk(index)
    case DownloadSegReq(_, data) => |data| == SEG_DATA_MAX
    case DownloadSegResp(_) => true
    case DownloadEndReq(data) => 1 <= |data| <= SEG_DATA_MAX
    case DownloadEndResp => true
    case UploadInitResp(index, _, total) => IndexOk(index) && TotalOk(total)
    case UploadSegReq(_) => true
    case UploadSegResp(_, data) => |data| == SEG_DATA_MAX
    case UploadEndResp(data) => |data| <= SEG_DATA_MAX
    case Abort(index, _, _) => IndexOk(index)
  }

  predicate NodeOk(node: byte) { 1 <= node <= NODE_ID_MAX }

  /** What an encoder accepts. */
  predicate Encodable(m: Message) {
    NodeOk(m.src) && NodeOk(m.dst) && m.session != 0 && BodyOk(m.body)
  }

  function Mux(index: u16, sub: byte): (r: seq<byte>)
    ensures |r| == 3
  {
    [sub] + Le16(index)
  }

  function Block(data: seq<byte>): seq<byte>
    requires |data| <= DATA_MAX
  {
    [TYPE_DOMAIN, |data|] + data
  }

  /** The bytes behind receiver, command and session. */
  function Tail(b: Body): seq<byte>
    requires BodyOk(b)
  {
    match b
    case DownloadReq(index, sub, data) => Mux(index, sub) + Block(data)
    case DownloadResp(index, sub, data) => if data == [] then Mux(index, sub) else Mux(index, sub) + Block(data)
    case UploadReq(index, sub) => Mux(index, sub)
    case UploadResp(index, sub, data) => Mux(index, sub) + Block(data)
    case DownloadInitReq(index, sub, total) => Mux(index, sub) + [TYPE_DOMAIN, 0] + Le32(total)
    case DownloadInitResp(index, sub) => Mux(index, sub)
    case DownloadSegReq(counter, data) => [counter] + data
    case DownloadSegResp(counter) => [counter]
    case DownloadEndReq(data) => [|data|] + data
    case DownloadEndResp => []
    case UploadInitResp(index, sub, total) => Mux(index, sub) + [TYPE_DOMAIN, 0] + Le32(total)
    case UploadSegReq(counter) => [counter]
    case UploadSegResp(counter, data) => [counter] + data
    case UploadEndResp(data) => [|data|] + data
    case Abort(index, sub, code) => Mux(index, sub) + [code]
  }

  function Wire(m: Message): (r: seq<byte>)
    requires Encodable(m)
    ensures 3 <= |r| <= PAYLOAD_MAX
  {
    [m.dst, CmdOf(m.body), m.session] + Tail(m.body)
  }

  /** The frame that carries a message; unused payload bytes are zero. */
  function Encode(m: Message): (f: Frame)
    requires Encodable(m)
    ensures 3 <= f.len <= PAYLOAD_MAX && f.payload[..f.len] == Wire(m)
  {
    var b := Wire(m);
    Frame(CanId(m.src, CmdIsRequest(CmdOf(m.body))), FLAG_BRS, |b|, b + Zeros(PAYLOAD_MAX - |b|))
  }

  /* ---- Decoding ---- */

  datatype Pdu = Pdu(src: byte, dst: byte, cmd: byte, session: byte, muxValid: bool, index: u16, sub: byte,
                     counter: byte, totalSize: u32, dataType: byte, abortCode: byte, data: seq<byte>)

  datatype DecodeError = NotUsdo | TooShort | ReservedNode | BadCmd | BadSegment | BadAbortLen | BadIndex

  datatype Decoded = Ok(pdu: Pdu) | Err(error: DecodeError)

  predicate IsFullSegment(cmd: byte) { cmd == CMD_DOWNLOAD_SEG_REQ || cmd == CMD_UPLOAD_SEG_RESP }

  predicate IsEnd(cmd: byte) { cmd == CMD_DOWNLOAD_END_REQ || cmd == CMD_UPLOAD_END_RESP }

  predicate IsCounterOnly(cmd: byte) { cmd == CMD_DOWNLOAD_SEG_RESP || cmd == CMD_UPLOAD_SEG_REQ }

  predicate IsInit(cmd: byte) { cmd == CMD_DOWNLOAD_INIT_REQ || cmd == CMD_UPLOAD_INIT_RESP }

  predicate MustHaveData(cmd: byte) { cmd == CMD_DOWNLOAD_REQ || cmd == CMD_UPLOAD_RESP }

  /** Where a command's data starts in the payload. */
  function DataOffset(cmd: byte): nat { if IsFullSegment(cmd) || IsEnd(cmd) then 4 else 8 }

  /** A PDU with nothing but its header. */
  function Bare(src: byte, dst: byte, cmd: byte, session: byte): Pdu {
    Pdu(src, dst, cmd, session, false, 0, 0, 0, 0, 0, 0, [])
  }

  function DecodeSegment(bare: Pdu, f: Frame): Decoded {
    var cmd, n := bare.cmd, f.payload[3];
    if IsFullSegment(cmd) then
      if f.len < PAYLOAD_MAX then Err(BadSegment) else Ok(bare.(counter := n, data := f.payload[4..4 + SEG_DATA_MAX]))
    else if IsEnd(cmd) then
      if f.len < 4 then Err(TooShort)
      else if n > SEG_DATA_MAX then Err(BadSegment)
      else if f.len < 4 + n then Err(TooShort)
      else Ok(bare.(counter := n, data := f.payload[4..4 + n]))
    else if IsCounterOnly(cmd) then
      if f.len < 4 then Err(TooShort) else Ok(bare.(counter := n))
    else Ok(bare)
  }

  function DecodeMux(bare: Pdu, f: Frame): Decoded {
    var cmd := bare.cmd;
    if f.len < 6 then Err(TooShort)
    else
      var pdu := bare.(sub := f.payload[3], index := FromLe16(f.payload[4..6]), muxValid := true);
      if !IndexOk(pdu.index) then Err(BadIndex)
      else if IsInit(cmd) then
        if f.len < 12 then Err(TooShort)
        else
          var total := FromLe32(f.payload[8..12]);
          if !TotalOk(total) then Err(BadSegment) else Ok(pdu.(dataType := f.payload[6], totalSize := total))
      else if cmd == CMD_DOWNLOAD_INIT_RESP then Ok(pdu)
      else if MustHaveData(cmd) || (cmd == CMD_DOWNLOAD_RESP && f.len > 6) then
        if f.len < 8 then Err(TooShort)
        else
          var n := f.payload[7];
          if n > DATA_MAX then Err(BadCmd)
          else if f.len < 8 + n then Err(TooShort)
          else Ok(pdu.(dataType := f.payload[6], data := f.payload[8..8 + n]))
      else Ok(pdu)
  }

  function Decode(f: Frame): Decoded {
    var split := SplitId(IdValue(f.canId));
    if split.None? then Err(NotUsdo)
    else if f.len < 3 then Err(TooShort)
    else
      var dst, cmd := f.payload[0], f.payload[1];
      var bare := Bare(split.value.0, dst, cmd, f.payload[2]);
      if !NodeOk(dst) then Err(ReservedNode)
      else if !CmdIsKnown(cmd) then Err(BadCmd)
      else if IsFullSegment(cmd) || IsEnd(cmd) || IsCounterOnly(cmd) || cmd == CMD_DOWNLOAD_END_RESP then
        DecodeSegment(bare, f)
      else if cmd == CMD_ABORT then
        if f.len < 7 then Err(BadAbortLen)
        else Ok(bare.(sub := f.payload[3], index := FromLe16(f.payload[4..6]), muxValid := true, abortCode := f.payload[6]))
      else DecodeMux(bare, f)
  }

  lemma DecodedHasUsdoId(f: Frame)
    ensures Decode(f).Ok? ==> SplitId(IdValue(f.canId)).Some?
  {
  }

  /** Every field of the message, in its place; all other fields at rest. */
  function PduOf(m: Message): Pdu
    requires Encodable(m)
  {
    var bare := Bare(m.src, m.dst, CmdOf(m.body), m.session);
    match m.body
    case DownloadReq(index, sub, data) => bare.(muxValid := true, index := index, sub := sub, dataType := TYPE_DOMAIN, data := data)
    case DownloadResp(index, sub, data) =>
      bare.(muxValid := true, index := index, sub := sub, dataType := if data == [] then 0 else TYPE_DOMAIN, data := data)
    case UploadReq(index, sub) => bare.(muxValid := true, index := index, sub := sub)
    case UploadResp(index, sub, data) => bare.(muxValid := true, index := index, sub := sub, dataType := TYPE_DOMAIN, data := data)
    case DownloadInitReq(index, sub, total) =>
      bare.(muxValid := true, index := index, sub := sub, dataType := TYPE_DOMAIN, totalSize := total)
    case DownloadInitResp(index, sub) => bare.(muxValid := true, index := index, sub := sub)
    case DownloadSegReq(counter, data) => bare.(counter := counter, data := data)
    case DownloadSegResp(counter) => bare.(counter := counter)
    case DownloadEndReq(data) => bare.(counter := |data|, data := data)
    case DownloadEndResp => bare
    case UploadInitResp(index, sub, total) =>
      bare.(muxValid := true, index := index, sub := sub, dataType := TYPE_DOMAIN, totalSize := total)
    case UploadSegReq(counter) => bare.(counter := counter)
    case UploadSegResp(counter, data) => bare.(counter := counter, data := data)
    case UploadEndResp(data) => bare.(counter := |data|, data := data)
    case Abort(index, sub, code) => bare.(muxValid := true, index := index, sub := sub, abortCode := code)
  }

  /** The encoder's arguments, read off a decoded form. */
  function MessageOf(pdu: Pdu): Option<Message> {
    var c := pdu.cmd;
    var body :=
      if c == CMD_DOWNLOAD_REQ then Some(DownloadReq(pdu.index, pdu.sub, pdu.data))
      else if c == CMD_DOWNLOAD_RESP then Some(DownloadResp(pdu.index, pdu.sub, pdu.data))
      else if c == CMD_UPLOAD_REQ then Some(UploadReq(pdu.index, pdu.sub))
      else if c == CMD_UPLOAD_RESP then Some(UploadResp(pdu.index, pdu.sub, pdu.data))
      else if c == CMD_DOWNLOAD_INIT_REQ then Some(DownloadInitReq(pdu.index, pdu.sub, pdu.totalSize))
      else if c == CMD_DOWNLOAD_INIT_RESP then Some(DownloadInitResp(pdu.index, pdu.sub))
      else if c == CMD_DOWNLOAD_SEG_REQ then Some(DownloadSegReq(pdu.counter, pdu.data))
      else if c == CMD_DOWNLOAD_SEG_RESP then Some(DownloadSegResp(pdu.counter))
      else if c == CMD_DOWNLOAD_END_REQ then Some(DownloadEndReq(pdu.data))
      else if c == CMD_DOWNLOAD_END_RESP then Some(DownloadEndResp)
      else if c == CMD_UPLOAD_INIT_RESP then Some(UploadInitResp(pdu.index, pdu.sub, pdu.totalSize))
      else if c == CMD_UPLOAD_SEG_REQ then Some(UploadSegReq(pdu.counter))
      else if c == CMD_UPLOAD_SEG_RESP then Some(UploadSegResp(pdu.counter, pdu.data))
      else if c == CMD_UPLOAD_END_RESP then Some(UploadEndResp(pdu.data))
      else if c == CMD_ABORT then Some(Abort(pdu.index, pdu.sub, pdu.abortCode))
      else None;
    if body.None? then None else Some(Message(pdu.src, pdu.dst, pdu.session, body.value))
  }

  /** The decoded form determines the message. */
  lemma PduDeterminesMessage(m: Message)
    requires Encodable(m)
    ensures MessageOf(PduOf(m)) == Some(m)
  {
  }

  /** The message's own bytes arrive in front. */
  lemma ArrivedPrefix(m: Message, g: Frame)
    requires Encodable(m) && ArrivesAs(Encode(m), g)
    ensures |Wire(m)| <= g.len && g.payload[..|Wire(m)|] == Wire(m)
  {
    var w, f := Wire(m), Encode(m);
    assert f.payload[..f.len] == w;
    assert (w + Zeros(g.len - f.len))[..|w|] == w;
    assert g.payload[..g.len][..|w|] == g.payload[..|w|];
  }

  /** The decoder sees a frame only through its identifier, its length and that many bytes. */
  lemma DecodeReadsPrefix(f: Frame, g: Frame)
    requires IdValue(f.canId) == IdValue(g.canId) && f.len == g.len <= PAYLOAD_MAX && f.payload[..f.len] == g.payload[..g.len]
    ensures Decode(f) == Decode(g)
  {
    assert forall i :: 0 <= i < f.len ==> f.payload[i] == f.payload[..f.len][i] && g.payload[i] == g.payload[..g.len][i];
    assert forall i, j :: 0 <= i <= j <= f.len ==> f.payload[i..j] == f.payload[..f.len][i..j] == g.payload[i..j];
  }

  lemma ArrivedSlice(m: Message, g: Frame, i: nat, j: nat)
    requires Encodable(m) && ArrivesAs(Encode(m), g) && i <= j <= |Wire(m)|
    ensures g.payload[i..j] == Wire(m)[i..j] && j <= g.len
  {
    ArrivedPrefix(m, g);
    assert g.payload[i..j] == g.payload[..|Wire(m)|][i..j];
  }

  lemma ArrivedHeader(m: Message, g: Frame)
    requires Encodable(m) && ArrivesAs(Encode(m), g)
    ensures |Wire(m)| <= g.len
    ensures g.payload[0] == m.dst && g.payload[1] == CmdOf(m.body) && g.payload[2] == m.session
    ensures SplitId(IdValue(g.canId)) == Some((m.src, if CmdIsRequest(CmdOf(m.body)) then Request else Response))
    ensures forall i :: 3 <= i < |Wire(m)| ==> g.payload[i] == Tail(m.body)[i - 3]
  {
    ArrivedPrefix(m, g);
    SplitInvertsCanId(m.src, CmdIsRequest(CmdOf(m.body)));
    assert forall i :: 0 <= i < |Wire(m)| ==> g.payload[i] == g.payload[..|Wire(m)|][i];
  }

  lemma FullSegmentDecodes(m: Message, g: Frame)
    requires Encodable(m) && ArrivesAs(Encode(m), g) && (m.body.DownloadSegReq? || m.body.UploadSegResp?)
    ensures Decode(g) == Ok(PduOf(m))
  {
    hide Encode, ArrivesAs, SplitId, CanId, DecodeMux;
    var data := m.body.data;
    ArrivedHeader(m, g);
    ArrivedSlice(m, g, 4, 4 + |data|);
    assert Wire(m)[4..4 + |data|] == data && Tail(m.body)[0] == m.body.counter;
  }

  lemma EndDecodes(m: Message, g: Frame)
    requires Encodable(m) && ArrivesAs(Encode(m), g) && (m.body.DownloadEndReq? || m.body.UploadEndResp?)
    ensures Decode(g) == Ok(PduOf(m))
  {
    hide Encode, ArrivesAs, SplitId, CanId, DecodeMux;
    var data := m.body.data;
    ArrivedHeader(m, g);
    ArrivedSlice(m, g, 4, 4 + |data|);
    assert Wire(m)[4..4 + |data|] == data && Tail(m.body)[0] == |data|;
  }

  lemma CounterDecodes(m: Message, g: Frame)
    requires Encodable(m) && ArrivesAs(Encode(m), g)
    requires m.body.DownloadSegResp? || m.body.UploadSegReq? || m.body.DownloadEndResp?
    ensures Decode(g) == Ok(PduOf(m))
  {
    hide Encode, ArrivesAs, SplitId, CanId, DecodeMux;
    ArrivedHeader(m, g);
  }

  lemma MuxDecodes(m: Message, g: Frame)
    requires Encodable(m) && ArrivesAs(Encode(m), g)
    requires m.body.UploadReq? || m.body.DownloadInitResp? || m.body.Abort?
             || (m.body.DownloadResp? && m.body.data == [])
    ensures Decode(g) == Ok(PduOf(m))
  {
    ArrivedHeader(m, g);
    Le16RoundTrip(m.body.index);
    ArrivedSlice(m, g, 4, 6);
    assert Wire(m)[4..6] == Le16(m.body.index);
  }

  lemma InitDecodes(m: Message, g: Frame)
    requires Encodable(m) && ArrivesAs(Encode(m), g) && (m.body.DownloadInitReq? || m.body.UploadInitResp?)
    ensures Decode(g) == Ok(PduOf(m))
  {
    hide Encode, ArrivesAs, SplitId, CanId;
    ArrivedHeader(m, g);
    Le16RoundTrip(m.body.index);
    Le32RoundTrip(m.body.total);
    ArrivedSlice(m, g, 4, 6);
    ArrivedSlice(m, g, 8, 12);
    assert Wire(m)[4..6] == Le16(m.body.index) && Wire(m)[8..12] == Le32(m.body.total);
  }

  lemma BlockReads(bare: Pdu, g: Frame, index: u16, sub: byte, data: seq<byte>)
    requires MustHaveData(bare.cmd) || bare.cmd == CMD_DOWNLOAD_RESP
    requires IndexOk(index) && |data| <= DATA_MAX && 8 + |data| <= g.len
    requires g.payload[3] == sub && g.payload[4..6] == Le16(index) && g.payload[6] == TYPE_DOMAIN && g.payload[7] == |data|
    requires g.payload[8..8 + |data|] == data
    ensures DecodeMux(bare, g)
         == Ok(bare.(sub := sub, index := index, muxValid := true, dataType := TYPE_DOMAIN, data := data))
  {
    Le16RoundTrip(index);
  }

  lemma BlockDecodes(m: Message, g: Frame)
    requires Encodable(m) && ArrivesAs(Encode(m), g)
    requires m.body.DownloadReq? || m.body.UploadResp? || (m.body.DownloadResp? && m.body.data != [])
    ensures Decode(g) == Ok(PduOf(m))
  {
    hide Encode, ArrivesAs, SplitId, CanId, DecodeMux, DecodeSegment;
    var index, sub, data := m.body.index, m.body.sub, m.body.data;
    ArrivedHeader(m, g);
    ArrivedSlice(m, g, 4, 6);
    ArrivedSlice(m, g, 8, 8 + |data|);
    assert Wire(m)[4..6] == Le16(index) && Wire(m)[8..8 + |data|] == data;
    assert Tail(m.body)[3] == TYPE_DOMAIN && Tail(m.body)[4] == |data|;
    BlockReads(Bare(m.src, m.dst, CmdOf(m.body), m.session), g, index, sub, data);
  }

  /**
   * For every encoder and all arguments it accepts: whether the frame arrives
   * as sent or padded to a CAN FD length, and whatever lies behind it in the
   * receiver's buffer, decoding returns exactly those arguments.
   */
  lemma DecodeInvertsEncode(m: Message, g: Frame)
    requires Encodable(m) && ArrivesAs(Encode(m), g)
    ensures Decode(g) == Ok(PduOf(m))
  {
    hide Decode, PduOf, Encode, ArrivesAs;
    match m.body {
      case DownloadReq(_, _, _) => BlockDecodes(m, g);
      case UploadResp(_, _, _) => BlockDecodes(m, g);
      case DownloadResp(_, _, data) => if data == [] { MuxDecodes(m, g); } else { BlockDecodes(m, g); }
      case UploadReq(_, _) => MuxDecodes(m, g);
      case DownloadInitResp(_, _) => MuxDecodes(m, g);
      case Abort(_, _, _) => MuxDecodes(m, g);
      case DownloadInitReq(_, _, _) => InitDecodes(m, g);
      case UploadInitResp(_, _, _) => InitDecodes(m, g);
      case DownloadSegReq(_, _) => FullSegmentDecodes(m, g);
      case UploadSegResp(_, _) => FullSegmentDecodes(m, g);
      case DownloadEndReq(_) => EndDecodes(m, g);
      case UploadEndResp(_) => EndDecodes(m, g);
      case _ => CounterDecodes(m, g);
    }
  }

  /** The same through the byte stream: serialize, parse the header, take that many payload bytes, decode. */
  lemma DecodeAfterTheWire(m: Message, g: Frame)
    requires Encodable(m)
    requires var bytes := Serialize(Encode(m));
             && ParseHeader(bytes) == Header(g.canId, g.flags, g.len)
             && g.len <= PAYLOAD_MAX && |bytes| == HEADER_SIZE + g.len
             && g.payload[..g.len] == bytes[HEADER_SIZE..]
    ensures Decode(g) == Ok(PduOf(m))
  {
    hide Decode, PduOf;
    ParseAcceptsWhatIsValid(Encode(m));
    assert Zeros(0) == [];
    DecodeInvertsEncode(m, g);
  }

  /** What is encoded always passes the frame validator, so the parser lets it through. */
  lemma EncodedFramesAreValid(m: Message)
    requires Encodable(m)
    ensures var f := Encode(m); Justified(Valid, f.canId, f.flags, f.len) && ParseHeader(Serialize(f)).Header?
  {
    ParseAcceptsWhatIsValid(Encode(m));
  }

  /** Whatever the frame, a decoded data slice lies inside its counted bytes. */
  lemma DataLiesInside(f: Frame)
    requires f.len <= PAYLOAD_MAX
    ensures Decode(f).Ok? && Decode(f).pdu.data != [] ==>
              var pdu := Decode(f).pdu;
              var at := DataOffset(pdu.cmd);
              at + |pdu.data| <= f.len && pdu.data == f.payload[at..at + |pdu.data|] && |pdu.data| <= SEG_DATA_MAX
  {
  }
}
