/**
 * The frame structure that the encoders fill in place, and the encoders: a
 * shared prologue per layout, then the fields of one message.
 */
module UsdoEncoder {
  import opened Bytes
  import opened CanFdFrame
  import opened Usdo

  class FrameStruct {
    var canId: u32
    var flags: byte
    var len: byte
    const payload: array<byte>

    ghost predicate Valid()
      reads this
    {
      payload.Length == PAYLOAD_MAX
    }

    ghost function Contents(): Frame
      requires Valid()
      reads this, payload
    {
      Frame(canId, flags, len, payload[..])
    }

    constructor ()
      ensures Valid() && fresh(payload)
    {
      canId, flags, len := 0, 0, 0;
      payload := new byte[PAYLOAD_MAX];
    }

    /** The counted bytes are `bytes` and the rest of the payload is zero. */
    ghost predicate Holds(bytes: seq<byte>)
      requires Valid()
      reads this, payload
    {
      |bytes| <= PAYLOAD_MAX && payload[..] == bytes + Zeros(PAYLOAD_MAX - |bytes|)
    }

    /** Clears everything and sets the identifier. */
    method Init(id: u32)
      requires Valid()
      modifies this, payload
      ensures canId == id && flags == 0 && len == 0 && Holds([])
    {
      forall i | 0 <= i < payload.Length {
        payload[i] := 0;
      }
      canId, flags, len := id, 0, 0;
      assert payload[..] == Zeros(PAYLOAD_MAX);
    }

    /** Writes `src` behind the `at` bytes already there. */
    method Append(at: nat, src: seq<byte>, ghost before: seq<byte>)
      requires Valid() && Holds(before) && |before| == at && at + |src| <= PAYLOAD_MAX
      modifies payload
      ensures Holds(before + src)
    {
      assert payload[..at] == before;
      assert payload[at + |src|..] == Zeros(PAYLOAD_MAX - at - |src|);
      AppendTo(src, payload, at);
      assert payload[..] == payload[..at + |src|] + payload[at + |src|..];
    }

    /** Checks the peers and the session; stamps identifier, receiver, command and session. */
    method SegCommon(src: byte, dst: byte, cmd: byte, session: byte) returns (ok: bool)
      requires Valid()
      modifies this, payload
      ensures ok <==> NodeOk(src) && NodeOk(dst) && session != 0
      ensures ok ==> canId == CanId(src, CmdIsRequest(cmd)) && flags == FLAG_BRS && Holds([dst, cmd, session])
      ensures !ok ==> Contents() == old(Contents())
    {
      if src == 0 || src > NODE_ID_MAX || dst == 0 || dst > NODE_ID_MAX || session == 0 {
        return false;
      }
      Init(CanId(src, CmdIsRequest(cmd)));
      flags := FLAG_BRS;
      Append(0, [dst, cmd, session], []);
      assert [] + [dst, cmd, session] == [dst, cmd, session];
      return true;
    }

    /** Request or response with a multiplexor and, where the command emits one, a data block. */
    method Common(src: byte, dst: byte, cmd: byte, session: byte, index: u16, sub: byte, data: seq<byte>, block: bool)
      returns (ok: bool)
      requires Valid()
      modifies this, payload
      ensures ok <==> NodeOk(src) && NodeOk(dst) && session != 0 && IndexOk(index) && |data| <= DATA_MAX
      ensures ok ==> canId == CanId(src, CmdIsRequest(cmd)) && flags == FLAG_BRS
      ensures ok ==> var bytes := [dst, cmd, session] + (Mux(index, sub) + if block then Block(data) else []);
                     len == |bytes| && Holds(bytes)
      ensures !ok ==> Contents() == old(Contents())
    {
      if index < 0x1000 || |data| > DATA_MAX {
        return false;
      }
      ok := SegCommon(src, dst, cmd, session);
      if !ok {
        return;
      }
      ghost var head := [dst, cmd, session];
      Append(3, Mux(index, sub), head);
      var total := 6;
      if block {
        Append(6, Block(data), head + Mux(index, sub));
        assert head + Mux(index, sub) + Block(data) == head + (Mux(index, sub) + Block(data));
        total := 8 + |data|;
      } else {
        assert head + Mux(index, sub) == head + (Mux(index, sub) + []);
      }
      len := total;
    }

    /** The 12-byte initiate frame with the declared size. */
    method InitCommon(src: byte, dst: byte, cmd: byte, session: byte, index: u16, sub: byte, size: u32) returns (ok: bool)
      requires Valid()
      modifies this, payload
      ensures ok <==> NodeOk(src) && NodeOk(dst) && session != 0 && IndexOk(index) && TotalOk(size)
      ensures ok ==> canId == CanId(src, CmdIsRequest(cmd)) && flags == FLAG_BRS && len == 12
      ensures ok ==> Holds([dst, cmd, session] + (Mux(index, sub) + [TYPE_DOMAIN, 0] + Le32(size)))
      ensures !ok ==> Contents() == old(Contents())
    {
      if size == 0 || size > SEG_BODY_MAX || index < 0x1000 {
        return false;
      }
      ok := SegCommon(src, dst, cmd, session);
      if !ok {
        return;
      }
      ghost var head := [dst, cmd, session];
      Append(3, Mux(index, sub) + [TYPE_DOMAIN, 0] + Le32(size), head);
      len := 12;
    }

    /** A frame with one byte behind the header (counter or length) and then data. */
    method Segment(src: byte, dst: byte, cmd: byte, session: byte, third: byte, data: seq<byte>) returns (ok: bool)
      requires Valid()
      modifies this, payload
      ensures ok <==> NodeOk(src) && NodeOk(dst) && session != 0 && |data| <= SEG_DATA_MAX
      ensures ok ==> canId == CanId(src, CmdIsRequest(cmd)) && flags == FLAG_BRS && len == 4 + |data|
      ensures ok ==> Holds([dst, cmd, session] + ([third] + data))
      ensures !ok ==> Contents() == old(Contents())
    {
      if |data| > SEG_DATA_MAX {
        return false;
      }
      ok := SegCommon(src, dst, cmd, session);
      if !ok {
        return;
      }
      ghost var head := [dst, cmd, session];
      Append(3, [third], head);
      Append(4, data, head + [third]);
      assert head + [third] + data == head + ([third] + data);
      len := 4 + |data|;
    }

    /** A multiplexor and, for an abort, the code behind it. */
    method Short(src: byte, dst: byte, cmd: byte, session: byte, index: u16, sub: byte, code: seq<byte>) returns (ok: bool)
      requires Valid() && |code| <= 1
      modifies this, payload
      ensures ok <==> NodeOk(src) && NodeOk(dst) && session != 0 && IndexOk(index)
      ensures ok ==> canId == CanId(src, CmdIsRequest(cmd)) && flags == FLAG_BRS && len == 6 + |code|
      ensures ok ==> Holds([dst, cmd, session] + (Mux(index, sub) + code))
      ensures !ok ==> Contents() == old(Contents())
    {
      if index < 0x1000 {
        return false;
      }
      ok := SegCommon(src, dst, cmd, session);
      if !ok {
        return;
      }
      Append(3, Mux(index, sub) + code, [dst, cmd, session]);
      len := 6 + |code|;
    }

    /** The frame carries message `m`. */
    ghost predicate Carries(m: Message)
      requires Valid() && Encodable(m)
      reads this, payload
    {
      canId == CanId(m.src, CmdIsRequest(CmdOf(m.body))) && flags == FLAG_BRS && len == |Wire(m)| && Holds(Wire(m))
    }

    /** The entry points of the expedited frames. */
    method EncodeExpedited(m: Message) returns (ok: bool)
      requires Valid() && (m.body.DownloadReq? || m.body.DownloadResp? || m.body.UploadReq? || m.body.UploadResp?)
      modifies this, payload
      ensures ok <==> Encodable(m)
      ensures if ok then Carries(m) else Contents() == old(Contents())
    {
      ghost var mux := Mux(m.body.index, m.body.sub);
      assert mux + [] == mux;
      match m.body {
        case DownloadReq(index, sub, data) =>
          ok := Common(m.src, m.dst, CMD_DOWNLOAD_REQ, m.session, index, sub, data, true);
        case DownloadResp(index, sub, data) =>
          ok := Common(m.src, m.dst, CMD_DOWNLOAD_RESP, m.session, index, sub, data, |data| > 0);
        case UploadReq(index, sub) =>
          ok := Common(m.src, m.dst, CMD_UPLOAD_REQ, m.session, index, sub, [], false);
        case UploadResp(index, sub, data) =>
          ok := Common(m.src, m.dst, CMD_UPLOAD_RESP, m.session, index, sub, data, true);
      }
    }

    /** The entry points of the initiate frames and the abort. */
    method EncodeInitiate(m: Message) returns (ok: bool)
      requires Valid()
      requires m.body.DownloadInitReq? || m.body.DownloadInitResp? || m.body.UploadInitResp? || m.body.Abort?
      modifies this, payload
      ensures ok <==> Encodable(m)
      ensures if ok then Carries(m) else Contents() == old(Contents())
    {
      match m.body {
        case DownloadInitReq(index, sub, total) =>
          ok := InitCommon(m.src, m.dst, CMD_DOWNLOAD_INIT_REQ, m.session, index, sub, total);
        case UploadInitResp(index, sub, total) =>
          ok := InitCommon(m.src, m.dst, CMD_UPLOAD_INIT_RESP, m.session, index, sub, total);
        case DownloadInitResp(index, sub) =>
          assert Mux(index, sub) + [] == Mux(index, sub);
          ok := Short(m.src, m.dst, CMD_DOWNLOAD_INIT_RESP, m.session, index, sub, []);
        case Abort(index, sub, code) =>
          ok := Short(m.src, m.dst, CMD_ABORT, m.session, index, sub, [code]);
      }
    }

    /** The entry points of the segment frames. */
    method EncodeSegment(m: Message) returns (ok: bool)
      requires Valid()
      requires m.body.DownloadSegReq? || m.body.UploadSegResp? || m.body.DownloadSegResp? || m.body.UploadSegReq?
               || m.body.DownloadEndReq? || m.body.UploadEndResp? || m.body.DownloadEndResp?
      requires (m.body.DownloadSegReq? || m.body.UploadSegResp?) ==> |m.body.data| == SEG_DATA_MAX
      modifies this, payload
      ensures ok <==> Encodable(m)
      ensures if ok then Carries(m) else Contents() == old(Contents())
    {
      match m.body {
        case DownloadSegReq(counter, data) =>
          ok := Segment(m.src, m.dst, CMD_DOWNLOAD_SEG_REQ, m.session, counter, data);
        case UploadSegResp(counter, data) =>
          ok := Segment(m.src, m.dst, CMD_UPLOAD_SEG_RESP, m.session, counter, data);
        case DownloadSegResp(counter) =>
          ok := Segment(m.src, m.dst, CMD_DOWNLOAD_SEG_RESP, m.session, counter, []);
          assert [counter] + [] == [counter];
        case UploadSegReq(counter) =>
          ok := Segment(m.src, m.dst, CMD_UPLOAD_SEG_REQ, m.session, counter, []);
          assert [counter] + [] == [counter];
        case DownloadEndReq(data) =>
          if |data| == 0 {
            return false;
          }
          ok := Segment(m.src, m.dst, CMD_DOWNLOAD_END_REQ, m.session, |data| % 0x100, data);
        case UploadEndResp(data) =>
          ok := Segment(m.src, m.dst, CMD_UPLOAD_END_RESP, m.session, |data| % 0x100, data);
        case DownloadEndResp =>
          ok := SegCommon(m.src, m.dst, CMD_DOWNLOAD_END_RESP, m.session);
          if ok {
            len := 3;
          }
          assert [m.dst, CMD_DOWNLOAD_END_RESP, m.session] + [] == [m.dst, CMD_DOWNLOAD_END_RESP, m.session];
      }
    }

    /** Any encoder. On refusal the frame is left as it was. */
    method EncodeInto(m: Message) returns (ok: bool)
      requires Valid()
      requires (m.body.DownloadSegReq? || m.body.UploadSegResp?) ==> |m.body.data| == SEG_DATA_MAX
      modifies this, payload
      ensures ok <==> Encodable(m)
      ensures if ok then Contents() == Encode(m) else Contents() == old(Contents())
    {
      hide BodyOk, Tail;
      match m.body {
        case DownloadReq(_, _, _) => ok := EncodeExpedited(m);
        case DownloadResp(_, _, _) => ok := EncodeExpedited(m);
        case UploadReq(_, _) => ok := EncodeExpedited(m);
        case UploadResp(_, _, _) => ok := EncodeExpedited(m);
        case DownloadInitReq(_, _, _) => ok := EncodeInitiate(m);
        case DownloadInitResp(_, _) => ok := EncodeInitiate(m);
        case UploadInitResp(_, _, _) => ok := EncodeInitiate(m);
        case Abort(_, _, _) => ok := EncodeInitiate(m);
        case _ => ok := EncodeSegment(m);
      }
    }
  }
}
