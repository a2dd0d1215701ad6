/**
 * The carrier client as it runs: a session counter bumped in place, a receive
 * loop that skips foreign frames, and the segment loops over their buffers.
 */
module UsdoClient {
  import opened Bytes
  import opened CanFdFrame
  import opened Usdo
  import opened ServerCarrier
  import opened SecureProto
  import opened ClientCarrier

  class Transport<D> {
    const bus: Bus<D>
    const me: byte
    var session: byte
    var wire: Wire<D>

    ghost predicate Valid()
      reads this
    {
      CarrierOk(wire.carrier) && NodeOk(me)
    }

    ghost function Model(): ClientCarrier.Client<D>
      reads this
    {
      Client(session, wire)
    }

    constructor (bus: Bus<D>, me: byte, wire: Wire<D>)
      requires CarrierOk(wire.carrier) && NodeOk(me)
      ensures Valid() && this.bus == bus && this.me == me && Model() == Client(0, wire)
    {
      this.bus, this.me, this.session, this.wire := bus, me, 0, wire;
    }

    method Bump() returns (next: byte)
      modifies `session
      ensures next == session == NextSession(old(session)) != 0
    {
      session := if session == 0xFF then 1 else session + 1;
      return session;
    }

    /** Skips what is not the answer; judges the first frame that is. */
    method Receive(x: Filter, expected: byte, alt: byte, bufSize: nat, inbox: seq<Frame>) returns (r: Outcome)
      ensures r == Scan(x, expected, alt, bufSize, inbox)
    {
      hide Decode, SplitId;
      var k := 0;
      while k < |inbox|
        invariant 0 <= k <= |inbox|
        invariant Scan(x, expected, alt, bufSize, inbox) == Scan(x, expected, alt, bufSize, inbox[k..])
      {
        var f := inbox[k];
        assert inbox[k..][0] == f && inbox[k..][1..] == inbox[k + 1..];
        k := k + 1;
        var decoded := Decode(f);
        DecodedHasUsdoId(f);
        if decoded.Err? || SplitId(IdValue(f.canId)).value.1 != Response {
          continue;
        }
        var pdu := decoded.pdu;
        if pdu.src != x.node || pdu.dst != x.me || pdu.session != x.session {
          continue;
        }
        if x.mux.Some? && pdu.muxValid && (pdu.index != x.mux.value.0 || pdu.sub != x.mux.value.1) {
          continue;
        }
        return JudgeAnswer(pdu, expected, alt, bufSize);
      }
      return Gave(Timeout);
    }

    method Exchange(node: byte, session: byte, body: Body, expected: byte, alt: byte, mux: Option<(u16, byte)>, bufSize: nat)
      returns (r: Outcome)
      requires Valid() && Encodable(Message(me, node, session, body))
      modifies `wire
      ensures Valid() && wire.carrier.node == old(wire).carrier.node
      ensures (wire, r) == RoundTrip(bus, old(wire), Link(me, node), session, body, expected, alt, mux, bufSize)
    {
      hide Scan, Encodable;
      var t := Transmit(bus, wire, Message(me, node, session, body));
      wire := t.0;
      r := Receive(Filter(me, node, session, mux), expected, alt, bufSize, t.1);
    }

    /** The segment loop of a large result, into a buffer of at least the announced size. */
    method PullSegments(node: byte, session: byte, total: nat, buf: array<byte>) returns (status: Status, have: nat)
      requires Valid() && NodeOk(node) && session != 0 && total <= buf.Length
      modifies `wire, buf
      ensures Valid()
      ensures var r := SegPull(bus, old(wire), Link(me, node), session, total, 0, []);
              && wire == r.0
              && (if status == SecOk then have <= buf.Length && r.1 == Got(buf[..have]) else r.1 == Failed(status))
    {
      hide RoundTrip;
      var counter: byte := 0;
      have := 0;
      assert buf[..0] == [];
      while true
        invariant Valid() && have <= total
        invariant SegPull(bus, old(wire), Link(me, node), session, total, 0, [])
               == SegPull(bus, wire, Link(me, node), session, total, counter, buf[..have])
        decreases 0x100 - counter
      {
        var r := Exchange(node, session, UploadSegReq(counter), CMD_UPLOAD_SEG_RESP, CMD_UPLOAD_END_RESP, None, PAYLOAD_MAX);
        if r.Gave? {
          return r.status, have;
        }
        var pdu := r.pdu;
        if pdu.cmd == CMD_UPLOAD_SEG_RESP && pdu.counter != counter {
          return Protocol, have;
        }
        if have + |pdu.data| > total {
          return Protocol, have;
        }
        AppendTo(pdu.data, buf, have);
        have := have + |pdu.data|;
        if pdu.cmd == CMD_UPLOAD_END_RESP {
          break;
        }
        if counter == 0xFF {
          return Protocol, have;
        }
        counter := counter + 1;
      }
      status := if have != total then Protocol else SecOk;
    }

    /** A read: one request, then segments when the result was announced instead of sent. */
    method Read(device: u16, dataId: u32, body: seq<byte>, buf: array<byte>) returns (status: Status, len: nat)
      requires Valid()
      modifies this, buf
      ensures Valid()
      ensures var r := TransportRead(bus, old(Model()), me, device, dataId, body, buf.Length);
              && Model() == r.0
              && (if status == SecOk then len <= buf.Length && r.1 == Got(buf[..len]) else r.1 == Failed(status))
    {
      hide RoundTrip, SegPull;
      var node, index, sub := device % 0x100, IndexOf(dataId), SubOf(dataId);
      len := 0;
      if node == 0 || node > NODE_ID_MAX {
        return Protocol, len;
      }
      var next := Bump();
      var request := FetchBody(index, sub, body);
      if !Encodable(Message(me, node, next, request)) {
        return Protocol, len;
      }
      var expected := if |body| > 0 then CMD_DOWNLOAD_RESP else CMD_UPLOAD_RESP;
      var r := Exchange(node, next, request, expected, CMD_UPLOAD_INIT_RESP, Some((index, sub)), buf.Length);
      if r.Gave? {
        return r.status, len;
      }
      AnswerFits(bus, old(wire), Link(me, node), next, request, expected, CMD_UPLOAD_INIT_RESP, Some((index, sub)), buf.Length);
      if r.pdu.cmd == CMD_UPLOAD_INIT_RESP {
        if r.pdu.totalSize > buf.Length {
          return BufSize, len;
        }
        status, len := PullSegments(node, next, r.pdu.totalSize, buf);
        return;
      }
      AppendTo(r.pdu.data, buf, 0);
      return SecOk, |r.pdu.data|;
    }

    /** The segment loop of a large write: full segments while more than 60 bytes remain. */
    method PushSegments(node: byte, session: byte, body: seq<byte>) returns (status: Status)
      requires Valid() && NodeOk(node) && session != 0 && DATA_MAX < |body| <= SEG_BODY_MAX
      modifies `wire
      ensures Valid()
      ensures (wire, status) == SegPush(bus, old(wire), Link(me, node), session, body, 0)
    {
      hide RoundTrip;
      var offset, counter: byte := 0, 0;
      while |body| - offset > SEG_DATA_MAX
        invariant Valid() && offset == SEG_DATA_MAX * counter < |body|
        invariant SegPush(bus, old(wire), Link(me, node), session, body, 0)
               == SegPush(bus, wire, Link(me, node), session, body, counter)
      {
        var r := Exchange(node, session, DownloadSegReq(counter, body[offset..offset + SEG_DATA_MAX]), CMD_DOWNLOAD_SEG_RESP,
                          0, None, PAYLOAD_MAX);
        if r.Gave? {
          return r.status;
        }
        if r.pdu.counter != counter {
          return Protocol;
        }
        offset := offset + SEG_DATA_MAX;
        counter := counter + 1;
      }
      var r := Exchange(node, session, DownloadEndReq(body[offset..]), CMD_DOWNLOAD_END_RESP, 0, None, PAYLOAD_MAX);
      status := if r.Gave? then r.status else SecOk;
    }

    /** A write: one frame up to 56 bytes, otherwise initiate, segments and end. */
    method Write(device: u16, dataId: u32, body: seq<byte>) returns (status: Status)
      requires Valid()
      modifies this
      ensures Valid()
      ensures (Model(), status) == TransportWrite(bus, old(Model()), me, device, dataId, body)
    {
      hide RoundTrip, SegPush;
      var node, index, sub := device % 0x100, IndexOf(dataId), SubOf(dataId);
      if node == 0 || node > NODE_ID_MAX {
        return Protocol;
      }
      if |body| <= DATA_MAX {
        var next := Bump();
        if !Encodable(Message(me, node, next, DownloadReq(index, sub, body))) {
          return Protocol;
        }
        var r := Exchange(node, next, DownloadReq(index, sub, body), CMD_DOWNLOAD_RESP, 0, Some((index, sub)), PAYLOAD_MAX);
        return if r.Gave? then r.status else SecOk;
      }
      if |body| > SEG_BODY_MAX {
        return BufSize;
      }
      var next := Bump();
      if !Encodable(Message(me, node, next, DownloadInitReq(index, sub, |body|))) {
        return Protocol;
      }
      var r := Exchange(node, next, DownloadInitReq(index, sub, |body|), CMD_DOWNLOAD_INIT_RESP, 0, Some((index, sub)), PAYLOAD_MAX);
      if r.Gave? {
        return r.status;
      }
      status := PushSegments(node, next, body);
    }
  }

  /** An accepted answer fits the buffer it was asked for. */
  lemma AnswerFits<D>(bus: Bus<D>, w: Wire<D>, link: Link, session: byte, body: Body, expected: byte, alt: byte,
                      mux: Option<(u16, byte)>, bufSize: nat)
    requires CarrierOk(w.carrier) && Encodable(Message(link.me, link.node, session, body))
    ensures var r := RoundTrip(bus, w, link, session, body, expected, alt, mux, bufSize).1;
            r.Answered? ==> |r.pdu.data| <= bufSize
  {
    hide Transmit, Relevant, Decode;
    var t := Transmit(bus, w, Message(link.me, link.node, session, body));
    ScanFits(Filter(link.me, link.node, session, mux), expected, alt, bufSize, t.1);
  }

  lemma ScanFits(x: Filter, expected: byte, alt: byte, bufSize: nat, inbox: seq<Frame>)
    ensures var r := Scan(x, expected, alt, bufSize, inbox); r.Answered? ==> |r.pdu.data| <= bufSize
  {
    hide Relevant, Decode;
    if inbox != [] {
      ScanFits(x, expected, alt, bufSize, inbox[1..]);
    }
  }
}
