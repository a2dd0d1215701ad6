/**
 * The carrier server as it is kept in memory: one reassembly buffer and one
 * upload buffer, updated in place for every received frame. Each handler is
 * proved to do what its transition function says.
 */
module UsdoServer {
  import opened Bytes
  import opened Aborts
  import opened CanFdFrame
  import opened Usdo
  import opened ServerCarrier

  class Server<D> {
    const node: byte
    const dispatcher: Dispatcher<D>
    var app: D

    var dlActive: bool
    var dlSrc: byte
    var dlSession: byte
    var dlIndex: u16
    var dlSub: byte
    var dlCounter: byte
    var dlTotal: nat
    var dlHave: nat
    const dlBuf: array<byte>

    var ulActive: bool
    var ulDst: byte
    var ulSession: byte
    var ulTotal: nat
    var ulSent: nat
    var ulCounter: byte
    const ulBuf: array<byte>

    ghost predicate Valid()
      reads this
    {
      && dlBuf.Length == ulBuf.Length == SEG_BODY_MAX && dlBuf != ulBuf
      && dlHave <= SEG_BODY_MAX && dlTotal <= SEG_BODY_MAX && ulSent <= ulTotal <= SEG_BODY_MAX
    }

    ghost function Down(): Download
      requires Valid()
      reads this, dlBuf
    {
      Download(dlActive, dlSrc, dlSession, dlIndex, dlSub, dlCounter, dlTotal, dlBuf[..dlHave])
    }

    ghost function Up(): Upload
      requires Valid()
      reads this, ulBuf
    {
      Upload(ulActive, ulDst, ulSession, ulSent, ulCounter, ulBuf[..ulTotal])
    }

    ghost function Model(): Carrier<D>
      requires Valid()
      reads this, dlBuf, ulBuf
    {
      Carrier(node, Down(), Up(), app)
    }

    constructor (node: byte, dispatcher: Dispatcher<D>, app: D)
      ensures Valid() && fresh(dlBuf) && fresh(ulBuf)
      ensures this.dispatcher == dispatcher && Model() == Carrier(node, NO_DOWNLOAD, NO_UPLOAD, app)
    {
      this.node, this.dispatcher, this.app := node, dispatcher, app;
      dlActive, dlSrc, dlSession, dlIndex, dlSub, dlCounter, dlTotal, dlHave := false, 0, 0, 0, 0, 0, 0, 0;
      ulActive, ulDst, ulSession, ulTotal, ulSent, ulCounter := false, 0, 0, 0, 0, 0;
      dlBuf := new byte[SEG_BODY_MAX];
      ulBuf := new byte[SEG_BODY_MAX];
    }

    method AbortTransfers(peer: byte, session: byte, index: u16, sub: byte, code: byte) returns (out: Option<Message>)
      requires Valid()
      modifies `dlActive, `ulActive
      ensures Valid()
      ensures var r := SegAbort(old(Model()), peer, session, index, sub, code); Model() == r.carrier && out == r.out
    {
      dlActive, ulActive := false, false;
      out := Sent(Message(node, peer, session, Abort(index, sub, code)));
    }

    method OpenDownload(pdu: Pdu) returns (out: Option<Message>)
      requires Valid()
      modifies this
      ensures Valid()
      ensures var r := DownloadInit(old(Model()), pdu); Model() == r.carrier && out == r.out
    {
      if pdu.totalSize > dlBuf.Length {
        out := AbortTransfers(pdu.src, pdu.session, pdu.index, pdu.sub, LEN_TOO_HIGH);
        return;
      }
      dlActive, dlSrc, dlSession, dlIndex, dlSub := true, pdu.src, pdu.session, pdu.index, pdu.sub;
      dlCounter, dlTotal, dlHave := 0, pdu.totalSize, 0;
      out := Sent(Message(node, pdu.src, pdu.session, DownloadInitResp(pdu.index, pdu.sub)));
    }

    /** Copies the segment behind what is already there. */
    method AppendSegment(data: seq<byte>)
      requires Valid() && dlHave + |data| <= dlTotal
      modifies `dlHave, dlBuf
      ensures Valid() && Down() == old(Down()).(body := old(Down()).body + data)
    {
      AppendTo(data, dlBuf, dlHave);
      dlHave := dlHave + |data|;
    }

    method FeedDownload(pdu: Pdu) returns (out: Option<Message>, complete: bool)
      requires Valid()
      modifies this, dlBuf
      ensures Valid()
      ensures var r := DownloadFeed(old(Model()), pdu); Model() == r.0.carrier && out == r.0.out && complete == r.1
    {
      var last := pdu.cmd == CMD_DOWNLOAD_END_REQ;
      if !(dlActive && pdu.src == dlSrc && pdu.session == dlSession) {
        out := AbortTransfers(pdu.src, pdu.session, SEG_ABORT_INDEX, 0, SESSION_ID);
        return out, false;
      }
      if !last && pdu.counter != dlCounter {
        out := AbortTransfers(pdu.src, pdu.session, dlIndex, dlSub, SEG_COUNTER);
        return out, false;
      }
      if dlHave + |pdu.data| > dlTotal {
        out := AbortTransfers(pdu.src, pdu.session, dlIndex, dlSub, DATA_SIZE);
        return out, false;
      }
      AppendSegment(pdu.data);
      if !last {
        out := Sent(Message(node, pdu.src, pdu.session, DownloadSegResp(dlCounter)));
        dlCounter := (dlCounter + 1) % 0x100;
        return out, false;
      }
      if dlHave != dlTotal {
        out := AbortTransfers(pdu.src, pdu.session, dlIndex, dlSub, DATA_SIZE);
        return out, false;
      }
      return None, true;
    }

    method ServeUpload(pdu: Pdu) returns (out: Option<Message>)
      requires Valid()
      modifies this
      ensures Valid()
      ensures var r := UploadServe(old(Model()), pdu); Model() == r.carrier && out == r.out
    {
      if !ulActive || pdu.src != ulDst || pdu.session != ulSession {
        out := AbortTransfers(pdu.src, pdu.session, SEG_ABORT_INDEX, 0, SESSION_ID);
        return;
      }
      if pdu.counter != ulCounter {
        out := AbortTransfers(pdu.src, pdu.session, SEG_ABORT_INDEX, 0, SEG_COUNTER);
        return;
      }
      assert forall i, j :: 0 <= i <= j <= ulTotal ==> ulBuf[i..j] == ulBuf[..ulTotal][i..j];
      if ulTotal - ulSent > SEG_DATA_MAX {
        out := Sent(Message(node, ulDst, ulSession, UploadSegResp(ulCounter, ulBuf[ulSent..ulSent + SEG_DATA_MAX])));
        ulSent := ulSent + SEG_DATA_MAX;
        ulCounter := (ulCounter + 1) % 0x100;
        return;
      }
      out := Sent(Message(node, ulDst, ulSession, UploadEndResp(ulBuf[ulSent..ulTotal])));
      ulActive := false;
    }

    /** The reply callback: park a large result, or answer directly. */
    method Reply(o: Origin, r: DispatchReply) returns (out: Option<Message>)
      requires Valid()
      modifies this, ulBuf
      ensures Valid() && Down() == old(Down()) && app == old(app)
      ensures (Model(), out) == SendReply(old(Model()), o, r)
    {
      if r.status == NO_ABORT && |r.data| > DATA_MAX {
        if |r.data| > ulBuf.Length {
          return None;
        }
        AppendTo(r.data, ulBuf, 0);
        assert ulBuf[..|r.data|] == r.data;
        ulTotal, ulSent, ulCounter, ulSession, ulDst, ulActive := |r.data|, 0, 0, o.session, o.src, true;
        out := Sent(Message(node, o.src, o.session, UploadInitResp(o.index, o.sub, |r.data|)));
        return;
      }
      out := Sent(Message(node, o.src, o.session, ReplyBody(o, r)));
    }

    method CallDispatcher(o: Origin, body: seq<byte>) returns (out: Option<Message>)
      requires Valid()
      modifies this, ulBuf
      ensures Valid() && Down() == old(Down())
      ensures var r := ServeRequest(dispatcher, old(Model()), o, body); Model() == r.carrier && out == r.out
    {
      hide SendReply;
      var r := dispatcher.call(app, o.src, DataIdOf(o.index, o.sub), body);
      app := r.0;
      out := Reply(o, r.1);
    }

    /** One frame of the receive loop. */
    method HandleReceived(f: Frame) returns (out: Option<Message>)
      requires Valid()
      modifies this, dlBuf, ulBuf
      ensures Valid()
      ensures var r := HandleFrame(dispatcher, old(Model()), f); Model() == r.carrier && out == r.out
    {
      hide Decode, DownloadInit, DownloadFeed, UploadServe, ServeRequest, SplitId;
      var decoded := Decode(f);
      if decoded.Err? {
        return None;
      }
      var pdu, split := decoded.pdu, SplitId(IdValue(f.canId));
      if split.None? || split.value.1 != Request || pdu.dst != node {
        return None;
      }
      if pdu.cmd == CMD_DOWNLOAD_INIT_REQ {
        out := OpenDownload(pdu);
        return;
      }
      if pdu.cmd == CMD_DOWNLOAD_SEG_REQ || pdu.cmd == CMD_DOWNLOAD_END_REQ {
        var complete;
        out, complete := FeedDownload(pdu);
        if !complete {
          return;
        }
        out := CallDispatcher(Origin(dlSrc, CMD_DOWNLOAD_END_REQ, dlSession, dlIndex, dlSub), dlBuf[..dlHave]);
        dlActive := false;
        return;
      }
      if pdu.cmd == CMD_UPLOAD_SEG_REQ {
        out := ServeUpload(pdu);
        return;
      }
      out := CallDispatcher(Origin(pdu.src, pdu.cmd, pdu.session, pdu.index, pdu.sub), pdu.data);
    }
  }
}
