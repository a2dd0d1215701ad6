/**
 * The CAN FD frame: its validity rule, its byte form on the carrier, and the
 * rounding of lengths to what CAN FD can express.
 */
module CanFdFrame {
  import opened Bytes

  const PAYLOAD_MAX := 64
  const HEADER_SIZE := 6
  const STD_ID_MAX := 0x7FF
  const FLAG_BRS: byte := 0x01

  /** All 64 payload bytes are there; `len` says how many count. */
  datatype FrameData = Frame(canId: u32, flags: byte, len: byte, payload: seq<byte>)

  type Frame = f: FrameData | |f.payload| == PAYLOAD_MAX
    witness FrameData.Frame(0, 0, 0, Zeros(PAYLOAD_MAX))

  /* ---- The identifier word: 29 bits of value, then ERR, RTR and IDE ---- */

  function IdValue(canId: u32): nat { canId % 0x2000_0000 }

  predicate IsErr(canId: u32) { canId / 0x2000_0000 % 2 == 1 }

  predicate IsRtr(canId: u32) { canId / 0x4000_0000 % 2 == 1 }

  predicate IsExtended(canId: u32) { canId / 0x8000_0000 == 1 }

  /* ---- Validity ---- */

  datatype Validity = Valid | ReservedCanId | ReservedFlags | LenTooBig

  /** An identifier word that may travel: standard, or extended with IDE as its only flag. */
  predicate IdFits(canId: u32) { canId <= STD_ID_MAX || 0x8000_0000 <= canId <= 0x9FFF_FFFF }

  /** A verdict names the first part that is out of range: identifier word, flags, length. */
  predicate Justified(v: Validity, canId: u32, flags: byte, len: byte) {
    match v
    case Valid => IdFits(canId) && flags <= 3 && len <= PAYLOAD_MAX
    case ReservedCanId => !IdFits(canId)
    case ReservedFlags => IdFits(canId) && flags > 3
    case LenTooBig => IdFits(canId) && flags <= 3 && len > PAYLOAD_MAX
  }

  method Validate(f: Frame) returns (v: Validity)
    ensures Justified(v, f.canId, f.flags, f.len)
  {
    if IsRtr(f.canId) {
      return ReservedCanId;
    }
    if IsErr(f.canId) {
      return ReservedCanId;
    }
    if !IsExtended(f.canId) {
      if IdValue(f.canId) > STD_ID_MAX {
        return ReservedCanId;
      }
    }
    if f.flags > 3 {
      return ReservedFlags;
    }
    if f.len > PAYLOAD_MAX {
      return LenTooBig;
    }
    return Valid;
  }

  /* ---- Byte form ---- */

  function Serialize(f: Frame): (r: seq<byte>)
    requires f.len <= PAYLOAD_MAX
    ensures |r| == HEADER_SIZE + f.len
  {
    Le32(f.canId) + [f.flags, f.len] + f.payload[..f.len]
  }

  method SerializeInto(f: Frame, buf: array<byte>) returns (ok: bool, total: nat)
    requires f.len <= PAYLOAD_MAX
    modifies buf
    ensures total == HEADER_SIZE + f.len && (ok <==> total <= buf.Length)
    ensures if ok then buf[..total] == Serialize(f) && buf[total..] == old(buf[total..]) else buf[..] == old(buf[..])
  {
    total := HEADER_SIZE + f.len;
    if buf.Length < total {
      return false, total;
    }
    CopyTo(Le32(f.canId), buf, 0);
    buf[4], buf[5] := f.flags, f.len;
    assert buf[..6] == Le32(f.canId) + [f.flags, f.len];
    assert buf[total..] == old(buf[total..]);
    CopyTo(f.payload[..f.len], buf, HEADER_SIZE);
    assert buf[..total] == buf[..6] + buf[6..total];
    ok := true;
  }

  datatype Parsed = NeedMore | Rejected(why: Validity) | Header(canId: u32, flags: byte, len: byte)

  function ParseHeader(buf: seq<byte>): Parsed {
    if |buf| < HEADER_SIZE then NeedMore
    else
      var canId, flags, len := FromLe32(buf[..4]), buf[4], buf[5];
      if IsRtr(canId) || IsErr(canId) then Rejected(ReservedCanId)
      else if !IsExtended(canId) && IdValue(canId) > STD_ID_MAX then Rejected(ReservedCanId)
      else if flags > 3 then Rejected(ReservedFlags)
      else if len > PAYLOAD_MAX then Rejected(LenTooBig)
      else Header(canId, flags, len)
  }

  /** Parsing undoes serializing, and accepts a full header exactly when the validator accepts the frame. */
  lemma ParseAcceptsWhatIsValid(f: Frame)
    requires f.len <= PAYLOAD_MAX
    ensures var r := ParseHeader(Serialize(f));
            && (if Justified(Valid, f.canId, f.flags, f.len) then r == Header(f.canId, f.flags, f.len)
                else r.Rejected? && r.why != Valid && Justified(r.why, f.canId, f.flags, f.len))
            && Serialize(f)[HEADER_SIZE..] == f.payload[..f.len]
  {
    Le32RoundTrip(f.canId);
    assert Serialize(f)[..4] == Le32(f.canId);
  }

  /** Every six bytes are read as the header of one frame, judged by the same rule. */
  lemma ParseJudgesEveryHeader(buf: seq<byte>)
    requires |buf| >= HEADER_SIZE
    ensures var canId, flags, len := FromLe32(buf[..4]), buf[4], buf[5];
            var r := ParseHeader(buf);
            && (if Justified(Valid, canId, flags, len) then r == Header(canId, flags, len)
                else r.Rejected? && r.why != Valid && Justified(r.why, canId, flags, len))
            && Le32(canId) == buf[..4]
  {
    Le32OfFromLe32(buf[..4]);
  }

  lemma Le32OfFromLe32(s: seq<byte>)
    requires |s| == 4
    ensures Le32(FromLe32(s)) == s
  {
    var v := FromLe32(s);
    assert v / 0x100 == s[1] as int + 0x100 * s[2] as int + 0x1_0000 * s[3] as int;
    assert v / 0x1_0000 == s[2] as int + 0x100 * s[3] as int;
    assert v / 0x100_0000 == s[3];
  }

  /* ---- Lengths that CAN FD can express ---- */

  const DLC_MAP: seq<byte> := [0, 1, 2, 3, 4, 5, 6, 7, 8, 12, 16, 20, 24, 32, 48, 64]

  function DlcToLen(dlc: byte): byte { DLC_MAP[dlc % 0x10] }

  function LenToDlc(len: byte): byte {
    if len <= 8 then len
    else if len <= 12 then 9
    else if len <= 16 then 10
    else if len <= 20 then 11
    else if len <= 24 then 12
    else if len <= 32 then 13
    else if len <= 48 then 14
    else 15
  }

  /** The padded length is the smallest expressible one that holds the data. */
  lemma PaddingIsTight(len: byte)
    requires len <= PAYLOAD_MAX
    ensures LenToDlc(len) < 0x10 && len <= DlcToLen(LenToDlc(len)) <= PAYLOAD_MAX
    ensures forall dlc: byte :: dlc < 0x10 && len <= DlcToLen(dlc) ==> DlcToLen(LenToDlc(len)) <= DlcToLen(dlc)
    ensures len <= 8 || len == 12 || len == PAYLOAD_MAX ==> DlcToLen(LenToDlc(len)) == len
  {
  }

  /**
   * `g` is what a receiver may see of a sent frame `f`: same identifier, length
   * as sent or padded to a CAN FD length, zeros as padding, anything behind it.
   */
  predicate ArrivesAs(f: Frame, g: Frame) {
    && f.len <= PAYLOAD_MAX && g.canId == f.canId
    && (g.len == f.len || g.len == DlcToLen(LenToDlc(f.len)))
    && f.len <= g.len <= PAYLOAD_MAX
    && g.payload[..g.len] == f.payload[..f.len] + Zeros(g.len - f.len)
  }
}
