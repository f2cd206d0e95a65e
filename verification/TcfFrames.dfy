/** The compact frame: header, payload region, envelope and the correlation that undoes a decode (ADR-021). */
module TcfFrames {
  import opened Rail
  import opened TcfText
  import opened TcfPayloads
  import Reg = TcfRegistry

  const FLAG_IS_COMMAND: nat := 1

  /** What travels as an object: packed by one of the four codecs, or carried as JSON. */
  datatype Body<J> = Packed(payload: Payload) | Json(value: J)

  /**
   * The JSON text carrier, whose own syntax is not modelled: a parser, a printer, the empty object, and the object
   * that reports an unknown type identifier at some epoch, of a command or of an event.
   */
  datatype Carrier<!J> =
    Carrier(parse: seq<Byte> -> Option<J>, print_: J -> seq<Byte>, empty: J, unknown: (bool, nat, nat) -> J)

  function EventFormat(t: Reg.EventType): Option<Format> {
    match t
    case MarkerTraversed => Some(Traversed)
    case ClearanceRequest => Some(Request)
    case ClearanceGranted => Some(Granted)
    case _ => None
  }

  function CommandFormat(t: Reg.CommandType): Option<Format> {
    if t.GrantClearance? then Some(Grant) else None
  }

  function FormatFor(typeId: nat, isCommand: bool): Option<Format> {
    if isCommand then
      var t := Reg.IdToCommandType(typeId);
      if t.None? then None else CommandFormat(t.value)
    else
      var t := Reg.IdToEventType(typeId);
      if t.None? then None else EventFormat(t.value)
  }

  // ---------- the payload region ----------

  function PrintBody<J(==)>(c: Carrier<J>, format: Option<Format>, body: Body<J>): Option<seq<Byte>> {
    match format
    case Some(f) => if body.Packed? && FormatOf(body.payload) == f then Encode(body.payload) else None
    case None => if !body.Json? then None else if body.value == c.empty then Some([]) else Some(c.print_(body.value))
  }

  function ParseBody<J>(c: Carrier<J>, format: Option<Format>, region: seq<Byte>): Option<Body<J>> {
    match format
    case Some(f) =>
      var p := Decode(f, region);
      if p.None? then None else Some(Packed(p.value))
    case None =>
      if region == [] then Some(Json(c.empty))
      else
        var v := c.parse(region);
        if v.None? then None else Some(Json(v.value))
  }

  // ---------- big-endian fields ----------

  function U16(n: nat): seq<Byte>
    requires n < 0x1_0000
  {
    [n / 0x100, n % 0x100]
  }

  function U32(n: nat): (r: seq<Byte>)
    requires n < 0x1_0000_0000
    ensures |r| == 4
  {
    U16(n / 0x1_0000) + U16(n % 0x1_0000)
  }

  function Read16(b: seq<Byte>): nat
    requires |b| == 2
  {
    var high: nat, low: nat := b[0], b[1];
    0x100 * high + low
  }

  function Read32(b: seq<Byte>): nat
    requires |b| == 4
  {
    0x1_0000 * Read16(b[..2]) + Read16(b[2..])
  }

  lemma Read16RoundTrip(n: nat)
    requires n < 0x1_0000
    ensures |U16(n)| == 2 && Read16(U16(n)) == n
  {
  }

  lemma Read16Back(b: seq<Byte>)
    requires |b| == 2
    ensures Read16(b) < 0x1_0000 && U16(Read16(b)) == b
  {
    var high: nat, low: nat := b[0], b[1];
    assert (0x100 * high + low) / 0x100 == high && (0x100 * high + low) % 0x100 == low;
  }

  lemma Read32RoundTrip(n: nat)
    requires n < 0x1_0000_0000
    ensures Read32(U32(n)) == n
  {
    hide U16, Read16;
    Read16RoundTrip(n / 0x1_0000);
    Read16RoundTrip(n % 0x1_0000);
    var b := U32(n);
    assert b[..2] == U16(n / 0x1_0000) && b[2..] == U16(n % 0x1_0000);
  }

  lemma Read32Back(b: seq<Byte>)
    requires |b| == 4
    ensures Read32(b) < 0x1_0000_0000 && U32(Read32(b)) == b
  {
    hide U16, Read16;
    Read16Back(b[..2]);
    Read16Back(b[2..]);
    var hi, lo := Read16(b[..2]), Read16(b[2..]);
    assert (0x1_0000 * hi + lo) / 0x1_0000 == hi && (0x1_0000 * hi + lo) % 0x1_0000 == lo;
    assert b == b[..2] + b[2..];
  }

  // ---------- frames ----------

  datatype Header = Header(epoch: int, typeId: int, flags: int, deviceRef: int, seqNo: int, uptime: int)

  predicate InRange(h: Header) {
    && 0 <= h.epoch < 0x100 && 0 <= h.typeId < 0x100 && 0 <= h.flags < 0x100
    && 0 <= h.deviceRef < 0x1_0000_0000 && 0 <= h.seqNo < 0x1_0000 && 0 <= h.uptime < 0x1_0000_0000
  }

  function HeaderBytes(h: Header): (r: seq<Byte>)
    requires InRange(h)
    ensures |r| == HEADER_BYTES
  {
    [h.epoch, h.typeId, h.flags] + U32(h.deviceRef) + U16(h.seqNo) + U32(h.uptime)
  }

  /** Fails on a field out of range, a payload that does not print, or a region too long for one frame. */
  function WriteFrame<J(==)>(c: Carrier<J>, h: Header, format: Option<Format>, body: Body<J>): Option<seq<Byte>> {
    if !InRange(h) then None
    else
      var region := PrintBody(c, format, body);
      if region.None? || |region.value| > MAX_PAYLOAD_BYTES then None else Some(HeaderBytes(h) + region.value)
  }

  function ReadHeader(b: seq<Byte>): (h: Header)
    requires |b| >= HEADER_BYTES
    ensures InRange(h)
  {
    Read32Back(b[3..7]);
    Read16Back(b[7..9]);
    Read32Back(b[9..13]);
    Header(b[0], b[1], b[2], Read32(b[3..7]), Read16(b[7..9]), Read32(b[9..13]))
  }

  predicate IsCommand(h: Header) { h.flags % 2 == 1 }

  function FormatOfFrame(h: Header): Option<Format>
    requires InRange(h)
  {
    FormatFor(h.typeId, IsCommand(h))
  }

  datatype Frame<J> = Frame(header: Header, body: Body<J>)

  function ReadFrame<J>(c: Carrier<J>, b: seq<Byte>): (r: Option<Frame<J>>)
    ensures r.Some? ==> |b| >= HEADER_BYTES && r.value.header == ReadHeader(b)
  {
    if |b| < HEADER_BYTES then None
    else
      var h := ReadHeader(b);
      var body := ParseBody(c, FormatOfFrame(h), b[HEADER_BYTES..]);
      if body.None? then None else Some(Frame(h, body.value))
  }

  lemma HeaderRoundTrip(h: Header, region: seq<Byte>)
    requires InRange(h)
    ensures ReadHeader(HeaderBytes(h) + region) == h && (HeaderBytes(h) + region)[HEADER_BYTES..] == region
  {
    hide U16, U32, Read16, Read32;
    Read32RoundTrip(h.deviceRef);
    Read16RoundTrip(h.seqNo);
    Read32RoundTrip(h.uptime);
    var b := HeaderBytes(h) + region;
    assert b[3..7] == U32(h.deviceRef) && b[7..9] == U16(h.seqNo) && b[9..13] == U32(h.uptime);
  }

  lemma HeaderBack(b: seq<Byte>)
    requires |b| >= HEADER_BYTES
    ensures HeaderBytes(ReadHeader(b)) == b[..HEADER_BYTES]
  {
    hide U16, U32, Read16, Read32;
    Read32Back(b[3..7]);
    Read16Back(b[7..9]);
    Read32Back(b[9..13]);
    assert b[..13] == [b[0], b[1], b[2]] + b[3..7] + b[7..9] + b[9..13];
  }

  // ---------- what a conforming device sends ----------

  /** The JSON carrier gives back what it printed, and prints something for anything but the empty object. */
  ghost predicate Lossless<J(!new)>(c: Carrier<J>) {
    forall j :: j != c.empty ==> c.print_(j) != [] && c.parse(c.print_(j)) == Some(j)
  }

  ghost predicate Sendable<J>(format: Option<Format>, body: Body<J>) {
    match format
    case Some(f) => body.Packed? && FormatOf(body.payload) == f && WellFormed(body.payload)
    case None => body.Json?
  }

  lemma BodyRoundTrip<J(!new)>(c: Carrier<J>, format: Option<Format>, body: Body<J>)
    requires Lossless(c) && Sendable(format, body)
    ensures PrintBody(c, format, body).Some? && ParseBody(c, format, PrintBody(c, format, body).value) == Some(body)
  {
    hide Encode, Decode, WellFormed;
    if body.Packed? {
      WellFormedRoundTrip(body.payload);
    }
  }

  /** Every frame written from a sendable body reads back as it was written. */
  lemma FrameRoundTrip<J(!new)>(c: Carrier<J>, h: Header, body: Body<J>)
    requires Lossless(c) && InRange(h) && Sendable(FormatOfFrame(h), body)
    requires WriteFrame(c, h, FormatOfFrame(h), body).Some?
    ensures ReadFrame(c, WriteFrame(c, h, FormatOfFrame(h), body).value) == Some(Frame(h, body))
  {
    hide PrintBody, ParseBody, Sendable, Lossless, ReadHeader, HeaderBytes, FormatFor;
    BodyRoundTrip(c, FormatOfFrame(h), body);
    HeaderRoundTrip(h, PrintBody(c, FormatOfFrame(h), body).value);
  }
}
