/** The bridge between frames and envelopes: what a decode remembers lets any earlier frame be rebuilt. */
module TcfBridge {
  import opened Rail
  import opened TcfText
  import opened TcfPayloads
  import opened TcfFrames
  import TcfBytes
  import Reg = TcfRegistry

  datatype Correlation = Correlation(deviceRef: int, seqNo: int, uptime: int)

  datatype Context = Context(refToId: map<int, string>, idToRef: map<string, int>, seen: map<string, Correlation>)

  function NewContext(): Context { Context(map[], map[], map[]) }

  datatype Envelope<J> =
    | EventEnvelope(id: string, device: string, event: Reg.EventType, stamp: string, version: string, body: Body<J>)
    | CommandEnvelope(id: string, device: string, command: Reg.CommandType, stamp: string, version: string,
                      body: Body<J>)

  /** What the codec is given rather than performs: a fresh identifier, a time stamp and the protocol version. */
  datatype Deps = Deps(newId: string, now: string, version: string)

  datatype Overrides = Overrides(deviceRef: Option<int>, seqNo: Option<int>, uptime: Option<int>, epoch: Option<int>)

  const NOTHING := Overrides(None, None, None, None)

  // ---------- device references ----------

  function SyntheticDeviceId(deviceRef: int): string
    requires 0 <= deviceRef < 0x1_0000_0000
  {
    "00000000-0000-4000-8000-0000" + HexOf(U32(deviceRef))
  }

  function Resolve(ctx: Context, deviceRef: int): (string, Context)
    requires 0 <= deviceRef < 0x1_0000_0000
  {
    if deviceRef in ctx.refToId then (ctx.refToId[deviceRef], ctx)
    else
      var id := SyntheticDeviceId(deviceRef);
      (id, ctx.(refToId := ctx.refToId[deviceRef := id], idToRef := ctx.idToRef[id := deviceRef]))
  }

  /** The two device maps undo each other. */
  ghost predicate MutuallyInverse(ctx: Context) {
    && (forall r :: r in ctx.refToId ==> ctx.refToId[r] in ctx.idToRef && ctx.idToRef[ctx.refToId[r]] == r)
    && (forall d :: d in ctx.idToRef ==> ctx.idToRef[d] in ctx.refToId && ctx.refToId[ctx.idToRef[d]] == d)
  }

  ghost predicate AllSynthetic(ctx: Context) {
    forall r :: r in ctx.refToId ==> 0 <= r < 0x1_0000_0000 && ctx.refToId[r] == SyntheticDeviceId(r)
  }

  lemma SyntheticInjective(a: int, b: int)
    requires 0 <= a < 0x1_0000_0000 && 0 <= b < 0x1_0000_0000 && SyntheticDeviceId(a) == SyntheticDeviceId(b)
    ensures a == b
  {
    hide HexOf, U32, BytesOf;
    var prefix := "00000000-0000-4000-8000-0000";
    assert SyntheticDeviceId(a)[|prefix|..] == HexOf(U32(a));
    assert SyntheticDeviceId(b)[|prefix|..] == HexOf(U32(b));
    HexRoundTrip(U32(a));
    HexRoundTrip(U32(b));
    Read32RoundTrip(a);
    Read32RoundTrip(b);
  }

  /** A new reference keeps the maps inverse exactly when its synthetic identifier is not taken. */
  lemma ResolveKeepsInverse(ctx: Context, deviceRef: int)
    requires 0 <= deviceRef < 0x1_0000_0000 && MutuallyInverse(ctx)
    ensures MutuallyInverse(Resolve(ctx, deviceRef).1)
            <==> deviceRef in ctx.refToId || SyntheticDeviceId(deviceRef) !in ctx.idToRef
  {
    hide SyntheticDeviceId;
    if deviceRef !in ctx.refToId {
      var id := SyntheticDeviceId(deviceRef);
      var next := Resolve(ctx, deviceRef).1;
      if id in ctx.idToRef {
        var r := ctx.idToRef[id];
        assert next.refToId[r] == id && next.idToRef[id] == deviceRef;
      }
    }
  }

  lemma ResolveKeepsSynthetic(ctx: Context, deviceRef: int)
    requires 0 <= deviceRef < 0x1_0000_0000 && MutuallyInverse(ctx) && AllSynthetic(ctx)
    ensures MutuallyInverse(Resolve(ctx, deviceRef).1) && AllSynthetic(Resolve(ctx, deviceRef).1)
  {
    ResolveKeepsInverse(ctx, deviceRef);
    var id := SyntheticDeviceId(deviceRef);
    if id in ctx.idToRef {
      SyntheticInjective(ctx.idToRef[id], deviceRef);
    }
  }

  // ---------- decoding ----------

  function Remember(ctx: Context, id: string, h: Header): Context {
    ctx.(seen := ctx.seen[id := Correlation(h.deviceRef, h.seqNo, h.uptime)])
  }

  function EnvelopeOf<J>(c: Carrier<J>, frame: Frame<J>, device: string, deps: Deps): Envelope<J>
    requires InRange(frame.header)
  {
    var h := frame.header;
    var unknown := EventEnvelope(deps.newId, device, Reg.Anomaly, deps.now, deps.version,
                                 Json(c.unknown(IsCommand(h), h.typeId, h.epoch)));
    if IsCommand(h) then
      var t := Reg.IdToCommandType(h.typeId);
      if t.None? then unknown else CommandEnvelope(deps.newId, device, t.value, deps.now, deps.version, frame.body)
    else
      var t := Reg.IdToEventType(h.typeId);
      if t.None? then unknown else EventEnvelope(deps.newId, device, t.value, deps.now, deps.version, frame.body)
  }

  /** None where the frame does not read; the context is then untouched. */
  function DecodeFrame<J>(c: Carrier<J>, b: seq<Byte>, ctx: Context, deps: Deps): Option<(Envelope<J>, Context)> {
    var frame := ReadFrame(c, b);
    if frame.None? then None
    else
      var (device, ctx1) := Resolve(ctx, frame.value.header.deviceRef);
      Some((EnvelopeOf(c, frame.value, device, deps), Remember(ctx1, deps.newId, frame.value.header)))
  }

  // ---------- encoding ----------

  function First(a: Option<int>, b: Option<int>, c: int): int {
    if a.Some? then a.value else if b.Some? then b.value else c
  }

  function ResolveCorrelation(ctx: Context, id: string, device: string, o: Overrides): Correlation {
    var stashed := if id in ctx.seen then Some(ctx.seen[id]) else None;
    var known := if device in ctx.idToRef then ctx.idToRef[device] else 0;
    if stashed.Some? then
      Correlation(First(o.deviceRef, Some(stashed.value.deviceRef), known),
                  First(o.seqNo, Some(stashed.value.seqNo), 0),
                  First(o.uptime, Some(stashed.value.uptime), 0))
    else Correlation(First(o.deviceRef, None, known), First(o.seqNo, None, 0), First(o.uptime, None, 0))
  }

  function EncodeEnvelope<J(==)>(c: Carrier<J>, env: Envelope<J>, ctx: Context, o: Overrides): Option<seq<Byte>> {
    var k := ResolveCorrelation(ctx, env.id, env.device, o);
    var epoch := First(o.epoch, None, Reg.EPOCH);
    match env
    case EventEnvelope(_, _, event, _, _, body) =>
      var typeId := Reg.EventTypeToId(event);
      if typeId.None? then None
      else WriteFrame(c, Header(epoch, typeId.value, 0, k.deviceRef, k.seqNo, k.uptime), EventFormat(event), body)
    case CommandEnvelope(_, _, command, _, _, body) =>
      var typeId := Reg.CommandTypeToId(command);
      if typeId.None? then None
      else WriteFrame(c, Header(epoch, typeId.value, FLAG_IS_COMMAND, k.deviceRef, k.seqNo, k.uptime),
                      CommandFormat(command), body)
  }

  // ---------- rebuilding ----------

  /** The type identifier is known for the frame's direction. */
  predicate KnownType(h: Header)
    requires InRange(h)
  {
    if IsCommand(h) then Reg.IdToCommandType(h.typeId).Some? else Reg.IdToEventType(h.typeId).Some?
  }

  /**
   * What a device of the current epoch sends: no stray flags, a region its own printer would give, within one frame.
   */
  predicate CanonicalFrame<J(==)>(c: Carrier<J>, b: seq<Byte>) {
    && HEADER_BYTES <= |b| <= MAX_FRAME_BYTES
    && var h := ReadHeader(b);
    && h.epoch == Reg.EPOCH && h.flags <= 1
    && var format := FormatOfFrame(h);
    var body := ParseBody(c, format, b[HEADER_BYTES..]);
    body.Some? && PrintBody(c, format, body.value) == Some(b[HEADER_BYTES..])
  }

  /**
   * For the four packed types canonical means: the current epoch, no stray flags, at most one frame, a region that
   * parses, and flag bytes that are bits.
   */
  lemma PackedCanonicalIff<J(!new)>(c: Carrier<J>, b: seq<Byte>, f: Format)
    requires |b| >= HEADER_BYTES && FormatOfFrame(ReadHeader(b)) == Some(f)
    ensures CanonicalFrame(c, b) <==>
              && |b| <= MAX_FRAME_BYTES && ReadHeader(b).epoch == Reg.EPOCH && ReadHeader(b).flags <= 1
              && Decode(f, b[HEADER_BYTES..]).Some? && NothingDropped(f, b[HEADER_BYTES..])
  {
    hide Decode, Encode, NothingDropped, ReadHeader, FormatFor;
    if Decode(f, b[HEADER_BYTES..]).Some? {
      DecodeBack(f, b[HEADER_BYTES..]);
    }
  }

  /** The correlation a decode left is still there. */
  ghost predicate StillSeen(ctx: Context, id: string, h: Header) {
    id in ctx.seen && ctx.seen[id] == Correlation(h.deviceRef, h.seqNo, h.uptime)
  }

  /** What re-encoding an envelope of a known type writes. */
  lemma Reencoded<J>(c: Carrier<J>, b: seq<Byte>, frame: Frame<J>, device: string, deps: Deps, ctx: Context)
    requires ReadFrame(c, b) == Some(frame) && InRange(frame.header) && KnownType(frame.header)
             && StillSeen(ctx, deps.newId, frame.header)
    ensures var h := frame.header;
            EncodeEnvelope(c, EnvelopeOf(c, frame, device, deps), ctx, NOTHING)
            == WriteFrame(c, h.(epoch := Reg.EPOCH, flags := if IsCommand(h) then 1 else 0), FormatOfFrame(h),
                          frame.body)
  {
    hide PrintBody, ParseBody, HeaderBytes, ReadHeader, WriteFrame, ReadFrame, Reg.IdToEventType, Reg.IdToCommandType,
      Reg.EventTypeToId, Reg.CommandTypeToId;
    var h := frame.header;
    if IsCommand(h) {
      Reg.CommandIds(Reg.IdToCommandType(h.typeId).value, h.typeId);
    } else {
      Reg.EventIds(Reg.IdToEventType(h.typeId).value, h.typeId);
    }
  }

  /** A frame of a known type is rebuilt byte for byte exactly when it is canonical. */
  lemma KnownRebuiltIff<J>(c: Carrier<J>, b: seq<Byte>, frame: Frame<J>, device: string, deps: Deps, ctx: Context)
    requires ReadFrame(c, b) == Some(frame) && InRange(frame.header) && KnownType(frame.header)
             && StillSeen(ctx, deps.newId, frame.header)
    ensures EncodeEnvelope(c, EnvelopeOf(c, frame, device, deps), ctx, NOTHING) == Some(b) <==> CanonicalFrame(c, b)
  {
    hide PrintBody, ParseBody, ReadHeader, HeaderBytes, EnvelopeOf, EncodeEnvelope, FormatFor, Read16, Read32;
    Reencoded(c, b, frame, device, deps, ctx);
    HeaderBack(b);
    var h := frame.header;
    var h' := h.(epoch := Reg.EPOCH, flags := if IsCommand(h) then 1 else 0);
    var region := b[HEADER_BYTES..];
    var printed := PrintBody(c, FormatOfFrame(h), frame.body);
    assert b == b[..HEADER_BYTES] + region;
    if printed.Some? {
      var whole := HeaderBytes(h') + printed.value;
      HeaderRoundTrip(h', printed.value);
      HeaderRoundTrip(h, region);
      if whole == b {
        assert h' == h && printed.value == region;
      }
    }
  }

  const ANOMALY_ID: nat := 12

  lemma AnomalyHasId()
    ensures Reg.IdToEventType(ANOMALY_ID) == Some(Reg.Anomaly) && Reg.EventTypeToId(Reg.Anomaly) == Some(ANOMALY_ID)
  {
    assert Reg.EVENT_TYPE_ORDER[ANOMALY_ID] == Reg.Anomaly;
    Reg.EventIds(Reg.Anomaly, ANOMALY_ID);
  }

  /** The notice of an unknown type is written as an anomaly of the current epoch, with the object of the notice. */
  lemma UnknownEncoded<J>(c: Carrier<J>, frame: Frame<J>, device: string, deps: Deps, ctx: Context)
    requires InRange(frame.header) && !KnownType(frame.header)
    ensures var h := frame.header;
            var k := ResolveCorrelation(ctx, deps.newId, device, NOTHING);
            EncodeEnvelope(c, EnvelopeOf(c, frame, device, deps), ctx, NOTHING)
            == WriteFrame(c, Header(Reg.EPOCH, ANOMALY_ID, 0, k.deviceRef, k.seqNo, k.uptime), None,
                          Json(c.unknown(IsCommand(h), h.typeId, h.epoch)))
  {
    hide WriteFrame, ResolveCorrelation, Reg.IdToEventType, Reg.IdToCommandType, Reg.EventTypeToId;
    AnomalyHasId();
  }

  /** It is never the frame it reports, for it has a type of its own. */
  lemma UnknownNotRebuilt<J>(c: Carrier<J>, b: seq<Byte>, frame: Frame<J>, device: string, deps: Deps, ctx: Context)
    requires ReadFrame(c, b) == Some(frame) && InRange(frame.header) && !KnownType(frame.header)
    ensures EncodeEnvelope(c, EnvelopeOf(c, frame, device, deps), ctx, NOTHING) != Some(b)
  {
    hide PrintBody, ParseBody, ReadHeader, HeaderBytes, FormatFor, ResolveCorrelation, EncodeEnvelope, EnvelopeOf,
         Reg.IdToEventType,
      Reg.IdToCommandType, Reg.EventTypeToId;
    UnknownEncoded(c, frame, device, deps, ctx);
    AnomalyHasId();
    var k := ResolveCorrelation(ctx, deps.newId, device, NOTHING);
    var h := Header(Reg.EPOCH, ANOMALY_ID, 0, k.deviceRef, k.seqNo, k.uptime);
    var region := PrintBody(c, None, Json(c.unknown(IsCommand(frame.header), frame.header.typeId, frame.header.epoch)));
    if InRange(h) && region.Some? {
      HeaderRoundTrip(h, region.value);
    }
  }

  /** Of all frames that read, exactly the canonical ones of a known type are rebuilt byte for byte. */
  lemma RebuiltIff<J>(c: Carrier<J>, b: seq<Byte>, frame: Frame<J>, device: string, deps: Deps, ctx: Context)
    requires ReadFrame(c, b) == Some(frame) && InRange(frame.header) && StillSeen(ctx, deps.newId, frame.header)
    ensures EncodeEnvelope(c, EnvelopeOf(c, frame, device, deps), ctx, NOTHING) == Some(b)
            <==> KnownType(frame.header) && CanonicalFrame(c, b)
  {
    hide EncodeEnvelope, EnvelopeOf, CanonicalFrame, KnownType, StillSeen, ReadFrame;
    if KnownType(frame.header) {
      KnownRebuiltIff(c, b, frame, device, deps, ctx);
    } else {
      UnknownNotRebuilt(c, b, frame, device, deps, ctx);
    }
  }

  /** Current-epoch frames of conforming devices are canonical. */
  lemma SentIsCanonical<J(!new)>(c: Carrier<J>, h: Header, body: Body<J>)
    requires Lossless(c) && InRange(h) && h.epoch == Reg.EPOCH && h.flags <= 1 && Sendable(FormatOfFrame(h), body)
    requires WriteFrame(c, h, FormatOfFrame(h), body).Some?
    ensures CanonicalFrame(c, WriteFrame(c, h, FormatOfFrame(h), body).value)
  {
    hide PrintBody, ParseBody, Sendable, Lossless, ReadHeader, HeaderBytes, FormatFor;
    BodyRoundTrip(c, FormatOfFrame(h), body);
    HeaderRoundTrip(h, PrintBody(c, FormatOfFrame(h), body).value);
  }

  // ---------- runs ----------

  datatype Arrival = Arrival(bytes: seq<Byte>, deps: Deps)

  /** The context after a run of arrivals; frames that do not read leave no trace. */
  function After<J>(c: Carrier<J>, ctx: Context, arrivals: seq<Arrival>): Context {
    if arrivals == [] then ctx
    else
      var before := After(c, ctx, arrivals[..|arrivals| - 1]);
      var last := arrivals[|arrivals| - 1];
      var r := DecodeFrame(c, last.bytes, before, last.deps);
      if r.None? then before else r.value.1
  }

  ghost predicate DistinctIds(arrivals: seq<Arrival>) {
    forall i, j :: 0 <= i < j < |arrivals| ==> arrivals[i].deps.newId != arrivals[j].deps.newId
  }

  lemma {:induction false} MapsStayInverse<J>(c: Carrier<J>, ctx: Context, arrivals: seq<Arrival>)
    requires MutuallyInverse(ctx) && AllSynthetic(ctx)
    ensures MutuallyInverse(After(c, ctx, arrivals)) && AllSynthetic(After(c, ctx, arrivals))
    decreases |arrivals|
  {
    hide ReadFrame, EnvelopeOf, SyntheticDeviceId;
    if arrivals == [] {
    } else {
      var front, last := arrivals[..|arrivals| - 1], arrivals[|arrivals| - 1];
      MapsStayInverse(c, ctx, front);
      var frame := ReadFrame(c, last.bytes);
      if frame.Some? {
        var before := After(c, ctx, front);
        ResolveKeepsSynthetic(before, frame.value.header.deviceRef);
        SeenIsApart(Resolve(before, frame.value.header.deviceRef).1, last.deps.newId, frame.value.header);
      }
    }
  }

  /** Correlations are kept apart from the device maps. */
  lemma SeenIsApart(ctx: Context, id: string, h: Header)
    requires MutuallyInverse(ctx) && AllSynthetic(ctx)
    ensures MutuallyInverse(Remember(ctx, id, h)) && AllSynthetic(Remember(ctx, id, h))
  {
  }

  /** Later decodes under other identifiers leave a correlation alone. */
  lemma {:induction false} StaysSeen<J>(c: Carrier<J>, ctx: Context, arrivals: seq<Arrival>, k: nat)
    requires k < |arrivals| && DistinctIds(arrivals) && ReadFrame(c, arrivals[k].bytes).Some?
    ensures StillSeen(After(c, ctx, arrivals), arrivals[k].deps.newId, ReadFrame(c, arrivals[k].bytes).value.header)
    decreases |arrivals|
  {
    hide ReadFrame, EnvelopeOf, SyntheticDeviceId;
    var front, last := arrivals[..|arrivals| - 1], arrivals[|arrivals| - 1];
    if k < |front| {
      assert front[k] == arrivals[k];
      StaysSeen(c, ctx, front, k);
    }
  }

  /** The envelope the k-th arrival was published as. */
  function Published<J>(c: Carrier<J>, ctx: Context, arrivals: seq<Arrival>, k: nat): Option<Envelope<J>>
    requires k < |arrivals|
  {
    var r := DecodeFrame(c, arrivals[k].bytes, After(c, ctx, arrivals[..k]), arrivals[k].deps);
    if r.None? then None else Some(r.value.0)
  }

  /**
   * After any run of decodes under distinct fresh identifiers, every earlier frame that read is rebuilt byte for byte
   * from its envelope exactly when it is canonical and of a known type, and the device maps are mutually inverse.
   */
  lemma AnyEarlierFrameIsRebuilt<J>(c: Carrier<J>, arrivals: seq<Arrival>, k: nat)
    requires k < |arrivals| && DistinctIds(arrivals) && ReadFrame(c, arrivals[k].bytes).Some?
    ensures var ctx := After(c, NewContext(), arrivals);
            var env := Published(c, NewContext(), arrivals, k);
            && MutuallyInverse(ctx) && env.Some?
            && (EncodeEnvelope(c, env.value, ctx, NOTHING) == Some(arrivals[k].bytes)
                <==> KnownType(ReadHeader(arrivals[k].bytes)) && CanonicalFrame(c, arrivals[k].bytes))
  {
    hide ReadFrame, EncodeEnvelope, EnvelopeOf, SyntheticDeviceId, CanonicalFrame, StillSeen, KnownType;
    MapsStayInverse(c, NewContext(), arrivals);
    StaysSeen(c, NewContext(), arrivals, k);
    var b := arrivals[k].bytes;
    var frame := ReadFrame(c, b).value;
    var device := Resolve(After(c, NewContext(), arrivals[..k]), frame.header.deviceRef).0;
    RebuiltIff(c, b, frame, device, arrivals[k].deps, After(c, NewContext(), arrivals));
  }

  // ---------- the bridge as it runs ----------

  /** One bridge's correlation maps, updated by each decode. */
  class BridgeContext {
    var refToId: map<int, string>
    var idToRef: map<string, int>
    var seen: map<string, Correlation>

    function Value(): Context
      reads this
    {
      Context(refToId, idToRef, seen)
    }

    constructor ()
      ensures Value() == NewContext()
    {
      refToId, idToRef, seen := map[], map[], map[];
    }

    method ResolveDeviceId(deviceRef: int) returns (device: string)
      requires 0 <= deviceRef < 0x1_0000_0000
      modifies this
      ensures (device, Value()) == Resolve(old(Value()), deviceRef)
    {
      if deviceRef in refToId {
        return refToId[deviceRef];
      }
      device := SyntheticDeviceId(deviceRef);
      refToId := refToId[deviceRef := device];
      idToRef := idToRef[device := deviceRef];
    }

    method RememberCorrelation(id: string, h: Header)
      modifies this
      ensures Value() == Remember(old(Value()), id, h)
    {
      seen := seen[id := Correlation(h.deviceRef, h.seqNo, h.uptime)];
    }

    method Expand<J>(c: Carrier<J>, b: seq<Byte>, deps: Deps) returns (r: Option<Envelope<J>>)
      modifies this
      ensures match DecodeFrame(c, b, old(Value()), deps)
              case None => r == None && Value() == old(Value())
              case Some(out) => r == Some(out.0) && Value() == out.1
    {
      hide ReadFrame, EnvelopeOf, SyntheticDeviceId;
      var frame := ReadFrame(c, b);
      if frame.None? {
        return None;
      }
      var device := ResolveDeviceId(frame.value.header.deviceRef);
      RememberCorrelation(deps.newId, frame.value.header);
      return Some(EnvelopeOf(c, frame.value, device, deps));
    }

    method Compact<J(==)>(c: Carrier<J>, env: Envelope<J>, o: Overrides) returns (r: Option<seq<Byte>>)
      ensures r == EncodeEnvelope(c, env, Value(), o)
    {
      hide PrintBody, HeaderBytes, ResolveCorrelation, InRange;
      var k := ResolveCorrelation(Value(), env.id, env.device, o);
      var epoch := First(o.epoch, None, Reg.EPOCH);
      match env
      case EventEnvelope(_, _, event, _, _, body) =>
        var typeId := Reg.EventTypeToId(event);
        if typeId.None? {
          return None;
        }
        r := FillFrame(c, Header(epoch, typeId.value, 0, k.deviceRef, k.seqNo, k.uptime), EventFormat(event), body);
      case CommandEnvelope(_, _, command, _, _, body) =>
        var typeId := Reg.CommandTypeToId(command);
        if typeId.None? {
          return None;
        }
        r := FillFrame(c, Header(epoch, typeId.value, FLAG_IS_COMMAND, k.deviceRef, k.seqNo, k.uptime),
                       CommandFormat(command), body);
    }
  }

  /** Fills a frame buffer field by field. */
  method FillFrame<J(==)>(c: Carrier<J>, h: Header, format: Option<Format>,
                          body: Body<J>) returns (r: Option<seq<Byte>>)
    ensures r == WriteFrame(c, h, format, body)
  {
    hide PrintBody;
    if !InRange(h) {
      return None;
    }
    var region := PrintBody(c, format, body);
    if region.None? || |region.value| > MAX_PAYLOAD_BYTES {
      return None;
    }
    var frame := new Byte[HEADER_BYTES + |region.value|];
    frame[0], frame[1], frame[2] := h.epoch, h.typeId, h.flags;
    assert frame[..3] == [h.epoch, h.typeId, h.flags];
    SetUint32(frame, 3, h.deviceRef);
    SetUint16(frame, 7, h.seqNo);
    SetUint32(frame, 9, h.uptime);
    assert frame[..HEADER_BYTES] == HeaderBytes(h);
    TcfBytes.CopyInto(frame, HEADER_BYTES, region.value);
    assert frame[..] == HeaderBytes(h) + region.value;
    return Some(frame[..]);
  }

  method SetUint16(frame: array<Byte>, at: nat, value: int)
    requires at + 2 <= frame.Length && 0 <= value < 0x1_0000
    modifies frame
    ensures frame[..at + 2] == old(frame[..at]) + U16(value)
  {
    ghost var before := frame[..at];
    frame[at], frame[at + 1] := value / 0x100, value % 0x100;
    assert frame[..at + 2] == before + U16(value);
  }

  method SetUint32(frame: array<Byte>, at: nat, value: int)
    requires at + 4 <= frame.Length && 0 <= value < 0x1_0000_0000
    modifies frame
    ensures frame[..at + 4] == old(frame[..at]) + U32(value)
  {
    SetUint16(frame, at, value / 0x1_0000);
    SetUint16(frame, at + 2, value % 0x1_0000);
  }
}
