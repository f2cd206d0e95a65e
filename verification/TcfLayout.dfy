/** Where every field of a frame lies, which address a frame carries, and when an envelope has no frame at all. */
module TcfLayout {
  import opened Rail
  import opened TcfText
  import opened TcfPayloads
  import opened TcfFrames
  import opened TcfBridge
  import Reg = TcfRegistry

  // ---------- bytes ----------

  /** The number some bytes stand for, the first byte counting most. */
  function BigEndian(b: seq<Byte>): nat {
    if b == [] then 0
    else
      var last: nat := b[|b| - 1];
      0x100 * BigEndian(b[..|b| - 1]) + last
  }

  lemma Big16(b: seq<Byte>)
    requires |b| == 2
    ensures BigEndian(b) == Read16(b)
  {
    assert b[..1][..0] == [] && b[..1][0] == b[0];
    assert BigEndian(b[..1]) == 0x100 * BigEndian(b[..1][..0]) + b[0];
  }

  lemma Big32(b: seq<Byte>)
    requires |b| == 4
    ensures BigEndian(b) == Read32(b)
  {
    Big16(b[..2]);
    Big16(b[2..]);
    assert b[..3][..2] == b[..2] && b[..3][2] == b[2];
    assert BigEndian(b[..3]) == 0x100 * BigEndian(b[..2]) + b[2];
    assert BigEndian(b) == 0x100 * BigEndian(b[..3]) + b[3];
  }

  /** Byte k of an identifier is its digits 2k and 2k + 1, dashes not counted. */
  lemma {:induction false} HexAt(hex: string, k: nat)
    requires AllHex(hex) && 2 * k + 1 < |hex|
    ensures BytesOf(hex)[k] == 16 * ValueOf(hex[2 * k]).value + ValueOf(hex[2 * k + 1]).value
  {
    if k == 0 {
    } else {
      HexAt(hex[2..], k - 1);
    }
  }

  /** The value of a digit of either case. */
  lemma DigitValues(c: char, v: nat)
    ensures ValueOf(c) == Some(v)
            <==> v < 16 && (c == "0123456789abcdef"[v] || (v >= 10 && c == "ABCDEF"[v - 10]))
  {
  }

  /** The bytes are the identifier's, digit for digit. */
  ghost predicate Spells(uuid: string, b: seq<Byte>) {
    var hex := Undashed(uuid);
    && |b| == 16 && |hex| == 32 && AllHex(hex)
    && forall k :: 0 <= k < 16 ==> b[k] == 16 * ValueOf(hex[2 * k]).value + ValueOf(hex[2 * k + 1]).value
  }

  lemma PackSpells(uuid: string, b: seq<Byte>)
    ensures Pack(uuid) == Some(b) <==> Spells(uuid, b)
  {
    hide ValueOf, Undashed;
    var hex := Undashed(uuid);
    if |hex| == 32 && AllHex(hex) {
      forall k | 0 <= k < 16 ensures BytesOf(hex)[k] == 16 * ValueOf(hex[2 * k]).value + ValueOf(hex[2 * k + 1]).value {
        HexAt(hex, k);
      }
      if Spells(uuid, b) {
        assert BytesOf(hex) == b;
      }
    }
  }

  // ---------- payloads ----------

  /** Two identifiers one after the other, the edge's beginning first. */
  ghost predicate SpellsEdge(e: Edge, b: seq<Byte>) {
    |b| == 32 && Spells(e.from, b[..16]) && Spells(e.to, b[16..])
  }

  lemma EdgeSpells(e: Edge, b: seq<Byte>)
    ensures PackEdge(e) == Some(b) <==> SpellsEdge(e, b)
  {
    hide Spells, Pack;
    if |b| == 32 {
      PackSpells(e.from, b[..16]);
      PackSpells(e.to, b[16..]);
      assert b == b[..16] + b[16..];
    }
    if PackEdge(e) == Some(b) {
      assert b[..16] == Pack(e.from).value && b[16..] == Pack(e.to).value;
    }
  }

  /** Edge after edge. */
  ghost predicate SpellsEdges(es: seq<Edge>, b: seq<Byte>) {
    |b| == 32 * |es| && forall k :: 0 <= k < |es| ==> SpellsEdge(es[k], b[32 * k..32 * k + 32])
  }

  lemma {:induction false} EdgesSpell(es: seq<Edge>, b: seq<Byte>)
    requires PackEdges(es) == Some(b)
    ensures SpellsEdges(es, b)
  {
    hide SpellsEdge, PackEdge;
    if es == [] {
    } else {
      var rest := PackEdges(es[1..]).value;
      EdgesSpell(es[1..], rest);
      EdgeSpells(es[0], b[..32]);
      assert b[..32] == PackEdge(es[0]).value && b[32..] == rest;
      forall k | 0 <= k < |es| ensures SpellsEdge(es[k], b[32 * k..32 * k + 32]) {
        if k > 0 {
          assert es[k] == es[1..][k - 1];
          assert b[32 * k..32 * k + 32] == rest[32 * (k - 1)..32 * (k - 1) + 32];
        }
      }
    }
  }

  /** Every packed payload, field by field. */
  ghost predicate LaidOut(p: Payload, b: seq<Byte>) {
    match p
    case MarkerTraversed(train, marker, direction, discovering, inferred) =>
      && |b| == (if inferred.Some? then 67 else 35)
      && Spells(train, b[..16]) && Spells(marker, b[16..32])
      && direction in {"forward", "reverse"} && (b[32] == if direction == "reverse" then 1 else 0)
      && (b[33] == if discovering then 1 else 0) && (b[34] == if inferred.Some? then 1 else 0)
      && (inferred.Some? ==> SpellsEdge(inferred.value, b[35..]))
    case ClearanceRequest(train, limit, next) =>
      |b| == 64 && Spells(train, b[..16]) && Spells(limit, b[16..32]) && SpellsEdge(next, b[32..])
    case ClearanceGranted(train, limit, edges) =>
      && |b| == 33 + 32 * |edges| && Spells(train, b[..16]) && Spells(limit, b[16..32])
      && b[32] == |edges| && SpellsEdges(edges, b[33..])
    case GrantClearance(limit, reason) =>
      && |b| >= 17 && Spells(limit, b[..16]) && (b[16] == if reason.Some? then 1 else 0)
      && (reason.None? ==> |b| == 17)
      && (reason.Some? ==> |b| >= 18 && b[17] == |b| - 18 && b[18..] == Utf8(reason.value))
  }

  lemma TraversedLaidOut(p: Payload, b: seq<Byte>)
    requires p.MarkerTraversed? && Encode(p) == Some(b)
    ensures LaidOut(p, b)
  {
    hide Pack, Spells, PackEdge, SpellsEdge;
    PackSpells(p.train, b[..16]);
    PackSpells(p.marker, b[16..32]);
    assert b[..16] == Pack(p.train).value && b[16..32] == Pack(p.marker).value;
    if p.inferred.Some? {
      EdgeSpells(p.inferred.value, b[35..]);
      assert b[35..] == PackEdge(p.inferred.value).value;
    }
  }

  lemma RequestLaidOut(p: Payload, b: seq<Byte>)
    requires p.ClearanceRequest? && Encode(p) == Some(b)
    ensures LaidOut(p, b)
  {
    hide Pack, Spells, PackEdge, SpellsEdge;
    PackSpells(p.train, b[..16]);
    PackSpells(p.limit, b[16..32]);
    EdgeSpells(p.next, b[32..]);
    assert b[..16] == Pack(p.train).value && b[16..32] == Pack(p.limit).value && b[32..] == PackEdge(p.next).value;
  }

  lemma GrantedLaidOut(p: Payload, b: seq<Byte>)
    requires p.ClearanceGranted? && Encode(p) == Some(b)
    ensures LaidOut(p, b)
  {
    hide Pack, Spells, PackEdges, SpellsEdges;
    PackSpells(p.train, b[..16]);
    PackSpells(p.limit, b[16..32]);
    EdgesSpell(p.edges, PackEdges(p.edges).value);
    assert b[..16] == Pack(p.train).value && b[16..32] == Pack(p.limit).value && b[33..] == PackEdges(p.edges).value;
  }

  lemma GrantLaidOut(p: Payload, b: seq<Byte>)
    requires p.GrantClearance? && Encode(p) == Some(b)
    ensures LaidOut(p, b)
  {
    hide Pack, Spells, Utf8;
    PackSpells(p.limit, b[..16]);
    assert b[..16] == Pack(p.limit).value;
    if p.reason.Some? {
      assert b[18..] == Utf8(p.reason.value);
    }
  }

  /** Whatever is packed lies where the layout says. */
  lemma PayloadLaidOut(p: Payload, b: seq<Byte>)
    requires Encode(p) == Some(b)
    ensures LaidOut(p, b)
  {
    hide Encode, LaidOut;
    match p
    case MarkerTraversed(_, _, _, _, _) => TraversedLaidOut(p, b);
    case ClearanceRequest(_, _, _) => RequestLaidOut(p, b);
    case ClearanceGranted(_, _, _) => GrantedLaidOut(p, b);
    case GrantClearance(_, _) => GrantLaidOut(p, b);
  }

  /** Every packed payload as it is read: a flag is set by one and by nothing else. */
  ghost predicate ReadOff(p: Payload, b: seq<Byte>) {
    match p
    case MarkerTraversed(train, marker, direction, discovering, inferred) =>
      && |b| == (if inferred.Some? then 67 else 35)
      && Spells(train, b[..16]) && Spells(marker, b[16..32])
      && (if b[32] == 0 then direction == "forward" else b[32] == 1 && direction == "reverse")
      && (discovering <==> b[33] == 1) && (inferred.Some? <==> b[34] == 1)
      && (inferred.Some? ==> SpellsEdge(inferred.value, b[35..]))
    case ClearanceRequest(train, limit, next) =>
      |b| == 64 && Spells(train, b[..16]) && Spells(limit, b[16..32]) && SpellsEdge(next, b[32..])
    case ClearanceGranted(train, limit, edges) =>
      && |b| == 33 + 32 * |edges| && Spells(train, b[..16]) && Spells(limit, b[16..32])
      && b[32] == |edges| && SpellsEdges(edges, b[33..])
    case GrantClearance(limit, reason) =>
      && |b| >= 17 && Spells(limit, b[..16]) && (reason.Some? <==> b[16] == 1)
      && (reason.None? ==> |b| == 17)
      && (reason.Some? ==> |b| >= 18 && b[17] == |b| - 18 && DecodeText(b[18..]) == reason)
  }

  lemma UnpackSpells(b: seq<Byte>)
    requires |b| == 16
    ensures Spells(Unpack(b), b)
  {
    hide Spells, Unpack, Pack, Canonical;
    UnpackRoundTrip(b);
    PackSpells(Unpack(b), b);
  }

  lemma UnpackEdgeSpells(b: seq<Byte>)
    requires |b| == 32
    ensures SpellsEdge(UnpackEdge(b), b)
  {
    hide Spells, Unpack;
    UnpackSpells(b[..16]);
    UnpackSpells(b[16..]);
  }

  lemma {:induction false} UnpackEdgesSpell(b: seq<Byte>, n: nat)
    requires |b| == 32 * n
    ensures SpellsEdges(UnpackEdges(b, n), b)
    decreases n
  {
    hide SpellsEdge, UnpackEdge;
    if n == 0 {
    } else {
      UnpackEdgesSpell(b[32..], n - 1);
      UnpackEdgeSpells(b[..32]);
      var es := UnpackEdges(b, n);
      forall k | 0 <= k < n ensures SpellsEdge(es[k], b[32 * k..32 * k + 32]) {
        if k > 0 {
          assert es[k] == UnpackEdges(b[32..], n - 1)[k - 1];
          assert b[32 * k..32 * k + 32] == b[32..][32 * (k - 1)..32 * (k - 1) + 32];
        }
      }
    }
  }

  /** Whatever parses is read off where the layout says. */
  lemma PayloadReadOff(f: Format, b: seq<Byte>, p: Payload)
    requires Decode(f, b) == Some(p)
    ensures FormatOf(p) == f && ReadOff(p, b)
  {
    hide Spells, SpellsEdge, SpellsEdges, Unpack, UnpackEdge, UnpackEdges, DecodeText;
    if |b| >= 16 {
      UnpackSpells(b[..16]);
    }
    if |b| >= 32 {
      UnpackSpells(b[16..32]);
    }
    if |b| == 64 {
      UnpackEdgeSpells(b[32..]);
    }
    if |b| == 67 {
      UnpackEdgeSpells(b[35..]);
    }
    if |b| >= 33 && |b| == 33 + 32 * (b[32] as nat) {
      UnpackEdgesSpell(b[33..], b[32]);
    }
  }

  // ---------- frames ----------

  /** The field is what the caller overrides it with, else what was remembered, else the fallback. */
  predicate FieldIs(value: int, forced: Option<int>, remembered: Option<int>, fallback: int) {
    && (forced.Some? ==> value == forced.value)
    && (forced.None? && remembered.Some? ==> value == remembered.value)
    && (forced.None? && remembered.None? ==> value == fallback)
  }

  /** Thirteen header bytes: epoch, type, command flag, device reference, sequence number and uptime. */
  ghost predicate Addressed<J>(env: Envelope<J>, ctx: Context, o: Overrides, b: seq<Byte>) {
    var seen := if env.id in ctx.seen then Some(ctx.seen[env.id]) else None;
    && 13 <= |b| <= 250
    && FieldIs(b[0], o.epoch, None, 5)
    && (b[2] == if env.CommandEnvelope? then 1 else 0)
    && FieldIs(BigEndian(b[3..7]), o.deviceRef, if seen.Some? then Some(seen.value.deviceRef) else None,
               if env.device in ctx.idToRef then ctx.idToRef[env.device] else 0)
    && FieldIs(BigEndian(b[7..9]), o.seqNo, if seen.Some? then Some(seen.value.seqNo) else None, 0)
    && FieldIs(BigEndian(b[9..13]), o.uptime, if seen.Some? then Some(seen.value.uptime) else None, 0)
  }

  lemma HeaderAt(h: Header, region: seq<Byte>)
    requires InRange(h)
    ensures var b := HeaderBytes(h) + region;
            && b[0] == h.epoch && b[1] == h.typeId && b[2] == h.flags && BigEndian(b[3..7]) == h.deviceRef
            && BigEndian(b[7..9]) == h.seqNo && BigEndian(b[9..13]) == h.uptime && b[13..] == region
  {
    hide U16, U32, Read16, Read32, BigEndian;
    var b := HeaderBytes(h) + region;
    Read32RoundTrip(h.deviceRef);
    Read16RoundTrip(h.seqNo);
    Read32RoundTrip(h.uptime);
    assert b[3..7] == U32(h.deviceRef) && b[7..9] == U16(h.seqNo) && b[9..13] == U32(h.uptime);
    Big32(b[3..7]);
    Big16(b[7..9]);
    Big32(b[9..13]);
  }

  /** Every frame written for an envelope is addressed so, whatever was decoded before and whatever is overridden. */
  lemma WrittenAddressed<J>(c: Carrier<J>, env: Envelope<J>, ctx: Context, o: Overrides, b: seq<Byte>)
    requires EncodeEnvelope(c, env, ctx, o) == Some(b)
    ensures Addressed(env, ctx, o, b)
    ensures Some(b[1] as nat) == if env.EventEnvelope? then EventNumber(env.event) else CommandNumber(env.command)
  {
    hide PrintBody, HeaderBytes, BigEndian, Reg.IdToEventType, Reg.IdToCommandType, Reg.EventTypeToId,
      Reg.CommandTypeToId;
    var k := ResolveCorrelation(ctx, env.id, env.device, o);
    var epoch := First(o.epoch, None, Reg.EPOCH);
    match env
    case EventEnvelope(_, _, event, _, _, body) =>
      var typeId := Reg.EventTypeToId(event).value;
      HeaderAt(Header(epoch, typeId, 0, k.deviceRef, k.seqNo, k.uptime), PrintBody(c, EventFormat(event), body).value);
      EventNumbers(event);
    case CommandEnvelope(_, _, command, _, _, body) =>
      var typeId := Reg.CommandTypeToId(command).value;
      HeaderAt(Header(epoch, typeId, 1, k.deviceRef, k.seqNo, k.uptime),
               PrintBody(c, CommandFormat(command), body).value);
      CommandNumbers(command);
  }

  /** A new envelope for a device heard of before goes to that device's reference, unnumbered and unstamped. */
  lemma NewEnvelopeAddressed<J>(c: Carrier<J>, env: Envelope<J>, ctx: Context, b: seq<Byte>)
    requires EncodeEnvelope(c, env, ctx, NOTHING) == Some(b) && env.id !in ctx.seen && env.device in ctx.idToRef
    ensures |b| >= 13 && ReadHeader(b).deviceRef == ctx.idToRef[env.device]
    ensures ReadHeader(b).seqNo == 0 && ReadHeader(b).uptime == 0
  {
    hide EncodeEnvelope, BigEndian, Read16, Read32;
    WrittenAddressed(c, env, ctx, NOTHING, b);
    Big32(b[3..7]);
    Big16(b[7..9]);
    Big32(b[9..13]);
  }

  // ---------- decoding ----------

  /** The envelope under a new identifier, with the time and version given, and the device's own identifier. */
  ghost predicate Labelled<J>(env: Envelope<J>, device: string, deps: Deps) {
    env.id == deps.newId && env.device == device && env.stamp == deps.now && env.version == deps.version
  }

  /**
   * What a frame is published as: the type of its number, for the direction its first flag bit says, with its body; or
   * an anomaly that reports direction, number and epoch when no such type is listed.
   */
  ghost predicate Reads<J>(c: Carrier<J>, b: seq<Byte>, env: Envelope<J>) {
    && |b| >= 13
    && var body := ParseBody(c, FormatFor(b[1], b[2] % 2 == 1), b[13..]);
    && body.Some?
    && (if b[2] % 2 == 1 then
          if b[1] < 12
          then env.CommandEnvelope? && CommandNumber(env.command) == Some(b[1] as nat) && env.body == body.value
          else env.EventEnvelope? && env.event == Reg.Anomaly && env.body == Json(c.unknown(true, b[1], b[0]))
        else if b[1] < 17
        then env.EventEnvelope? && EventNumber(env.event) == Some(b[1] as nat) && env.body == body.value
        else env.EventEnvelope? && env.event == Reg.Anomaly && env.body == Json(c.unknown(false, b[1], b[0])))
  }

  lemma HeaderFields(b: seq<Byte>)
    requires |b| >= 13
    ensures ReadHeader(b) == Header(b[0], b[1], b[2], BigEndian(b[3..7]), BigEndian(b[7..9]), BigEndian(b[9..13]))
  {
    hide Read16, Read32, BigEndian;
    Big32(b[3..7]);
    Big16(b[7..9]);
    Big32(b[9..13]);
  }

  lemma NumberedEvent(id: nat)
    ensures Reg.IdToEventType(id).Some? <==> id < 17
    ensures id < 17 ==> EventNumber(Reg.IdToEventType(id).value) == Some(id)
  {
    hide Reg.IndexOf;
    if id < 17 {
      EventNumbers(Reg.IdToEventType(id).value);
      Reg.EventIds(Reg.IdToEventType(id).value, id);
    }
  }

  lemma NumberedCommand(id: nat)
    ensures Reg.IdToCommandType(id).Some? <==> id < 12
    ensures id < 12 ==> CommandNumber(Reg.IdToCommandType(id).value) == Some(id)
  {
    hide Reg.IndexOf;
    if id < 12 {
      CommandNumbers(Reg.IdToCommandType(id).value);
      Reg.CommandIds(Reg.IdToCommandType(id).value, id);
    }
  }

  /** A decode publishes what the bytes say, and remembers what it takes to answer: who sent it, its number and time. */
  lemma DecodeReads<J>(c: Carrier<J>, b: seq<Byte>, ctx: Context, deps: Deps, env: Envelope<J>, ctx': Context)
    requires DecodeFrame(c, b, ctx, deps) == Some((env, ctx'))
    ensures Reads(c, b, env)
    ensures var r := BigEndian(b[3..7]);
            && 0 <= r < 0x1_0000_0000
            && Labelled(env, if r in ctx.refToId then ctx.refToId[r] else SyntheticDeviceId(r), deps)
            && r in ctx'.refToId && ctx'.refToId[r] == env.device
            && ctx'.seen == ctx.seen[deps.newId := Correlation(r, BigEndian(b[7..9]), BigEndian(b[9..13]))]
            && (r !in ctx.refToId ==> env.device in ctx'.idToRef && ctx'.idToRef[env.device] == r)
            && (r in ctx.refToId ==> ctx'.refToId == ctx.refToId && ctx'.idToRef == ctx.idToRef)
  {
    hide ParseBody, FormatFor, SyntheticDeviceId, ReadHeader, BigEndian, Reg.IdToEventType, Reg.IdToCommandType;
    HeaderFields(b);
    NumberedEvent(b[1]);
    NumberedCommand(b[1]);
  }

  // ---------- synthetic identifiers ----------

  lemma {:induction false} HexAppend(a: seq<Byte>, b: seq<Byte>)
    ensures HexOf(a + b) == HexOf(a) + HexOf(b)
  {
    if a == [] {
      assert a + b == b;
    } else {
      assert (a + b)[0] == a[0] && (a + b)[1..] == a[1..] + b;
      HexAppend(a[1..], b);
    }
  }

  lemma {:induction false} ZeroDigits(n: nat)
    ensures HexOf(seq(n, _ => 0)) == seq(2 * n, _ => '0')
  {
    if n == 0 {
    } else {
      var zeros := seq(n, _ => 0);
      assert zeros[1..] == seq(n - 1, _ => 0);
      ZeroDigits(n - 1);
      assert DigitOf(0) == '0';
      assert seq(2 * n, _ => '0') == ['0', '0'] + seq(2 * (n - 1), _ => '0');
    }
  }

  lemma ByteDigits(b: Byte)
    ensures HexOf([b]) == [DigitOf(b / 16), DigitOf(b % 16)]
  {
    assert HexOf([b]) == [DigitOf(b / 16), DigitOf(b % 16)] + HexOf([b][1..]);
  }

  /** All zeros but for the version and the variant. */
  function Head(): seq<Byte> { seq(6, _ => 0) + [0x40] + [0] + [0x80] + seq(3, _ => 0) }

  lemma HeadDigits(tail: seq<Byte>)
    ensures HexOf(Head() + tail) == "000000000000400080000000" + HexOf(tail)
  {
    hide HexOf;
    var a, b, c, d, e := seq(6, _ => 0), [0x40], [0], [0x80], seq(3, _ => 0);
    ZeroDigits(6);
    ZeroDigits(3);
    ByteDigits(0x40);
    ByteDigits(0);
    ByteDigits(0x80);
    HexAppend(a + b + c + d + e, tail);
    HexAppend(a + b + c + d, e);
    HexAppend(a + b + c, d);
    HexAppend(a + b, c);
    HexAppend(a, b);
    assert seq(12, _ => '0') + "40" + "00" + "80" + seq(6, _ => '0') == "000000000000400080000000";
  }

  lemma Grouped(rest: string)
    requires |rest| == 8
    ensures Dashed("000000000000400080000000" + rest) == "00000000-0000-4000-8000-0000" + rest
  {
    var h := "000000000000400080000000" + rest;
    assert h[..8] == "00000000";
    assert h[8..12] == "0000";
    assert h[12..16] == "4000";
    assert h[16..20] == "8000";
    assert h[20..] == "0000" + rest;
  }

  /** A device unheard of is named after its reference: a version-4 identifier that is all zeros before it. */
  lemma SyntheticIs(r: int)
    requires 0 <= r < 0x1_0000_0000
    ensures |Head() + U32(r)| == 16 && SyntheticDeviceId(r) == Unpack(Head() + U32(r)) && BigEndian(U32(r)) == r
  {
    hide U32, BytesOf, BigEndian, HexOf, Dashed;
    Big32(U32(r));
    Read32RoundTrip(r);
    HeadDigits(U32(r));
    Grouped(HexOf(U32(r)));
  }

  // ---------- after any run of decodes ----------

  /** A device once heard of keeps its reference. */
  lemma {:induction false} StaysKnown<J>(c: Carrier<J>, arrivals: seq<Arrival>, k: nat)
    requires k < |arrivals| && ReadFrame(c, arrivals[k].bytes).Some?
    ensures ReadHeader(arrivals[k].bytes).deviceRef in After(c, NewContext(), arrivals).refToId
    decreases |arrivals|
  {
    hide ReadFrame, EnvelopeOf, SyntheticDeviceId, ReadHeader;
    var front, last := arrivals[..|arrivals| - 1], arrivals[|arrivals| - 1];
    if k < |front| {
      assert front[k] == arrivals[k];
      StaysKnown(c, front, k);
    }
  }

  lemma DeviceOfRef<J>(c: Carrier<J>, arrivals: seq<Arrival>, r: int)
    requires r in After(c, NewContext(), arrivals).refToId
    ensures var ctx := After(c, NewContext(), arrivals);
            0 <= r < 0x1_0000_0000 && SyntheticDeviceId(r) in ctx.idToRef && ctx.idToRef[SyntheticDeviceId(r)] == r
  {
    hide After, SyntheticDeviceId;
    MapsStayInverse(c, NewContext(), arrivals);
  }

  lemma PublishedDevice<J>(c: Carrier<J>, arrivals: seq<Arrival>, k: nat)
    requires k < |arrivals| && ReadFrame(c, arrivals[k].bytes).Some?
    ensures var env := Published(c, NewContext(), arrivals, k);
            env.Some? && env.value.device == SyntheticDeviceId(ReadHeader(arrivals[k].bytes).deviceRef)
  {
    hide ReadFrame, SyntheticDeviceId, ReadHeader, After;
    MapsStayInverse(c, NewContext(), arrivals[..k]);
  }

  lemma {:induction false} SeenIsArrived<J>(c: Carrier<J>, arrivals: seq<Arrival>, id: string)
    requires id in After(c, NewContext(), arrivals).seen
    ensures exists a <- arrivals :: a.deps.newId == id
    decreases |arrivals|
  {
    hide ReadFrame, EnvelopeOf, SyntheticDeviceId;
    if arrivals == [] {
    } else {
      var front, last := arrivals[..|arrivals| - 1], arrivals[|arrivals| - 1];
      if id in After(c, NewContext(), front).seen {
        SeenIsArrived(c, front, id);
        var a :| a in front && a.deps.newId == id;
        assert a in arrivals;
      } else {
        assert last in arrivals;
      }
    }
  }

  /**
   * After any run of decodes, an envelope under a new identifier for the device an earlier frame came from is written
   * to the reference that frame carried.
   */
  lemma AnswersReachTheSender<J>(c: Carrier<J>, arrivals: seq<Arrival>, k: nat, env: Envelope<J>, b: seq<Byte>)
    requires k < |arrivals| && ReadFrame(c, arrivals[k].bytes).Some?
    requires Published(c, NewContext(), arrivals, k).Some?
             && env.device == Published(c, NewContext(), arrivals, k).value.device
    requires forall a <- arrivals :: a.deps.newId != env.id
    requires EncodeEnvelope(c, env, After(c, NewContext(), arrivals), NOTHING) == Some(b)
    ensures |b| >= 13 && ReadHeader(b).deviceRef == ReadHeader(arrivals[k].bytes).deviceRef
    ensures ReadHeader(b).seqNo == 0 && ReadHeader(b).uptime == 0
  {
    hide ReadFrame, SyntheticDeviceId, ReadHeader, After, Published, EncodeEnvelope;
    var ctx := After(c, NewContext(), arrivals);
    PublishedDevice(c, arrivals, k);
    StaysKnown(c, arrivals, k);
    DeviceOfRef(c, arrivals, ReadHeader(arrivals[k].bytes).deviceRef);
    if env.id in ctx.seen {
      SeenIsArrived(c, arrivals, env.id);
    }
    NewEnvelopeAddressed(c, env, ctx, b);
  }

  // ---------- when there is no frame ----------

  /** The numbers that travel for the types with a payload layout of their own; all other types travel as JSON. */
  lemma PackedTypes(typeId: nat, isCommand: bool)
    ensures FormatFor(typeId, isCommand)
            == if isCommand then (if typeId == 1 then Some(Grant) else None)
               else if typeId == 2 then Some(Traversed)
               else if typeId == 5 then Some(Request)
               else if typeId == 6 then Some(Granted)
               else None
  {
  }

  function Region<J(==)>(c: Carrier<J>, env: Envelope<J>): Option<seq<Byte>> {
    PrintBody(c, if env.EventEnvelope? then EventFormat(env.event) else CommandFormat(env.command), env.body)
  }

  /** An envelope has a frame exactly when its type is listed, every header field fits, and so does the payload. */
  lemma NoFrameIff<J>(c: Carrier<J>, env: Envelope<J>, ctx: Context, o: Overrides)
    ensures var k := ResolveCorrelation(ctx, env.id, env.device, o);
            EncodeEnvelope(c, env, ctx, o).Some? <==>
              && (env.EventEnvelope? ==> !env.event.Unlisted?)
              && (env.CommandEnvelope? ==> !env.command.UnlistedCommand?)
              && (o.epoch.Some? ==> 0 <= o.epoch.value <= 255)
              && 0 <= k.deviceRef <= 4294967295 && 0 <= k.seqNo <= 65535 && 0 <= k.uptime <= 4294967295
              && Region(c, env).Some? && 13 + |Region(c, env).value| <= 250
  {
    hide PrintBody, HeaderBytes, ResolveCorrelation, Reg.EventTypeToId, Reg.CommandTypeToId;
    if env.EventEnvelope? {
      EventNumbers(env.event);
    } else {
      CommandNumbers(env.command);
    }
  }

  /** The numbers of the event types. */
  function EventNumber(t: Reg.EventType): Option<nat> {
    match t
    case DeviceRegistered => Some(0)
    case TagObserved => Some(1)
    case MarkerTraversed => Some(2)
    case VehicleIdentified => Some(3)
    case TrainStatus => Some(4)
    case ClearanceRequest => Some(5)
    case ClearanceGranted => Some(6)
    case ClearanceRevoked => Some(7)
    case GateStateChanged => Some(8)
    case SwitchStateChanged => Some(9)
    case AspectChanged => Some(10)
    case TagAssignment => Some(11)
    case Anomaly => Some(12)
    case TopologyViolation => Some(13)
    case ZoneStateChanged => Some(14)
    case TrainLengthChanged => Some(15)
    case ZoneTrainReleased => Some(16)
    case Unlisted(_) => None
  }

  lemma EventNumbers(t: Reg.EventType)
    ensures Reg.EventTypeToId(t) == EventNumber(t)
  {
    hide Reg.IndexOf;
    if t.Unlisted? {
      assert forall k :: 0 <= k < |Reg.EVENT_TYPE_ORDER| ==> Reg.EVENT_TYPE_ORDER[k] != t;
    } else {
      Reg.EventIds(t, EventNumber(t).value);
    }
  }

  /** The numbers of the command types. */
  function CommandNumber(t: Reg.CommandType): Option<nat> {
    match t
    case AssignRoute => Some(0)
    case GrantClearance => Some(1)
    case RevokeClearance => Some(2)
    case BeginExploration => Some(3)
    case SetTargetSpeed => Some(4)
    case EmergencyStop => Some(5)
    case SetSwitchPosition => Some(6)
    case SetAspect => Some(7)
    case HoldGate => Some(8)
    case ReleaseGate => Some(9)
    case AssignTag => Some(10)
    case GrantReverse => Some(11)
    case UnlistedCommand(_) => None
  }

  lemma CommandNumbers(t: Reg.CommandType)
    ensures Reg.CommandTypeToId(t) == CommandNumber(t)
  {
    hide Reg.IndexOf;
    if t.UnlistedCommand? {
      assert forall k :: 0 <= k < |Reg.COMMAND_TYPE_ORDER| ==> Reg.COMMAND_TYPE_ORDER[k] != t;
    } else {
      Reg.CommandIds(t, CommandNumber(t).value);
    }
  }
}
