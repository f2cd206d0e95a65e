/** The per-type payload codecs of the compact frame (ADR-021, section 4): what each prints, what each parses. */
module TcfPayloads {
  import opened Rail
  import opened TcfText

  const UUID_BYTES: nat := 16

  // ---------- hexadecimal ----------

  function DigitOf(n: nat): char
    requires n < 16
  {
    "0123456789abcdef"[n]
  }

  function ValueOf(c: char): (r: Option<nat>)
    ensures r.Some? ==> r.value < 16
  {
    if '0' <= c <= '9' then Some(c as int - '0' as int)
    else if 'a' <= c <= 'f' then Some(c as int - 'a' as int + 10)
    else if 'A' <= c <= 'F' then Some(c as int - 'A' as int + 10)
    else None
  }

  predicate IsLowerHex(c: char) { '0' <= c <= '9' || 'a' <= c <= 'f' }

  lemma DigitRoundTrip(n: nat)
    requires n < 16
    ensures ValueOf(DigitOf(n)) == Some(n) && IsLowerHex(DigitOf(n))
  {
  }

  lemma DigitBack(c: char)
    requires IsLowerHex(c)
    ensures ValueOf(c).Some? && DigitOf(ValueOf(c).value) == c
  {
  }

  function HexOf(bytes: seq<Byte>): (r: string)
    ensures |r| == 2 * |bytes|
  {
    if bytes == [] then "" else [DigitOf(bytes[0] / 16), DigitOf(bytes[0] % 16)] + HexOf(bytes[1..])
  }

  predicate AllHex(s: string) { forall c <- s :: ValueOf(c).Some? }

  function BytesOf(hex: string): (r: seq<Byte>)
    requires AllHex(hex)
    ensures |r| == |hex| / 2
  {
    if |hex| < 2 then [] else [16 * ValueOf(hex[0]).value + ValueOf(hex[1]).value] + BytesOf(hex[2..])
  }

  lemma {:induction false} HexIsLower(bytes: seq<Byte>)
    ensures forall c <- HexOf(bytes) :: IsLowerHex(c) && c != '-'
    ensures AllHex(HexOf(bytes))
  {
    if bytes == [] {
    } else {
      DigitRoundTrip(bytes[0] / 16);
      DigitRoundTrip(bytes[0] % 16);
      HexIsLower(bytes[1..]);
    }
  }

  lemma PairRoundTrip(b: Byte)
    ensures var high, low := ValueOf(DigitOf(b / 16)), ValueOf(DigitOf(b % 16));
            high.Some? && low.Some? && 16 * high.value + low.value == b
  {
    hide DigitOf, ValueOf;
    DigitRoundTrip(b / 16);
    DigitRoundTrip(b % 16);
  }

  lemma {:induction false} HexRoundTrip(bytes: seq<Byte>)
    ensures AllHex(HexOf(bytes)) && BytesOf(HexOf(bytes)) == bytes
  {
    hide DigitOf, ValueOf;
    HexIsLower(bytes);
    if bytes == [] {
    } else {
      PairRoundTrip(bytes[0]);
      HexRoundTrip(bytes[1..]);
      var hex := HexOf(bytes);
      assert hex[0] == DigitOf(bytes[0] / 16) && hex[1] == DigitOf(bytes[0] % 16) && hex[2..] == HexOf(bytes[1..]);
      assert BytesOf(hex) == [bytes[0]] + bytes[1..] == bytes;
    }
  }

  lemma {:induction false} HexBack(hex: string)
    requires (forall c <- hex :: IsLowerHex(c)) && |hex| % 2 == 0
    ensures AllHex(hex) && HexOf(BytesOf(hex)) == hex
  {
    forall c | c in hex ensures ValueOf(c).Some? {
      DigitBack(c);
    }
    if hex == "" {
    } else {
      DigitBack(hex[0]);
      DigitBack(hex[1]);
      HexBack(hex[2..]);
      assert hex == [hex[0], hex[1]] + hex[2..];
      var b := BytesOf(hex);
      assert b[0] / 16 == ValueOf(hex[0]).value && b[0] % 16 == ValueOf(hex[1]).value;
      assert b[1..] == BytesOf(hex[2..]);
    }
  }

  // ---------- UUIDs ----------

  function Undashed(s: string): string {
    if s == "" then "" else (if s[0] == '-' then "" else [s[0]]) + Undashed(s[1..])
  }

  /** Sixteen bytes, or nothing when the text is not 32 hexadecimal digits once dashes are dropped. */
  function Pack(uuid: string): (r: Option<seq<Byte>>)
    ensures r.Some? ==> |r.value| == UUID_BYTES
  {
    var hex := Undashed(uuid);
    if |hex| == 2 * UUID_BYTES && AllHex(hex) then Some(BytesOf(hex)) else None
  }

  function Dashed(h: string): string
    requires |h| == 32
  {
    h[..8] + "-" + h[8..12] + "-" + h[12..16] + "-" + h[16..20] + "-" + h[20..]
  }

  function Unpack(bytes: seq<Byte>): string
    requires |bytes| == UUID_BYTES
  {
    Dashed(HexOf(bytes))
  }

  /** The canonical text form: lower-case digits in groups of 8, 4, 4, 4 and 12 (section 4 of RFC 9562). */
  ghost predicate Canonical(uuid: string) {
    exists h :: IsDashed(uuid, h)
  }

  ghost predicate IsDashed(uuid: string, h: string) {
    |h| == 32 && (forall c <- h :: IsLowerHex(c)) && uuid == Dashed(h)
  }

  lemma {:induction false} UndashedAppend(a: string, b: string)
    ensures Undashed(a + b) == Undashed(a) + Undashed(b)
  {
    if a == "" {
      assert a + b == b;
    } else {
      assert (a + b)[0] == a[0] && (a + b)[1..] == a[1..] + b;
      UndashedAppend(a[1..], b);
    }
  }

  lemma {:induction false} UndashedDigits(s: string)
    requires forall c <- s :: IsLowerHex(c)
    ensures Undashed(s) == s
  {
    if s == "" {
    } else {
      assert IsLowerHex(s[0]);
      UndashedDigits(s[1..]);
      assert s == [s[0]] + s[1..];
    }
  }

  lemma UndashedPart(a: string, b: string)
    requires forall c <- a :: IsLowerHex(c)
    ensures Undashed(a + "-" + b) == a + Undashed(b)
  {
    hide Undashed, IsLowerHex;
    UndashedAppend(a + "-", b);
    UndashedAppend(a, "-");
    UndashedDigits(a);
    DashDropped();
    assert a + "" == a;
  }

  lemma DashDropped()
    ensures Undashed("-") == ""
  {
  }

  lemma DashedUndashed(h: string)
    requires |h| == 32 && forall c <- h :: IsLowerHex(c)
    ensures Undashed(Dashed(h)) == h
  {
    hide Undashed, IsLowerHex;
    var e := h[20..];
    var d := h[16..20] + "-" + e;
    var c := h[12..16] + "-" + d;
    var b := h[8..12] + "-" + c;
    UndashedDigits(e);
    UndashedPart(h[16..20], e);
    UndashedPart(h[12..16], d);
    UndashedPart(h[8..12], c);
    UndashedPart(h[..8], b);
    assert Dashed(h) == h[..8] + "-" + b;
    assert h == h[..8] + (h[8..12] + (h[12..16] + (h[16..20] + h[20..])));
  }

  /** Bytes survive the text form. */
  lemma UnpackRoundTrip(bytes: seq<Byte>)
    requires |bytes| == UUID_BYTES
    ensures Canonical(Unpack(bytes)) && Pack(Unpack(bytes)) == Some(bytes)
  {
    HexIsLower(bytes);
    HexRoundTrip(bytes);
    hide HexOf, Undashed, BytesOf, Dashed;
    DashedUndashed(HexOf(bytes));
    assert IsDashed(Unpack(bytes), HexOf(bytes));
  }

  /** Text survives the bytes exactly when it is canonical. */
  lemma PackRoundTrip(uuid: string)
    ensures Canonical(uuid) <==> Pack(uuid).Some? && Unpack(Pack(uuid).value) == uuid
  {
    hide HexOf, Undashed, BytesOf, Dashed, IsLowerHex;
    if h :| IsDashed(uuid, h) {
      DashedUndashed(h);
      HexBack(h);
    }
    if Pack(uuid).Some? {
      UnpackRoundTrip(Pack(uuid).value);
    }
  }

  // ---------- payloads ----------

  datatype Edge = Edge(from: string, to: string)

  datatype Payload =
    | MarkerTraversed(train: string, marker: string, direction: string, discovering: bool, inferred: Option<Edge>)
    | ClearanceRequest(train: string, limit: string, next: Edge)
    | ClearanceGranted(train: string, limit: string, edges: seq<Edge>)
    | GrantClearance(limit: string, reason: Option<string>)

  datatype Format = Traversed | Request | Granted | Grant

  function FormatOf(p: Payload): Format {
    match p
    case MarkerTraversed(_, _, _, _, _) => Traversed
    case ClearanceRequest(_, _, _) => Request
    case ClearanceGranted(_, _, _) => Granted
    case GrantClearance(_, _) => Grant
  }

  const FORWARD := "forward"
  const REVERSE := "reverse"

  function DirectionByte(direction: string): Option<Byte> {
    if direction == FORWARD then Some(0) else if direction == REVERSE then Some(1) else None
  }

  function ByteDirection(b: Byte): Option<string> {
    if b == 0 then Some(FORWARD) else if b == 1 then Some(REVERSE) else None
  }

  // ---------- printing ----------

  function Cat(a: Option<seq<Byte>>, b: Option<seq<Byte>>): Option<seq<Byte>> {
    if a.Some? && b.Some? then Some(a.value + b.value) else None
  }

  function Flag(b: bool): seq<Byte> { if b then [1] else [0] }

  function PackEdge(e: Edge): (r: Option<seq<Byte>>)
    ensures r.Some? ==> |r.value| == 2 * UUID_BYTES
  {
    Cat(Pack(e.from), Pack(e.to))
  }

  function PackEdges(es: seq<Edge>): (r: Option<seq<Byte>>)
    ensures r.Some? ==> |r.value| == 2 * UUID_BYTES * |es|
  {
    if es == [] then Some([]) else Cat(PackEdge(es[0]), PackEdges(es[1..]))
  }

  /** A flag byte, and the edge if there is one. */
  function PackInferred(e: Option<Edge>): Option<seq<Byte>> {
    if e.None? then Some(Flag(false)) else Cat(Some(Flag(true)), PackEdge(e.value))
  }

  function EncodeTraversed(p: Payload): Option<seq<Byte>>
    requires p.MarkerTraversed?
  {
    var direction := DirectionByte(p.direction);
    if direction.None? then None
    else
      Cat(Cat(Cat(Pack(p.train), Pack(p.marker)), Some([direction.value] + Flag(p.discovering))),
          PackInferred(p.inferred))
  }

  function EncodeRequest(p: Payload): Option<seq<Byte>>
    requires p.ClearanceRequest?
  {
    Cat(Cat(Pack(p.train), Pack(p.limit)), PackEdge(p.next))
  }

  function EncodeGranted(p: Payload): Option<seq<Byte>>
    requires p.ClearanceGranted?
  {
    if |p.edges| > 0xff then None
    else Cat(Cat(Cat(Pack(p.train), Pack(p.limit)), Some([|p.edges|])), PackEdges(p.edges))
  }

  function EncodeGrant(p: Payload): Option<seq<Byte>>
    requires p.GrantClearance?
  {
    if p.reason.None? then Cat(Pack(p.limit), Some(Flag(false)))
    else
      var bytes := Utf8(p.reason.value);
      if |bytes| > 0xff then None else Cat(Pack(p.limit), Some(Flag(true) + [|bytes|] + bytes))
  }

  /** None for a payload that does not fit its layout. */
  function Encode(p: Payload): Option<seq<Byte>> {
    match p
    case MarkerTraversed(_, _, _, _, _) => EncodeTraversed(p)
    case ClearanceRequest(_, _, _) => EncodeRequest(p)
    case ClearanceGranted(_, _, _) => EncodeGranted(p)
    case GrantClearance(_, _) => EncodeGrant(p)
  }

  // ---------- parsing ----------

  function UnpackEdge(b: seq<Byte>): Edge
    requires |b| == 32
  {
    Edge(Unpack(b[..16]), Unpack(b[16..]))
  }

  function UnpackEdges(b: seq<Byte>, n: nat): (r: seq<Edge>)
    requires |b| == 32 * n
    ensures |r| == n
  {
    if n == 0 then [] else [UnpackEdge(b[..32])] + UnpackEdges(b[32..], n - 1)
  }

  /** Exactly 35 bytes without, or 67 with, an inferred edge; a known direction. */
  function DecodeTraversed(b: seq<Byte>): Option<Payload> {
    if |b| < 35 || ByteDirection(b[32]).None? then None
    else
      var head := MarkerTraversed(Unpack(b[..16]), Unpack(b[16..32]), ByteDirection(b[32]).value, b[33] == 1, None);
      if b[34] == 1 then if |b| == 67 then Some(head.(inferred := Some(UnpackEdge(b[35..])))) else None
      else if |b| == 35 then Some(head) else None
  }

  function DecodeRequest(b: seq<Byte>): Option<Payload> {
    if |b| == 64 then Some(ClearanceRequest(Unpack(b[..16]), Unpack(b[16..32]), UnpackEdge(b[32..]))) else None
  }

  function DecodeGranted(b: seq<Byte>): Option<Payload> {
    if |b| < 33 then None
    else
      var count: nat := b[32];
      if |b| == 33 + 32 * count
      then Some(ClearanceGranted(Unpack(b[..16]), Unpack(b[16..32]), UnpackEdges(b[33..], count))) else None
  }

  function DecodeGrant(b: seq<Byte>): Option<Payload> {
    if |b| < 17 then None
    else if b[16] != 1 then if |b| == 17 then Some(GrantClearance(Unpack(b[..16]), None)) else None
    else if |b| < 18 then None
    else
      var length: nat := b[17];
      if |b| != 18 + length then None
      else
        var reason := DecodeText(b[18..]);
        if reason.None? then None else Some(GrantClearance(Unpack(b[..16]), reason))
  }

  function Decode(f: Format, b: seq<Byte>): Option<Payload> {
    match f
    case Traversed => DecodeTraversed(b)
    case Request => DecodeRequest(b)
    case Granted => DecodeGranted(b)
    case Grant => DecodeGrant(b)
  }

  // ---------- well-formed payloads ----------

  ghost predicate CanonicalEdge(e: Edge) { Canonical(e.from) && Canonical(e.to) }

  /**
   * What the schemas promise, with canonical identifiers, sizes one length byte can carry and no byte-order mark in
   * front.
   */
  ghost predicate WellFormed(p: Payload) {
    match p
    case MarkerTraversed(train, marker, direction, _, inferred) =>
      && Canonical(train) && Canonical(marker) && direction in {FORWARD, REVERSE}
      && (inferred.Some? ==> CanonicalEdge(inferred.value))
    case ClearanceRequest(train, limit, next) => Canonical(train) && Canonical(limit) && CanonicalEdge(next)
    case ClearanceGranted(train, limit, edges) =>
      Canonical(train) && Canonical(limit) && |edges| <= 0xff && forall e <- edges :: CanonicalEdge(e)
    case GrantClearance(limit, reason) =>
      Canonical(limit) && (reason.Some? ==> |Utf8(reason.value)| <= 0xff && !OpensWithMark(reason.value))
  }

  lemma EdgeRoundTrip(e: Edge)
    requires CanonicalEdge(e)
    ensures PackEdge(e).Some? && UnpackEdge(PackEdge(e).value) == e
  {
    hide Pack, Unpack, Canonical;
    PackRoundTrip(e.from);
    PackRoundTrip(e.to);
    var b := PackEdge(e).value;
    assert b[..16] == Pack(e.from).value && b[16..] == Pack(e.to).value;
  }

  lemma {:induction false} EdgesRoundTrip(es: seq<Edge>)
    requires forall e <- es :: CanonicalEdge(e)
    ensures PackEdges(es).Some? && UnpackEdges(PackEdges(es).value, |es|) == es
  {
    hide CanonicalEdge, PackEdge, UnpackEdge;
    if es == [] {
    } else {
      EdgeRoundTrip(es[0]);
      EdgesRoundTrip(es[1..]);
      var b := PackEdges(es).value;
      assert b[..32] == PackEdge(es[0]).value && b[32..] == PackEdges(es[1..]).value;
      assert es == [es[0]] + es[1..];
    }
  }

  /** The first two identifiers of a payload, wherever the rest goes. */
  lemma TwoIds(a: string, b: string, rest: seq<Byte>)
    requires Canonical(a) && Canonical(b)
    ensures Pack(a).Some? && Pack(b).Some?
    ensures var all := Pack(a).value + Pack(b).value + rest;
            Unpack(all[..16]) == a && Unpack(all[16..32]) == b && all[32..] == rest
  {
    hide Pack, Unpack, Canonical;
    PackRoundTrip(a);
    PackRoundTrip(b);
    var all := Pack(a).value + Pack(b).value + rest;
    assert all[..16] == Pack(a).value && all[16..32] == Pack(b).value;
  }

  /** Where the parts of a printed traversal are. */
  lemma TraversedParts(ids: seq<Byte>, d: Byte, discovering: bool, tail: seq<Byte>)
    requires |ids| == 32 && tail != []
    ensures var b := ids + ([d] + Flag(discovering)) + tail;
            b[..32] == ids && b[32] == d && b[33] == Flag(discovering)[0] && b[34] == tail[0] && b[35..] == tail[1..]
              && |b| == 34 + |tail|
  {
    var b := ids + ([d] + Flag(discovering)) + tail;
    assert b[34..] == tail && b[35..] == b[34..][1..];
  }

  lemma InferredRoundTrip(e: Option<Edge>)
    requires e.Some? ==> CanonicalEdge(e.value)
    ensures PackInferred(e).Some?
    ensures var tail := PackInferred(e).value;
            if e.None? then tail == [0] else |tail| == 33 && tail[0] == 1 && UnpackEdge(tail[1..]) == e.value
  {
    hide PackEdge, UnpackEdge, CanonicalEdge;
    if e.Some? {
      EdgeRoundTrip(e.value);
      assert PackInferred(e).value[1..] == PackEdge(e.value).value;
    }
  }

  lemma TraversedRoundTrip(p: Payload)
    requires p.MarkerTraversed? && WellFormed(p)
    ensures Encode(p).Some? && DecodeTraversed(Encode(p).value) == Some(p)
  {
    hide Pack, Unpack, PackInferred, UnpackEdge, Canonical, CanonicalEdge;
    var d := DirectionByte(p.direction).value;
    TwoIds(p.train, p.marker, []);
    InferredRoundTrip(p.inferred);
    var ids, tail := Pack(p.train).value + Pack(p.marker).value, PackInferred(p.inferred).value;
    assert ids + [] == ids;
    TraversedParts(ids, d, p.discovering, tail);
    var b := Encode(p).value;
    assert b == ids + ([d] + Flag(p.discovering)) + tail;
    assert b[..16] == b[..32][..16] && b[16..32] == b[..32][16..32];
  }

  lemma RequestRoundTrip(p: Payload)
    requires p.ClearanceRequest? && WellFormed(p)
    ensures Encode(p).Some? && DecodeRequest(Encode(p).value) == Some(p)
  {
    hide Pack, Unpack, PackEdge, UnpackEdge, Canonical, CanonicalEdge;
    EdgeRoundTrip(p.next);
    TwoIds(p.train, p.limit, PackEdge(p.next).value);
  }

  lemma GrantedRoundTrip(p: Payload)
    requires p.ClearanceGranted? && WellFormed(p)
    ensures Encode(p).Some? && DecodeGranted(Encode(p).value) == Some(p)
  {
    hide Pack, Unpack, PackEdges, UnpackEdges, Canonical, CanonicalEdge;
    EdgesRoundTrip(p.edges);
    var n: seq<Byte> := [|p.edges|];
    var tail := n + PackEdges(p.edges).value;
    TwoIds(p.train, p.limit, tail);
    var b := Encode(p).value;
    assert b == Pack(p.train).value + Pack(p.limit).value + tail;
    assert b[32..] == tail && b[32] == tail[0];
    assert b[33..] == tail[1..] == PackEdges(p.edges).value;
  }

  lemma GrantRoundTrip(p: Payload)
    requires p.GrantClearance? && WellFormed(p)
    ensures Encode(p).Some? && DecodeGrant(Encode(p).value) == Some(p)
  {
    hide Pack, Unpack, Canonical, Utf8, DecodeText;
    PackRoundTrip(p.limit);
    var b := Encode(p).value;
    assert b[..16] == Pack(p.limit).value;
    if p.reason.Some? {
      assert b[18..] == Utf8(p.reason.value);
      TextRoundTrip(p.reason.value);
    }
  }

  /** A well-formed payload of any of the four types comes back from its bytes. */
  lemma WellFormedRoundTrip(p: Payload)
    requires WellFormed(p)
    ensures Encode(p).Some? && Decode(FormatOf(p), Encode(p).value) == Some(p)
  {
    hide Encode, WellFormed, DecodeTraversed, DecodeRequest, DecodeGranted, DecodeGrant;
    match p
    case MarkerTraversed(_, _, _, _, _) => TraversedRoundTrip(p);
    case ClearanceRequest(_, _, _) => RequestRoundTrip(p);
    case ClearanceGranted(_, _, _) => GrantedRoundTrip(p);
    case GrantClearance(_, _) => GrantRoundTrip(p);
  }

  // ---------- the other way round ----------

  /** Flag bytes are zero or one, and the reason of a grant does not open with a byte-order mark. */
  predicate NothingDropped(f: Format, b: seq<Byte>) {
    match f
    case Traversed => |b| >= 35 && b[33] <= 1 && b[34] <= 1
    case Grant => |b| >= 17 && b[16] <= 1 && !(|b| >= 18 && IsMarked(b[18..]))
    case _ => true
  }

  lemma EdgeBack(b: seq<Byte>)
    requires |b| == 32
    ensures CanonicalEdge(UnpackEdge(b)) && PackEdge(UnpackEdge(b)) == Some(b)
  {
    hide Pack, Unpack, Canonical;
    UnpackRoundTrip(b[..16]);
    UnpackRoundTrip(b[16..]);
    assert b == b[..16] + b[16..];
  }

  lemma {:induction false} EdgesBack(b: seq<Byte>, n: nat)
    requires |b| == 32 * n
    ensures (forall e <- UnpackEdges(b, n) :: CanonicalEdge(e)) && PackEdges(UnpackEdges(b, n)) == Some(b)
  {
    hide CanonicalEdge, PackEdge, UnpackEdge;
    if n == 0 {
    } else {
      EdgeBack(b[..32]);
      EdgesBack(b[32..], n - 1);
      var es := UnpackEdges(b, n);
      assert es[1..] == UnpackEdges(b[32..], n - 1);
      assert b == b[..32] + b[32..];
    }
  }

  lemma TraversedBack(b: seq<Byte>)
    requires DecodeTraversed(b).Some?
    ensures var p := DecodeTraversed(b).value;
            p.MarkerTraversed? && WellFormed(p) && (EncodeTraversed(p) == Some(b) <==> NothingDropped(Traversed, b))
  {
    hide Pack, Unpack, PackEdge, UnpackEdge, Canonical, CanonicalEdge;
    var p := DecodeTraversed(b).value;
    UnpackRoundTrip(b[..16]);
    UnpackRoundTrip(b[16..32]);
    if p.inferred.Some? {
      EdgeBack(b[35..]);
    }
    var middle := [DirectionByte(p.direction).value] + Flag(p.discovering);
    var tail := if p.inferred.None? then Flag(false) else Flag(true) + b[35..];
    var whole := b[..16] + b[16..32] + middle + tail;
    assert EncodeTraversed(p) == Some(whole);
    assert whole[32] == b[32] && whole[33] == Flag(p.discovering)[0] && whole[34] == tail[0];
    if NothingDropped(Traversed, b) {
      assert b == b[..16] + b[16..32] + [b[32], b[33]] + [b[34]] + b[35..];
      assert whole == b;
    }
  }

  lemma RequestBack(b: seq<Byte>)
    requires DecodeRequest(b).Some?
    ensures var p := DecodeRequest(b).value; p.ClearanceRequest? && WellFormed(p) && EncodeRequest(p) == Some(b)
  {
    hide Pack, Unpack, PackEdge, UnpackEdge, Canonical, CanonicalEdge;
    UnpackRoundTrip(b[..16]);
    UnpackRoundTrip(b[16..32]);
    EdgeBack(b[32..]);
    assert b == b[..16] + b[16..32] + b[32..];
  }

  lemma GrantedBack(b: seq<Byte>)
    requires DecodeGranted(b).Some?
    ensures var p := DecodeGranted(b).value; p.ClearanceGranted? && WellFormed(p) && EncodeGranted(p) == Some(b)
  {
    hide Pack, Unpack, PackEdges, UnpackEdges, Canonical, CanonicalEdge;
    UnpackRoundTrip(b[..16]);
    UnpackRoundTrip(b[16..32]);
    EdgesBack(b[33..], b[32]);
    assert b == b[..16] + b[16..32] + [b[32]] + b[33..];
  }

  lemma GrantBack(b: seq<Byte>)
    requires DecodeGrant(b).Some?
    ensures var p := DecodeGrant(b).value;
            p.GrantClearance? && (EncodeGrant(p) == Some(b) <==> NothingDropped(Grant, b))
              && (NothingDropped(Grant, b) ==> WellFormed(p))
  {
    hide Pack, Unpack, Canonical, Utf8, DecodeText, IsMarked, OpensWithMark;
    var p := DecodeGrant(b).value;
    UnpackRoundTrip(b[..16]);
    if p.reason.None? {
      var whole := b[..16] + Flag(false);
      assert EncodeGrant(p) == Some(whole) && whole[16] == 0;
      assert b == b[..16] + [b[16]];
    } else {
      TextBack(b[18..]);
      var bytes := Utf8(p.reason.value);
      var whole := b[..16] + (Flag(true) + [|bytes|] + bytes);
      assert EncodeGrant(p) == Some(whole) && whole[18..] == bytes;
      assert b == b[..16] + ([1] + [b[17]] + b[18..]);
    }
  }

  /**
   * Printing what a region parsed to restores the region exactly when parsing dropped nothing; then it is well-formed.
   */
  lemma DecodeBack(f: Format, b: seq<Byte>)
    requires Decode(f, b).Some?
    ensures var p := Decode(f, b).value;
            FormatOf(p) == f && (Encode(p) == Some(b) <==> NothingDropped(f, b))
              && (NothingDropped(f, b) ==> WellFormed(p))
  {
    hide WellFormed, DecodeTraversed, DecodeRequest, DecodeGranted, DecodeGrant, EncodeTraversed, EncodeRequest,
         EncodeGranted, EncodeGrant;
    match f
    case Traversed => TraversedBack(b);
    case Request => RequestBack(b);
    case Granted => GrantedBack(b);
    case Grant => GrantBack(b);
  }

  /** Payloads come back from their bytes exactly when they are well-formed. */
  lemma PayloadRoundTrip(p: Payload)
    ensures Encode(p).Some? && Decode(FormatOf(p), Encode(p).value) == Some(p) <==> WellFormed(p)
  {
    hide Encode, Decode, WellFormed, NothingDropped;
    if WellFormed(p) {
      WellFormedRoundTrip(p);
    }
    if Encode(p).Some? && Decode(FormatOf(p), Encode(p).value) == Some(p) {
      DecodeBack(FormatOf(p), Encode(p).value);
    }
  }

  /** A parse takes every byte: no region that parses is a proper part of another. */
  lemma AllBytesConsumed(f: Format, b: seq<Byte>, n: nat)
    requires n < |b| && Decode(f, b).Some?
    ensures Decode(f, b[..n]).None?
  {
    hide Unpack, UnpackEdge, UnpackEdges, DecodeText;
    var part := b[..n];
    match f
    case Traversed => assert |part| >= 35 ==> part[34] == b[34] && part[32] == b[32];
    case Request =>
    case Granted => assert |part| >= 33 ==> part[32] == b[32];
    case Grant => assert |part| >= 17 ==> part[16] == b[16] && (|part| >= 18 ==> part[17] == b[17]);
  }

  const HEADER_BYTES: nat := 13
  const MAX_FRAME_BYTES: nat := 250
  const MAX_PAYLOAD_BYTES: nat := MAX_FRAME_BYTES - HEADER_BYTES

  /** A grant notice fits a frame exactly up to six edges. */
  lemma GrantedFits(p: Payload)
    requires p.ClearanceGranted? && WellFormed(p)
    ensures Encode(p).Some? && |Encode(p).value| == 33 + 32 * |p.edges|
    ensures |Encode(p).value| <= MAX_PAYLOAD_BYTES <==> |p.edges| <= 6
  {
    hide WellFormed, Pack, PackEdges;
    GrantedRoundTrip(p);
  }
}
