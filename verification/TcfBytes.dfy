/** The payload codecs as they run: a writer that appends chunks, a reader that moves an offset. */
module TcfBytes {
  import opened Rail
  import opened TcfText
  import opened TcfPayloads

  function Flat(chunks: seq<seq<Byte>>): seq<Byte> {
    if chunks == [] then [] else Flat(chunks[..|chunks| - 1]) + chunks[|chunks| - 1]
  }

  lemma FlatAppend(chunks: seq<seq<Byte>>, chunk: seq<Byte>)
    ensures Flat(chunks + [chunk]) == Flat(chunks) + chunk
  {
    assert (chunks + [chunk])[..|chunks|] == chunks;
  }

  lemma {:induction false} FlatPrefix(chunks: seq<seq<Byte>>, k: nat)
    requires k <= |chunks|
    ensures |Flat(chunks[..k])| <= |Flat(chunks)|
    decreases |chunks|
  {
    if k < |chunks| {
      assert chunks[..|chunks| - 1][..k] == chunks[..k];
      FlatPrefix(chunks[..|chunks| - 1], k);
    } else {
      assert chunks[..k] == chunks;
    }
  }

  method UuidToBytes(uuid: string) returns (r: Option<seq<Byte>>)
    ensures r == Pack(uuid)
  {
    hide Undashed, ValueOf, BytesOf;
    var hex := Undashed(uuid);
    if |hex| != 2 * UUID_BYTES || !AllHex(hex) {
      return None;
    }
    assert hex[2 * 0..] == hex;
    var out := new Byte[UUID_BYTES];
    for i := 0 to UUID_BYTES
      invariant out[..i] + BytesOf(hex[2 * i..]) == BytesOf(hex)
    {
      NextByte(hex, i);
      out[i] := 16 * ValueOf(hex[2 * i]).value + ValueOf(hex[2 * i + 1]).value;
      assert out[..i + 1] == out[..i] + [out[i]];
    }
    assert out[..] == out[..UUID_BYTES];
    assert BytesOf(hex[2 * UUID_BYTES..]) == [];
    assert out[..] == BytesOf(hex);
    return Some(out[..]);
  }

  lemma NextByte(hex: string, i: nat)
    requires AllHex(hex) && 2 * i + 2 <= |hex|
    ensures AllHex(hex[2 * i..]) && AllHex(hex[2 * (i + 1)..])
    ensures BytesOf(hex[2 * i..])
            == [16 * ValueOf(hex[2 * i]).value + ValueOf(hex[2 * i + 1]).value] + BytesOf(hex[2 * (i + 1)..])
  {
    hide ValueOf;
    assert hex[2 * i..][2..] == hex[2 * (i + 1)..];
  }

  method BytesToUuid(bytes: seq<Byte>, offset: nat) returns (r: Option<string>)
    ensures r == if offset + UUID_BYTES <= |bytes| then Some(Unpack(bytes[offset..offset + UUID_BYTES])) else None
  {
    if offset + UUID_BYTES > |bytes| {
      return None;
    }
    ghost var part := bytes[offset..offset + UUID_BYTES];
    var hex := "";
    for i := 0 to UUID_BYTES
      invariant hex + HexOf(part[i..]) == HexOf(part)
    {
      var byte := bytes[offset + i];
      hex := hex + [DigitOf(byte / 16), DigitOf(byte % 16)];
      assert part[i..][1..] == part[i + 1..];
    }
    assert part[UUID_BYTES..] == [];
    assert hex == HexOf(part);
    return Some(Dashed(hex));
  }

  class ByteWriter {
    var chunks: seq<seq<Byte>>

    ghost function Written(): seq<Byte>
      reads this
    {
      Flat(chunks)
    }

    constructor ()
      ensures Written() == []
    {
      chunks := [];
    }

    method U8(value: nat)
      modifies this
      ensures Written() == old(Written()) + [value % 0x100]
    {
      FlatAppend(chunks, [value % 0x100]);
      chunks := chunks + [[value % 0x100]];
    }

    /** Fails, writing nothing, on a text that is no identifier. */
    method Uuid(uuid: string) returns (ok: bool)
      modifies this
      ensures ok == Pack(uuid).Some?
      ensures Written() == old(Written()) + if ok then Pack(uuid).value else []
    {
      var bytes := UuidToBytes(uuid);
      if bytes.None? {
        return false;
      }
      FlatAppend(chunks, bytes.value);
      chunks := chunks + [bytes.value];
      return true;
    }

    method EdgeIds(e: Edge) returns (ok: bool)
      modifies this
      ensures ok == PackEdge(e).Some?
      ensures ok ==> Written() == old(Written()) + PackEdge(e).value
    {
      ok := Uuid(e.from);
      if ok {
        ok := Uuid(e.to);
      }
    }

    method Finish() returns (out: array<Byte>)
      ensures fresh(out) && out[..] == Written()
    {
      var total := 0;
      for k := 0 to |chunks|
        invariant total == |Flat(chunks[..k])|
      {
        assert chunks[..k + 1][..k] == chunks[..k];
        total := total + |chunks[k]|;
      }
      assert chunks[..|chunks|] == chunks;
      out := new Byte[total];
      var offset := 0;
      for k := 0 to |chunks|
        invariant offset == |Flat(chunks[..k])| <= out.Length
        invariant out[..offset] == Flat(chunks[..k])
      {
        assert chunks[..k + 1][..k] == chunks[..k];
        FlatPrefix(chunks, k + 1);
        CopyInto(out, offset, chunks[k]);
        offset := offset + |chunks[k]|;
      }
    }
  }

  /** Copies a chunk into a buffer at an offset. */
  method CopyInto(out: array<Byte>, offset: nat, chunk: seq<Byte>)
    requires offset + |chunk| <= out.Length
    modifies out
    ensures out[..offset + |chunk|] == old(out[..offset]) + chunk
    ensures out[offset + |chunk|..] == old(out[offset + |chunk|..])
  {
    for i := 0 to |chunk|
      invariant out[..offset] == old(out[..offset])
      invariant out[offset..offset + i] == chunk[..i]
      invariant forall j :: offset + |chunk| <= j < out.Length ==> out[j] == old(out[j])
    {
      out[offset + i] := chunk[i];
    }
    assert out[..offset + |chunk|] == out[..offset] + out[offset..offset + |chunk|];
  }

  class ByteReader {
    const bytes: seq<Byte>
    var offset: nat

    ghost predicate Valid()
      reads this
    {
      offset <= |bytes|
    }

    constructor (bytes: seq<Byte>)
      ensures Valid() && offset == 0 && this.bytes == bytes
    {
      this.bytes := bytes;
      offset := 0;
    }

    method U8() returns (value: Option<Byte>)
      requires Valid()
      modifies this
      ensures Valid()
      ensures value == if old(offset) < |bytes| then Some(bytes[old(offset)]) else None
      ensures offset == if value.Some? then old(offset) + 1 else old(offset)
    {
      if offset >= |bytes| {
        return None;
      }
      value := Some(bytes[offset]);
      offset := offset + 1;
    }

    method Uuid() returns (uuid: Option<string>)
      requires Valid()
      modifies this
      ensures Valid()
      ensures uuid == if old(offset) + 16 <= |bytes| then Some(Unpack(bytes[old(offset)..old(offset) + 16])) else None
      ensures offset == if uuid.Some? then old(offset) + 16 else old(offset)
    {
      uuid := BytesToUuid(bytes, offset);
      if uuid.Some? {
        offset := offset + UUID_BYTES;
      }
    }

    method EdgeIds() returns (e: Option<Edge>)
      requires Valid()
      modifies this
      ensures Valid()
      ensures e == if old(offset) + 32 <= |bytes| then Some(UnpackEdge(bytes[old(offset)..old(offset) + 32])) else None
      ensures e.Some? ==> offset == old(offset) + 32
    {
      hide Unpack;
      ghost var start := offset;
      var from := Uuid();
      if from.None? {
        return None;
      }
      var to := Uuid();
      if to.None? {
        return None;
      }
      ghost var part := bytes[start..start + 32];
      assert part[..16] == bytes[start..start + 16] && part[16..] == bytes[start + 16..start + 32];
      return Some(Edge(from.value, to.value));
    }

    predicate AtEnd()
      reads this
    {
      offset == |bytes|
    }
  }

  // ---------- encoders ----------

  method WriteInferred(w: ByteWriter, inferred: Option<Edge>) returns (ok: bool)
    modifies w
    ensures ok == PackInferred(inferred).Some?
    ensures ok ==> w.Written() == old(w.Written()) + PackInferred(inferred).value
  {
    hide Pack, PackEdge;
    ghost var before := w.Written();
    if inferred.None? {
      w.U8(0);
      return true;
    }
    w.U8(1);
    ok := w.EdgeIds(inferred.value);
    if ok {
      assert before + [1] + PackEdge(inferred.value).value == before + ([1] + PackEdge(inferred.value).value);
    }
  }

  method EncodeTraversedPayload(p: Payload) returns (r: Option<seq<Byte>>)
    requires p.MarkerTraversed?
    ensures r == EncodeTraversed(p)
  {
    hide Pack, PackInferred, DirectionByte, EncodeTraversed, Flag;
    TraversedValue(p);
    var w := new ByteWriter();
    var ok := w.Uuid(p.train);
    if !ok { return None; }
    ok := w.Uuid(p.marker);
    if !ok { return None; }
    var d := DirectionByte(p.direction);
    if d.None? { return None; }
    WriteFlags(w, d.value, p.discovering);
    ok := WriteInferred(w, p.inferred);
    if !ok { return None; }
    var out := w.Finish();
    return Some(out[..]);
  }

  method WriteFlags(w: ByteWriter, direction: Byte, discovering: bool)
    modifies w
    ensures w.Written() == old(w.Written()) + ([direction] + Flag(discovering))
  {
    ghost var before := w.Written();
    w.U8(direction);
    w.U8(if discovering then 1 else 0);
    assert before + [direction] + Flag(discovering) == before + ([direction] + Flag(discovering));
  }

  /** The printed traversal, spelled out. */
  lemma TraversedValue(p: Payload)
    requires p.MarkerTraversed?
    ensures EncodeTraversed(p)
            == if Pack(p.train).None? || Pack(p.marker).None? || DirectionByte(p.direction).None?
               || PackInferred(p.inferred).None? then None
               else Some([] + Pack(p.train).value + Pack(p.marker).value
                         + ([DirectionByte(p.direction).value] + Flag(p.discovering)) + PackInferred(p.inferred).value)
  {
    hide Pack, PackInferred, Flag, DirectionByte;
    assert Pack(p.train).Some? ==> [] + Pack(p.train).value == Pack(p.train).value;
  }

  method EncodeRequestPayload(p: Payload) returns (r: Option<seq<Byte>>)
    requires p.ClearanceRequest?
    ensures r == EncodeRequest(p)
  {
    hide Pack, PackEdge;
    var w := new ByteWriter();
    var ok := w.Uuid(p.train);
    if !ok { return None; }
    ok := w.Uuid(p.limit);
    if !ok { return None; }
    ok := w.EdgeIds(p.next);
    if !ok { return None; }
    var out := w.Finish();
    assert out[..] == EncodeRequest(p).value;
    return Some(out[..]);
  }

  method EncodeGrantedPayload(p: Payload) returns (r: Option<seq<Byte>>)
    requires p.ClearanceGranted?
    ensures r == EncodeGranted(p)
  {
    hide Pack, PackEdges;
    var w := new ByteWriter();
    var ok := w.Uuid(p.train);
    if !ok { return None; }
    ok := w.Uuid(p.limit);
    if !ok || |p.edges| > 0xff { return None; }
    w.U8(|p.edges|);
    ok := WriteEdges(w, p.edges);
    if !ok { return None; }
    var out := w.Finish();
    assert out[..] == EncodeGranted(p).value;
    return Some(out[..]);
  }

  method EncodeGrantPayload(p: Payload) returns (r: Option<seq<Byte>>)
    requires p.GrantClearance?
    ensures r == EncodeGrant(p)
  {
    hide Pack, Utf8;
    var w := new ByteWriter();
    var ok := w.Uuid(p.limit);
    if !ok { return None; }
    ghost var id := w.Written();
    if p.reason.None? {
      w.U8(0);
    } else {
      var bytes := Utf8(p.reason.value);
      if |bytes| > 0xff { return None; }
      w.U8(1);
      w.U8(|bytes|);
      WriteBytes(w, bytes);
      assert w.Written() == id + (Flag(true) + [|bytes|] + bytes);
    }
    var out := w.Finish();
    assert out[..] == EncodeGrant(p).value;
    return Some(out[..]);
  }

  method EncodePayload(p: Payload) returns (r: Option<seq<Byte>>)
    ensures r == Encode(p)
  {
    hide EncodeTraversed, EncodeRequest, EncodeGranted, EncodeGrant;
    match p
    case MarkerTraversed(_, _, _, _, _) => r := EncodeTraversedPayload(p);
    case ClearanceRequest(_, _, _) => r := EncodeRequestPayload(p);
    case ClearanceGranted(_, _, _) => r := EncodeGrantedPayload(p);
    case GrantClearance(_, _) => r := EncodeGrantPayload(p);
  }

  method WriteEdges(w: ByteWriter, edges: seq<Edge>) returns (ok: bool)
    modifies w
    ensures ok == PackEdges(edges).Some?
    ensures ok ==> w.Written() == old(w.Written()) + PackEdges(edges).value
  {
    hide PackEdge;
    ghost var start := w.Written();
    ghost var done: seq<Byte> := [];
    assert edges[0..] == edges;
    CatNothing(PackEdges(edges));
    for k := 0 to |edges|
      invariant w.Written() == start + done
      invariant PackEdges(edges) == Cat(Some(done), PackEdges(edges[k..]))
    {
      assert edges[k..][1..] == edges[k + 1..];
      ok := w.EdgeIds(edges[k]);
      if !ok { return false; }
      CatMore(done, PackEdge(edges[k]).value, PackEdges(edges[k + 1..]));
      done := done + PackEdge(edges[k]).value;
    }
    return true;
  }

  lemma CatNothing(a: Option<seq<Byte>>)
    ensures Cat(Some([]), a) == a
  {
    if a.Some? {
      assert [] + a.value == a.value;
    }
  }

  lemma CatMore(a: seq<Byte>, b: seq<Byte>, c: Option<seq<Byte>>)
    ensures Cat(Some(a), Cat(Some(b), c)) == Cat(Some(a + b), c)
  {
    if c.Some? {
      assert a + (b + c.value) == (a + b) + c.value;
    }
  }

  method WriteBytes(w: ByteWriter, bytes: seq<Byte>)
    modifies w
    ensures w.Written() == old(w.Written()) + bytes
  {
    for k := 0 to |bytes|
      invariant w.Written() == old(w.Written()) + bytes[..k]
    {
      w.U8(bytes[k]);
    }
  }

  // ---------- decoders ----------

  method DecodeTraversedPayload(bytes: seq<Byte>) returns (r: Option<Payload>)
    ensures r == DecodeTraversed(bytes)
  {
    hide Unpack, UnpackEdge;
    var reader := new ByteReader(bytes);
    var train := reader.Uuid();
    if train.None? { return None; }
    var marker := reader.Uuid();
    if marker.None? { return None; }
    var direction := reader.U8();
    if direction.None? || ByteDirection(direction.value).None? { return None; }
    var discovering := reader.U8();
    if discovering.None? { return None; }
    var has := reader.U8();
    if has.None? { return None; }
    var inferred := None;
    if has.value == 1 {
      inferred := reader.EdgeIds();
      if inferred.None? { return None; }
    }
    if !reader.AtEnd() { return None; }
    assert |bytes| == 67 ==> bytes[35..67] == bytes[35..];
    return Some(MarkerTraversed(train.value, marker.value, ByteDirection(direction.value).value,
                                discovering.value == 1, inferred));
  }

  method DecodeRequestPayload(bytes: seq<Byte>) returns (r: Option<Payload>)
    ensures r == DecodeRequest(bytes)
  {
    hide Unpack, UnpackEdge;
    var reader := new ByteReader(bytes);
    var train := reader.Uuid();
    if train.None? { return None; }
    var limit := reader.Uuid();
    if limit.None? { return None; }
    var next := reader.EdgeIds();
    if next.None? || !reader.AtEnd() { return None; }
    assert bytes[32..64] == bytes[32..];
    return Some(ClearanceRequest(train.value, limit.value, next.value));
  }

  /** The next edge of a run of them. */
  lemma UnpackNext(bytes: seq<Byte>, start: nat, n: nat)
    requires n > 0 && |bytes| == start + 32 * n
    ensures UnpackEdges(bytes[start..], n)
            == [UnpackEdge(bytes[start..start + 32])] + UnpackEdges(bytes[start + 32..], n - 1)
  {
    hide UnpackEdge;
    var left := bytes[start..];
    assert left[..32] == bytes[start..start + 32] && left[32..] == bytes[start + 32..];
  }

  method DecodeGrantedPayload(bytes: seq<Byte>) returns (r: Option<Payload>)
    ensures r == DecodeGranted(bytes)
  {
    hide Unpack, UnpackEdge, UnpackEdges;
    var reader := new ByteReader(bytes);
    var train := reader.Uuid();
    if train.None? { return None; }
    var limit := reader.Uuid();
    if limit.None? { return None; }
    var count := reader.U8();
    if count.None? { return None; }
    var n: nat := count.value;
    var edges: seq<Edge> := [];
    for i := 0 to n
      invariant reader.Valid() && reader.bytes == bytes && |bytes| >= 33 && fresh(reader)
      invariant reader.offset == 33 + 32 * i
      invariant |bytes| == 33 + 32 * n
                ==> edges + UnpackEdges(bytes[33 + 32 * i..], n - i) == UnpackEdges(bytes[33..], n)
    {
      var e := reader.EdgeIds();
      if e.None? { return None; }
      if |bytes| == 33 + 32 * n {
        UnpackNext(bytes, 33 + 32 * i, n - i);
      }
      edges := edges + [e.value];
    }
    if !reader.AtEnd() { return None; }
    assert |UnpackEdges(bytes[33 + 32 * n..], 0)| == 0;
    assert edges + UnpackEdges(bytes[33 + 32 * n..], 0) == edges;
    return Some(ClearanceGranted(train.value, limit.value, edges));
  }

  method DecodeGrantPayload(bytes: seq<Byte>) returns (r: Option<Payload>)
    ensures r == DecodeGrant(bytes)
  {
    hide Unpack, DecodeText;
    var reader := new ByteReader(bytes);
    var limit := reader.Uuid();
    if limit.None? { return None; }
    var has := reader.U8();
    if has.None? { return None; }
    var reason := None;
    if has.value == 1 {
      var length := reader.U8();
      if length.None? { return None; }
      var n: nat := length.value;
      var text := new Byte[n];
      for i := 0 to n
        invariant reader.Valid() && reader.bytes == bytes && fresh(reader) && reader.offset == 18 + i
        invariant text[..i] == bytes[18..18 + i]
      {
        var b := reader.U8();
        if b.None? { return None; }
        text[i] := b.value;
      }
      assert text[..] == text[..n];
      assert |bytes| == 18 + n ==> text[..] == bytes[18..];
      reason := DecodeText(text[..]);
      if reason.None? { return None; }
    }
    if !reader.AtEnd() { return None; }
    return Some(GrantClearance(limit.value, reason));
  }

  method DecodePayload(f: Format, bytes: seq<Byte>) returns (r: Option<Payload>)
    ensures r == Decode(f, bytes)
  {
    hide DecodeTraversed, DecodeRequest, DecodeGranted, DecodeGrant;
    match f
    case Traversed => r := DecodeTraversedPayload(bytes);
    case Request => r := DecodeRequestPayload(bytes);
    case Granted => r := DecodeGrantedPayload(bytes);
    case Grant => r := DecodeGrantPayload(bytes);
  }
}
