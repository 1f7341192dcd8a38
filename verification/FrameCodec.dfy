/**
 The content header and frame code that runs step by step: the straight line that writes the
 properties and builds the flag word, the loops over flags and chunks, and the reads from a
 connection. Each is proved to compute the function of ContentHeader or Frames.
 */
module FrameCodec {
  import opened Collections
  import opened Bytes
  import opened FieldTable
  import opened FieldValues
  import opened FieldTableCodec
  import opened ContentHeader
  import opened Frames

  // ---------------------------------------------------------------- writing properties

  /** The octets of the properties before i. */
  function PiecesBefore(p: Sent, i: nat): Bytes
    requires ProperProps(p) && Writable(p) && i <= COUNT
  {
    if i == 0 then [] else PiecesBefore(p, i - 1) + Piece(p, i - 1)
  }

  lemma {:induction false} BeforeAndAfter(p: Sent, i: nat)
    requires ProperProps(p) && Writable(p) && i <= COUNT
    ensures PiecesBefore(p, i) + Pieces(p, i) == Pieces(p, 0)
    decreases i
  {
    hide Piece, ProperProps, Writable;
    if i == 0 {
      assert [] + Pieces(p, 0) == Pieces(p, 0);
    } else {
      BeforeAndAfter(p, i - 1);
      assert PiecesBefore(p, i - 1) + (Piece(p, i - 1) + Pieces(p, i))
        == PiecesBefore(p, i - 1) + Piece(p, i - 1) + Pieces(p, i);
    }
  }

  /** What encodeBasicProperties has done after property i - 1. */
  ghost predicate WrittenBefore(p: Sent, i: nat, bytes: Bytes, flags: nat) {
    && ProperProps(p) && i <= COUNT
    && (forall j | 0 <= j < i && IsText(j) :: |TextOf(p, j)| <= 255)
    && (i > HEADERS && p.headers.Some? ==> Encode(p.headers.value).Some?)
    && flags == Pow2(16 - i) * FlagsBefore(p, i)
    && (Writable(p) ==> bytes == PiecesBefore(p, i))
  }

  /** flags |= 1 << bit: the bit is clear, since every bit is set at most once and from the highest down. */
  function SetBit(flags: nat, bit: nat): nat {
    flags + Pow2(bit)
  }

  lemma NextFlag(p: Sent, i: nat, flags: nat)
    requires i < COUNT && flags == Pow2(16 - i) * FlagsBefore(p, i)
    ensures (if Present(p, i) then SetBit(flags, 15 - i) else flags) == Pow2(16 - (i + 1)) * FlagsBefore(p, i + 1)
  {
    var m, f := Pow2(15 - i), FlagsBefore(p, i);
    assert Pow2(16 - i) == 2 * m;
    assert FlagsBefore(p, i + 1) == 2 * f + if Present(p, i) then 1 else 0;
    hide Present, FlagsBefore, Pow2;
    Doubled(m, f);
  }

  lemma Doubled(m: nat, f: nat)
    ensures 2 * m * f == m * (2 * f) && m * (2 * f + 1) == 2 * m * f + m
  {
  }

  /** A property that has no error: written if it is there. */
  lemma NextWritten(p: Sent, i: nat, bytes: Bytes, flags: nat, bytes': Bytes)
    requires WrittenBefore(p, i, bytes, flags) && i < COUNT
    requires IsText(i) ==> |TextOf(p, i)| <= 255
    requires i == HEADERS && p.headers.Some? ==> Encode(p.headers.value).Some?
    requires Writable(p) ==> bytes' == bytes + Piece(p, i)
    ensures WrittenBefore(p, i + 1, bytes', if Present(p, i) then SetBit(flags, 15 - i) else flags)
  {
    NextFlag(p, i, flags);
    hide Piece, Present, SetBit, Encode, TextOf, ProperProps, Writable;
  }

  /** if text != "" { flags |= bit; EncodeShortStr(text) }. */
  method PutText(p: Sent, i: nat, buf: Buffer, flags: nat) returns (ok: bool, flags': nat)
    requires IsText(i) && WrittenBefore(p, i, buf.bytes, flags)
    modifies buf
    ensures ok == (|TextOf(p, i)| <= 255)
    ensures ok ==> WrittenBefore(p, i + 1, buf.bytes, flags')
  {
    hide Encode, FlagsBefore;
    ghost var before := buf.bytes;
    flags' := flags;
    ok := true;
    if TextOf(p, i) != [] {
      flags' := SetBit(flags, 15 - i);
      ok := EncodeShortStr(buf, TextOf(p, i));
      if !ok { return; }
    }
    assert Writable(p) ==> buf.bytes == before + Piece(p, i);
    NextWritten(p, i, before, flags, buf.bytes);
  }

  /** if octet != 0 { flags |= bit; EncodeOctet(octet) }. */
  method PutOctet(p: Sent, i: nat, octet: byte, buf: Buffer, flags: nat) returns (flags': nat)
    requires WrittenBefore(p, i, buf.bytes, flags)
    requires (i == DELIVERY_MODE && octet == p.deliveryMode) || (i == PRIORITY && octet == p.priority)
    modifies buf
    ensures WrittenBefore(p, i + 1, buf.bytes, flags')
  {
    ghost var before := buf.bytes;
    flags' := flags;
    if octet != 0 {
      flags' := SetBit(flags, 15 - i);
      buf.Write([octet]);
    }
    assert Writable(p) ==> buf.bytes == before + Piece(p, i);
    NextWritten(p, i, before, flags, buf.bytes);
  }

  method PutHeaders(p: Sent, buf: Buffer, flags: nat) returns (ok: bool, flags': nat)
    requires WrittenBefore(p, HEADERS, buf.bytes, flags)
    modifies buf
    ensures ok == (p.headers.Some? ==> Encode(p.headers.value).Some?)
    ensures ok ==> WrittenBefore(p, HEADERS + 1, buf.bytes, flags')
  {
    ghost var before := buf.bytes;
    flags' := flags;
    if p.headers.Some? {
      flags' := SetBit(flags, 15 - HEADERS);
      var table := EncodeTable(p.headers.value);
      if table == None { return false, flags'; }
      EncodeLongStr(buf, table.value);
      assert buf.bytes == before + (Length4(|table.value|) + table.value);
    }
    ok := true;
    assert Writable(p) ==> buf.bytes == before + Piece(p, HEADERS);
    NextWritten(p, HEADERS, before, flags, buf.bytes);
  }

  method PutTimestamp(p: Sent, buf: Buffer, flags: nat) returns (flags': nat)
    requires WrittenBefore(p, TIMESTAMP, buf.bytes, flags)
    modifies buf
    ensures WrittenBefore(p, TIMESTAMP + 1, buf.bytes, flags')
  {
    ghost var before := buf.bytes;
    flags' := flags;
    if !(p.seconds == ZERO_SECONDS && p.nanos == 0) {
      flags' := SetBit(flags, 15 - TIMESTAMP);
      buf.Write(NumberPayload(Int64, p.seconds));
    }
    assert Writable(p) ==> buf.bytes == before + Piece(p, TIMESTAMP);
    NextWritten(p, TIMESTAMP, before, flags, buf.bytes);
  }

  /** The first half of encodeBasicProperties. */
  method EncodeUpToReplyTo(p: Sent, buf: Buffer) returns (ok: bool, flags: nat)
    requires WrittenBefore(p, 0, buf.bytes, 0) && ProperProps(p)
    modifies buf
    ensures !ok ==> !Writable(p)
    ensures ok ==> WrittenBefore(p, 7, buf.bytes, flags)
  {
    TextParts(p);
    hide WrittenBefore, TextOf, Writable, ProperProps, Encode;
    ok, flags := PutText(p, 0, buf, 0);
    if !ok { return; }
    ok, flags := PutText(p, 1, buf, flags);
    if !ok { return; }
    ok, flags := PutHeaders(p, buf, flags);
    if !ok { return; }
    flags := PutOctet(p, DELIVERY_MODE, p.deliveryMode, buf, flags);
    flags := PutOctet(p, PRIORITY, p.priority, buf, flags);
    ok, flags := PutText(p, 5, buf, flags);
    if !ok { return; }
    ok, flags := PutText(p, 6, buf, flags);
  }

  /** The second half. */
  method EncodeFromExpiration(p: Sent, buf: Buffer, before: nat) returns (ok: bool, flags: nat)
    requires WrittenBefore(p, 7, buf.bytes, before) && ProperProps(p)
    modifies buf
    ensures !ok ==> !Writable(p)
    ensures ok ==> WrittenBefore(p, COUNT, buf.bytes, flags)
  {
    TextParts(p);
    hide WrittenBefore, TextOf, Writable, ProperProps, Encode;
    ok, flags := PutText(p, 7, buf, before);
    if !ok { return; }
    ok, flags := PutText(p, 8, buf, flags);
    if !ok { return; }
    flags := PutTimestamp(p, buf, flags);
    ok, flags := PutText(p, 10, buf, flags);
    if !ok { return; }
    ok, flags := PutText(p, 11, buf, flags);
    if !ok { return; }
    ok, flags := PutText(p, 12, buf, flags);
    if !ok { return; }
    ok, flags := PutText(p, 13, buf, flags);
  }

  /** encodeBasicProperties, property by property. */
  method EncodeBasicProperties(p: Sent) returns (r: Option<(Bytes, nat)>)
    requires ProperProps(p)
    ensures r.Some? <==> Writable(p)
    ensures r.Some? ==> r.value == (Pieces(p, 0), Flags(p))
  {
    hide Pieces, PiecesBefore, Writable, WrittenBefore, Encode, TextOf;
    var buf := new Buffer();
    NothingWritten(p);
    hide ProperProps;
    var ok, flags := EncodeUpToReplyTo(p, buf);
    if !ok { return None; }
    ok, flags := EncodeFromExpiration(p, buf, flags);
    if !ok { return None; }
    AllWritten(p, buf.bytes, flags);
    r := Some((buf.bytes, flags));
  }

  lemma NothingWritten(p: Sent)
    requires ProperProps(p)
    ensures WrittenBefore(p, 0, [], 0)
  {
  }

  lemma TextParts(p: Sent)
    requires ProperProps(p)
    ensures Writable(p) ==>
              (forall i | 0 <= i < COUNT && IsText(i) :: |TextOf(p, i)| <= 255)
              && (p.headers.Some? ==> Encode(p.headers.value).Some?)
  {
    hide TextOf, Encode;
  }

  lemma AllWritten(p: Sent, bytes: Bytes, flags: nat)
    requires ProperProps(p) && WrittenBefore(p, COUNT, bytes, flags)
    ensures Writable(p) && bytes == Pieces(p, 0) && flags == Flags(p)
  {
    assert Pow2(2) == 4;
    hide TextOf, Encode;
    assert Writable(p);
    hide Writable, FlagsBefore;
    BeforeAndAfter(p, COUNT);
    assert PiecesBefore(p, COUNT) + [] == PiecesBefore(p, COUNT);
  }

  // ---------------------------------------------------------------- reading properties

  lemma {:induction false} FlaggedNext(word: nat, i: nat, done: seq<nat>)
    requires i < COUNT
    ensures done + Flagged(word, i) == (if BitSet(word, 15 - i) then done + [i] else done) + Flagged(word, i + 1)
  {
  }

  lemma NoFlags(word: nat)
    ensures Flagged(word, COUNT) == []
  {
  }

  /** decodeBasicHeaderFlags; a flag name is its place in the list. */
  method DecodeBasicHeaderFlags(word: nat) returns (flags: seq<nat>)
    ensures flags == Flagged(word, 0)
  {
    NoFlags(word);
    hide BitSet, Flagged;
    flags := [];
    assert [] + Flagged(word, 0) == Flagged(word, 0);
    for i := 0 to COUNT
      invariant flags + Flagged(word, i) == Flagged(word, 0)
    {
      FlaggedNext(word, i, flags);
      if BitSet(word, 15 - i) {
        flags := flags + [i];
      }
    }
    assert flags + [] == flags;
  }

  /** One case of createContentPropertiesTable. */
  method DecodeProperty(p: Parsed, i: nat, r: Reader) returns (p': Option<Parsed>)
    requires r.Valid()
    modifies r
    ensures r.Valid()
    ensures var read := ReadProp(p, i, old(r.Rest()));
            && (p'.Some? <==> read.Some?)
            && (p'.Some? ==> p'.value == read.value.0 && r.Rest() == read.value.1)
  {
    hide UnBE, Decode, Signed;
    ghost var was := r.Rest();
    if i == HEADERS {
      var body := DecodeLong(r);
      if body == None { return None; }
      var table := DecodeTable(body.value);
      p' := if table == None then None else Some(p.(headers := table));
    } else if i == DELIVERY_MODE {
      var octet := r.ReadN(1);
      if octet == None { return None; }
      assert octet.value == [was[0]];
      var mode := octet.value[0];
      p' := if mode > 2 then None else Some(p.(deliveryMode := if mode == 0 then 1 else mode));
    } else if i == PRIORITY {
      var octet := r.ReadN(1);
      if octet == None { return None; }
      assert octet.value == [was[0]];
      p' := if octet.value[0] > 9 then None else Some(p.(priority := octet.value[0]));
    } else if i == TIMESTAMP {
      var octets := r.ReadN(8);
      p' := if octets == None then None else Some(p.(seconds := Signed(8, UnBE(octets.value)), nanos := 0));
    } else if IsText(i) {
      var text := DecodeShortStr(r);
      p' := if text == None then None else Some(SetText(p, i, text.value));
    } else {
      p' := None;
    }
  }

  /** createContentPropertiesTable. */
  method CreateContentPropertiesTable(flags: seq<nat>, r: Reader) returns (p: Option<Parsed>)
    requires r.Valid()
    modifies r
    ensures r.Valid()
    ensures var read := ReadProps(Blank(), flags, old(r.Rest()));
            p == if read == None then None else Some(read.value.0)
  {
    hide ReadProp;
    ghost var was := r.Rest();
    var props: Parsed := Blank();
    for k := 0 to |flags|
      invariant r.Valid() && ReadProps(props, flags[k..], r.Rest()) == ReadProps(Blank(), flags, was)
    {
      assert flags[k..] == [flags[k]] + flags[k + 1..];
      var next := DecodeProperty(props, flags[k], r);
      if next == None { return None; }
      props := next.value;
    }
    p := Some(props);
  }

  /** parseBasicHeader: the fields before the properties, then the properties. */
  method ParseBasicHeaderFrom(channel: nat, payload: Bytes) returns (f: ParsedFrame)
    ensures f == ParseBasicHeader(channel, payload)
  {
    hide UnBE, Flagged, ReadProps;
    var r := new Reader(payload);
    assert payload[0..] == payload;
    var classID := r.ReadN(2);
    if classID == None { return ParseError; }
    var weight := r.ReadN(2);
    if weight == None { return ParseError; }
    assert payload[2..][..2] == payload[2..4] && payload[2..][2..] == payload[4..];
    if UnBE(weight.value) != 0 { return ParseError; }
    var bodySize := r.ReadN(8);
    if bodySize == None { return ParseError; }
    assert payload[4..][..8] == payload[4..12] && payload[4..][8..] == payload[12..];
    var word := r.ReadN(2);
    if word == None { return ParseError; }
    assert payload[12..][..2] == payload[12..14] && payload[12..][2..] == payload[14..];
    var flags := DecodeBasicHeaderFlags(UnBE(word.value));
    var properties := CreateContentPropertiesTable(flags, r);
    f := if properties == None then ParseError
      else HeaderFrame(channel, UnBE(classID.value), UnBE(bodySize.value), properties.value);
  }

  // ---------------------------------------------------------------- body frames and the connection

  lemma ChunkNext(channel: nat, chunk: nat, content: Bytes, start: nat)
    requires chunk > 0 && start < |content|
    ensures var end := Min(start + chunk, |content|);
            BodyFrames(channel, chunk, content[start..])
              == Frame(TYPE_BODY, channel, content[start..end]) + BodyFrames(channel, chunk, content[end..])
  {
    var rest := content[start..];
    var n := Min(chunk, |rest|);
    assert rest[..n] == content[start..start + n] && rest[n..] == content[start + n..];
  }

  /** createBodyFrame. out grows into the buffer allocated for it, which it fills exactly. */
  method CreateBodyFrame(channel: nat, frameMax: nat, content: Bytes) returns (out: Bytes, capacity: nat)
    ensures out == BodyOctets(channel, frameMax, content) && |out| == capacity
  {
    hide Frame, FormatHeader, BodyFrames, FrameCount;
    NoFrames(channel);
    var chunkSize := |content|;
    if frameMax > FRAME_OVERHEAD && frameMax - FRAME_OVERHEAD < chunkSize {
      chunkSize := frameMax - FRAME_OVERHEAD;
    }
    if chunkSize == 0 {
      return FormatHeader(TYPE_BODY, channel, 0) + [FRAME_END], FRAME_OVERHEAD;
    }
    var frames := FrameCount(|content|, chunkSize);
    capacity := |content| + frames * FRAME_OVERHEAD;
    BodySize(channel, chunkSize, content);
    out := [];
    var start := 0;
    assert content[0..] == content;
    assert out + BodyFrames(channel, chunkSize, content) == BodyFrames(channel, chunkSize, content);
    while start < |content|
      invariant start <= |content|
                && out + BodyFrames(channel, chunkSize, content[start..]) == BodyFrames(channel, chunkSize, content)
      decreases |content| - start
    {
      ChunkNext(channel, chunkSize, content, start);
      var end := Min(start + chunkSize, |content|);
      var chunk := content[start..end];
      ghost var before := out;
      out := out + FormatHeader(TYPE_BODY, channel, |chunk|);
      out := out + chunk;
      out := out + [FRAME_END];
      OneFrame(before, channel, chunk, out, BodyFrames(channel, chunkSize, content[end..]));
      start := end;
    }
    assert content[|content|..] == [] && out + [] == out;
  }

  lemma NoFrames(channel: nat)
    ensures forall chunk: nat | chunk > 0 :: BodyFrames(channel, chunk, []) == []
  {
  }

  lemma OneFrame(before: Bytes, channel: nat, chunk: Bytes, after: Bytes, more: Bytes)
    requires after == before + FormatHeader(TYPE_BODY, channel, |chunk|) + chunk + [FRAME_END]
    ensures after + more == before + (Frame(TYPE_BODY, channel, chunk) + more)
  {
  }

  lemma ReadSlices(was: Bytes, header: Bytes)
    requires |was| >= 7 && header == was[..7]
    ensures header[3..] == was[3..7]
  {
  }

  lemma ReadMore(was: Bytes, at: nat, n: nat)
    requires at + n <= |was|
    ensures was[at..][..n] == was[at..at + n] && was[at..][n..] == was[at + n..]
  {
  }

  /** readFrame. A declared size above the limit is refused before anything of the payload is read. */
  method ReadFrameFrom(conn: Reader, frameMax: nat) returns (frame: Option<Bytes>)
    requires conn.Valid()
    modifies conn
    ensures conn.Valid()
    ensures var read := ReadFrame(old(conn.Rest()), frameMax);
            && (frame.Some? <==> read.Some?)
            && (frame.Some? ==> frame.value == read.value.0 && conn.Rest() == read.value.1)
    ensures var was := old(conn.Rest());
            |was| >= 7 && UnBE(was[3..7]) + FRAME_OVERHEAD > frameMax ==> conn.Rest() == was[7..]
  {
    hide UnBE;
    ghost var was := conn.Rest();
    var header := conn.ReadN(7);
    if header == None { return None; }
    ReadSlices(was, header.value);
    var size := UnBE(header.value[3..]);
    if size + FRAME_OVERHEAD > frameMax { return None; }
    var payload := conn.ReadN(size);
    if payload == None { return None; }
    ReadMore(was, 7, size);
    var end := conn.ReadN(1);
    if end == None { return None; }
    ReadMore(was, 7 + size, 1);
    assert end.value == [was[7 + size]];
    if end.value[0] != FRAME_END { return None; }
    frame := Some(header.value + payload.value);
  }
}
