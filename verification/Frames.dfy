/**
 Frames (AMQP 0-9-1, sections 4.2.3 and 4.2.6.2): writing content header and body frames, reading
 frames off a connection, parsing them, and the negotiated frame size that the two sides share.
 */
module Frames {
  import opened Collections
  import opened Bytes
  import opened FieldTable
  import opened FieldValues
  import opened ContentHeader

  const FRAME_END: byte := 0xCE
  const FRAME_OVERHEAD: nat := 8
  const FRAME_MIN_SIZE: nat := 4096
  const DEFAULT_FRAME_MAX: nat := 131072
  const TYPE_METHOD: byte := 1
  const TYPE_HEADER: byte := 2
  const TYPE_BODY: byte := 3
  const TYPE_HEARTBEAT: byte := 8
  const BASIC: nat := 60
  const MAX_UINT16: nat := 0xFFFF
  const MAX_UINT32: nat := 0xFFFF_FFFF

  // ---------------------------------------------------------------- tuning

  datatype ServerTuning = ServerTuning(channelMax: nat, frameMax: nat, heartbeat: nat)

  function NewServerTuning(channelMax: nat, frameMax: nat, heartbeat: nat): ServerTuning {
    var size := if frameMax == 0 then DEFAULT_FRAME_MAX
                else if frameMax < FRAME_MIN_SIZE then FRAME_MIN_SIZE
                else frameMax;
    ServerTuning(channelMax, size, heartbeat)
  }

  /** 0 means no limit. */
  function Smallest(a: nat, b: nat, max: nat): nat {
    var a' := if a == 0 then max else a;
    var b' := if b == 0 then max else b;
    if a' < b' then a' else b'
  }

  /** Negotiate; None is the refusal with NOT_ALLOWED. */
  function Negotiate(s: ServerTuning, ok: ServerTuning): Option<ServerTuning> {
    var frameMax := if ok.frameMax == 0 then s.frameMax else ok.frameMax;
    if frameMax < FRAME_MIN_SIZE || frameMax > s.frameMax then None
    else Some(ServerTuning(Smallest(s.channelMax, ok.channelMax, MAX_UINT16), frameMax,
                           if s.heartbeat != 0 && ok.heartbeat > s.heartbeat then s.heartbeat else ok.heartbeat))
  }

  /** What the server offers is what it is configured with, a frame size below the least one raised to that; what
      is agreed is within both offers, where 0 offers any, and it is the most that is: c, f and h stand for any
      other limits. A client's own frame size is refused if it is not within the range. */
  lemma Negotiated(channelMax: nat, frameMax: nat, heartbeat: nat, ok: ServerTuning, c: nat, f: nat, h: nat)
    requires channelMax <= MAX_UINT16 && frameMax <= MAX_UINT32 && ok.channelMax <= MAX_UINT16
             && ok.frameMax <= MAX_UINT32
    ensures var s := NewServerTuning(channelMax, frameMax, heartbeat);
            && s.channelMax == channelMax && s.heartbeat == heartbeat
            && s.frameMax == (if frameMax == 0 then 131072 else if frameMax < 4096 then 4096 else frameMax)
    ensures var s := NewServerTuning(channelMax, frameMax, heartbeat);
            var n := Negotiate(s, ok);
            && (n == None <==> ok.frameMax != 0 && !(FRAME_MIN_SIZE <= ok.frameMax <= s.frameMax))
            && (n.Some? ==>
                  && FRAME_MIN_SIZE <= n.value.frameMax <= s.frameMax <= MAX_UINT32
                  && (ok.frameMax != 0 ==> n.value.frameMax <= ok.frameMax)
                  && (f <= s.frameMax && (ok.frameMax != 0 ==> f <= ok.frameMax) ==> f <= n.value.frameMax)
                  && 1 <= n.value.channelMax <= MAX_UINT16
                  && (channelMax != 0 ==> n.value.channelMax <= channelMax)
                  && (ok.channelMax != 0 ==> n.value.channelMax <= ok.channelMax)
                  && ((c <= MAX_UINT16 && (channelMax != 0 ==> c <= channelMax)
                       && (ok.channelMax != 0 ==> c <= ok.channelMax)) ==> c <= n.value.channelMax)
                  && (heartbeat != 0 ==> n.value.heartbeat <= heartbeat) && n.value.heartbeat <= ok.heartbeat
                  && ((heartbeat != 0 ==> h <= heartbeat) && h <= ok.heartbeat ==> h <= n.value.heartbeat)
                  && (n.value.heartbeat == 0 <==> ok.heartbeat == 0))
  {
  }

  // ---------------------------------------------------------------- writing

  function FormatHeader(typ: byte, channel: nat, payloadSize: nat): (bs: Bytes)
    ensures |bs| == 7
  {
    [typ] + BE(2, channel) + Length4(payloadSize)
  }

  /** A whole frame. */
  function Frame(typ: byte, channel: nat, payload: Bytes): (bs: Bytes)
    ensures |bs| == |payload| + FRAME_OVERHEAD
  {
    FormatHeader(typ, channel, |payload|) + payload + [FRAME_END]
  }

  function HeaderPayload(classID: nat, bodySize: nat, p: Sent): Bytes
    requires ProperProps(p) && Writable(p)
  {
    BE(2, classID) + BE(2, 0) + BE(8, bodySize) + BE(2, Flags(p)) + Pieces(p, 0)
  }

  /** createHeaderFrame; None when a property cannot be written. */
  function CreateHeaderFrame(channel: nat, classID: nat, bodySize: nat, p: Sent): Option<Bytes>
    requires ProperProps(p)
  {
    if Writable(p) then Some(Frame(TYPE_HEADER, channel, HeaderPayload(classID, bodySize, p))) else None
  }

  function Min(a: nat, b: nat): nat {
    if a < b then a else b
  }

  /** The payload size of each body frame. */
  function ChunkSize(frameMax: nat, length: nat): nat {
    if frameMax > FRAME_OVERHEAD && frameMax - FRAME_OVERHEAD < length then frameMax - FRAME_OVERHEAD else length
  }

  function BodyFrames(channel: nat, chunk: nat, content: Bytes): Bytes
    requires chunk > 0
    decreases |content|
  {
    if content == [] then []
    else Frame(TYPE_BODY, channel, content[..Min(chunk, |content|)])
         + BodyFrames(channel, chunk, content[Min(chunk, |content|)..])
  }

  function FrameCount(length: nat, chunk: nat): nat
    requires chunk > 0
  {
    (length + chunk - 1) / chunk
  }

  /** The octets of createBodyFrame. */
  function BodyOctets(channel: nat, frameMax: nat, content: Bytes): Bytes {
    if content == [] then FormatHeader(TYPE_BODY, channel, 0) + [FRAME_END]
    else BodyFrames(channel, ChunkSize(frameMax, |content|), content)
  }

  lemma {:induction false} OneMore(length: nat, chunk: nat)
    requires 0 < chunk < length
    ensures FrameCount(length, chunk) == FrameCount(length - chunk, chunk) + 1
  {
    assert length + chunk - 1 == chunk + (length - chunk + chunk - 1);
    DivMore(length - 1, chunk);
  }

  lemma DivMore(n: nat, d: nat)
    requires d > 0
    ensures (n + d) / d == n / d + 1
  {
    assert n == d * (n / d) + n % d;
    assert n + d == d * (n / d + 1) + n % d;
    DivUnique(n + d, d, n / d + 1, n % d);
  }

  /** The buffer allocated beforehand, len(content) + frames * FRAME_OVERHEAD, is filled exactly. */
  lemma {:induction false} BodySize(channel: nat, chunk: nat, content: Bytes)
    requires chunk > 0
    ensures |BodyFrames(channel, chunk, content)| == |content| + FrameCount(|content|, chunk) * FRAME_OVERHEAD
    decreases |content|
  {
    if content == [] {
      assert (chunk - 1) / chunk == 0 by { DivUnique(chunk - 1, chunk, 0, chunk - 1); }
    } else if |content| <= chunk {
      assert content[|content|..] == [];
      DivUnique(|content| + chunk - 1, chunk, 1, |content| - 1);
    } else {
      OneMore(|content|, chunk);
      BodySize(channel, chunk, content[chunk..]);
    }
  }

  /** What fits goes into one frame, as anything does without a usable limit, and of anything longer the first frame
      takes as much as fits: every frame but the last is full. */
  lemma FullFrames(channel: nat, frameMax: nat, content: Bytes)
    ensures frameMax <= 8 || |content| <= frameMax - 8 ==>
              BodyOctets(channel, frameMax, content) == Frame(TYPE_BODY, channel, content)
    ensures 0 < frameMax - 8 < |content| ==>
              BodyOctets(channel, frameMax, content)
              == Frame(TYPE_BODY, channel, content[..frameMax - 8])
                 + BodyOctets(channel, frameMax, content[frameMax - 8..])
  {
    if frameMax <= 8 || |content| <= frameMax - 8 {
      WholeFrame(channel, frameMax, content);
    } else {
      var rest := content[frameMax - 8..];
      if |rest| <= frameMax - 8 {
        LastFrame(channel, frameMax - 8, rest);
        WholeFrame(channel, frameMax, rest);
      }
    }
    hide Frame, FormatHeader;
  }

  lemma LastFrame(channel: nat, chunk: nat, content: Bytes)
    requires 0 < |content| <= chunk
    ensures BodyFrames(channel, chunk, content) == Frame(TYPE_BODY, channel, content)
  {
    assert content[..|content|] == content && content[|content|..] == [];
    hide Frame;
    assert BodyFrames(channel, chunk, []) == [];
    assert Frame(TYPE_BODY, channel, content) + [] == Frame(TYPE_BODY, channel, content);
  }

  lemma WholeFrame(channel: nat, frameMax: nat, content: Bytes)
    requires frameMax <= 8 || |content| <= frameMax - 8
    ensures BodyOctets(channel, frameMax, content) == Frame(TYPE_BODY, channel, content)
  {
    if content == [] {
      assert FormatHeader(TYPE_BODY, channel, 0) + [] == FormatHeader(TYPE_BODY, channel, 0);
    } else {
      LastFrame(channel, |content|, content);
    }
  }

  // ---------------------------------------------------------------- reading

  /** readFrame on the octets that will arrive: the frame without its end octet, and what is left.
      None is every error: too large for frameMax, cut short, or a wrong end octet. */
  function ReadFrame(stream: Bytes, frameMax: nat): (r: Option<(Bytes, Bytes)>)
    ensures r.Some? ==> |r.value.1| < |stream| && |r.value.0| + 1 <= frameMax
  {
    if |stream| < 7 then None
    else
      var size := UnBE(stream[3..7]);
      if size + FRAME_OVERHEAD > frameMax || |stream| < 7 + size + 1 || stream[7 + size] != FRAME_END then None
      else Some((stream[..7] + stream[7..7 + size], stream[8 + size..]))
  }

  /** What parseFrame gives. A method frame is handed on with its payload; parsing it is not part of
      this model. Panic stands for a slice expression out of range. */
  datatype ParsedFrame = HeaderFrame(channel: nat, classID: nat, bodySize: nat, properties: Parsed)
                       | BodyFrame(body: Bytes) | Heartbeat | MethodFrame(channel: nat, payload: Bytes) | ParseError
                       | Panic

  function ParseBasicHeader(channel: nat, payload: Bytes): ParsedFrame {
    if |payload| < 14 || UnBE(payload[2..4]) != 0 then ParseError
    else
      var read := ReadProps(Blank(), Flagged(UnBE(payload[12..14]), 0), payload[14..]);
      if read == None then ParseError else HeaderFrame(channel, UnBE(payload[..2]), UnBE(payload[4..12]), read.value.0)
  }

  /** The class is taken with a slice expression, whose bound is the capacity of the payload: spare is
      what the array holds behind it. */
  function ParseHeaderFrame(channel: nat, payloadSize: nat, payload: Bytes, spare: Bytes): ParsedFrame {
    if |payload| < payloadSize then ParseError
    else if |payload + spare| < 2 then Panic
    else if UnBE((payload + spare)[..2]) == BASIC then ParseBasicHeader(channel, payload)
    else ParseError
  }

  function ParseBodyFrame(payloadSize: nat, payload: Bytes): ParsedFrame {
    if |payload| < payloadSize then ParseError else BodyFrame(payload)
  }

  /** parseFrame on a slice with spare behind it. The sum 7 + payloadSize is computed in 32 bits. */
  function ParseWithin(frame: Bytes, spare: Bytes): ParsedFrame {
    if |frame| < 7 then ParseError
    else
      var channel, size, payload := UnBE(frame[1..3]), UnBE(frame[3..7]), frame[7..];
      if |frame| < (7 + size) % TWO_32 then ParseError
      else if frame[0] == TYPE_METHOD then MethodFrame(channel, payload)
      else if frame[0] == TYPE_HEADER then ParseHeaderFrame(channel, size, payload, spare)
      else if frame[0] == TYPE_BODY then ParseBodyFrame(size, payload)
      else if frame[0] == TYPE_HEARTBEAT then Heartbeat
      else ParseError
  }

  /** parseFrame on a slice that fills its array. */
  function ParseFrame(frame: Bytes): ParsedFrame {
    ParseWithin(frame, [])
  }

  /** What lies behind a frame has no part in its parsing, but for a header frame whose payload is
      shorter than a class number: that one panics without it and is refused with it. */
  lemma SpareMatters(frame: Bytes, spare: Bytes)
    ensures ParseWithin(frame, spare) != ParseFrame(frame) <==> ParseFrame(frame) == Panic && |frame| - 7 + |spare| >= 2
    ensures ParseWithin(frame, spare) != ParseFrame(frame) ==> ParseWithin(frame, spare) == ParseError
  {
    if |frame| >= 7 {
      var payload := frame[7..];
      assert payload + [] == payload;
      if |payload| >= 2 { assert (payload + spare)[..2] == payload[..2]; }
    }
  }

  /** The octets on which parseFrame panics, whatever they are cut from. */
  lemma PanicExactly(frame: Bytes, spare: Bytes)
    ensures ParseWithin(frame, spare) == Panic <==>
            |frame| >= 7 && frame[0] == TYPE_HEADER && 7 + UnBE(frame[3..7]) <= |frame| && |frame| - 7 + |spare| < 2
  {
    if |frame| >= 7 { Length4Of(frame[3..7]); }
    hide UnBE, ParseBasicHeader;
  }

  /** Octets shorter than their header says are refused, but for two types of frame with a size that
      makes the sum wrap. */
  lemma ShortAccepted(frame: Bytes, spare: Bytes)
    requires |frame| >= 7 && |frame| < 7 + UnBE(frame[3..7])
    ensures ParseWithin(frame, spare) != ParseError <==>
              UnBE(frame[3..7]) >= TWO_32 - 7 && frame[0] in {TYPE_METHOD, TYPE_HEARTBEAT}
  {
    Length4Of(frame[3..7]);
    hide UnBE, ParseBasicHeader;
  }

  /** The parts of what readFrame delivers: as long as its header says, so that the sum does not wrap. */
  lemma FrameWhole(stream: Bytes, frameMax: nat)
    requires frameMax <= MAX_UINT32 && ReadFrame(stream, frameMax).Some?
    ensures var frame := ReadFrame(stream, frameMax).value.0;
            |frame| == 7 + UnBE(frame[3..7]) < TWO_32 && frame[0] == stream[0]
  {
    var frame := ReadFrame(stream, frameMax).value.0;
    assert frame[3..7] == stream[3..7];
    hide UnBE;
  }

  /** A frame that readFrame delivers makes parseFrame panic exactly if it is a header frame with a
      payload of no octets, or of one without another behind it in the array. */
  lemma ReadThenPanic(stream: Bytes, frameMax: nat, spare: Bytes)
    requires frameMax <= MAX_UINT32 && ReadFrame(stream, frameMax).Some?
    ensures var frame := ReadFrame(stream, frameMax).value.0;
            ParseWithin(frame, spare) == Panic <==> frame[0] == TYPE_HEADER && UnBE(frame[3..7]) + |spare| < 2
  {
    FrameWhole(stream, frameMax);
    PanicExactly(ReadFrame(stream, frameMax).value.0, spare);
    hide ReadFrame, ParseWithin, UnBE;
  }

  // ---------------------------------------------------------------- a frame survives the wire

  /** The parts of a frame, wherever it is cut out. */
  lemma FrameParts(typ: byte, channel: nat, payload: Bytes, rest: Bytes)
    requires channel <= MAX_UINT16 && |payload| < TWO_32
    ensures var bs := FormatHeader(typ, channel, |payload|) + payload + rest;
            bs[0] == typ && UnBE(bs[1..3]) == channel && UnBE(bs[3..7]) == |payload|
            && bs[7..7 + |payload|] == payload && bs[7 + |payload|..] == rest
  {
    var bs := FormatHeader(typ, channel, |payload|) + payload + rest;
    FourOctets();
    UnBEOfBE(2, channel);
    UnLength4(|payload|);
    assert bs[1..3] == BE(2, channel) && bs[3..7] == Length4(|payload|);
  }

  /** A frame that fits is read off the connection, and what follows it stays. */
  lemma FrameRead(typ: byte, channel: nat, payload: Bytes, rest: Bytes, frameMax: nat)
    requires channel <= MAX_UINT16 && |payload| < TWO_32
    ensures ReadFrame(Frame(typ, channel, payload) + rest, frameMax)
         == if |payload| + FRAME_OVERHEAD > frameMax then None
           else Some((FormatHeader(typ, channel, |payload|) + payload, rest))
  {
    var stream := Frame(typ, channel, payload) + rest;
    var n := |payload|;
    FrameParts(typ, channel, payload, [FRAME_END] + rest);
    assert stream == FormatHeader(typ, channel, n) + payload + ([FRAME_END] + rest);
    hide FormatHeader, UnBE;
    assert stream[7 + n] == FRAME_END;
    assert stream[8 + n..] == rest;
    assert stream[..7] == FormatHeader(typ, channel, n);
  }

  /** Such a frame gets through: every header frame with a payload shorter than two octets is delivered,
      whatever follows it, and panics unless its array holds more. */
  lemma ShortHeaderPanics(channel: nat, payload: Bytes, rest: Bytes, frameMax: nat)
    requires channel <= MAX_UINT16 && |payload| < 2 && |payload| + FRAME_OVERHEAD <= frameMax <= MAX_UINT32
    ensures var read := ReadFrame(Frame(TYPE_HEADER, channel, payload) + rest, frameMax);
            read.Some? && read.value.1 == rest && ParseFrame(read.value.0) == Panic
  {
    FrameRead(TYPE_HEADER, channel, payload, rest, frameMax);
    FrameParts(TYPE_HEADER, channel, payload, []);
    var frame := FormatHeader(TYPE_HEADER, channel, |payload|) + payload;
    assert FormatHeader(TYPE_HEADER, channel, |payload|) + payload + [] == frame;
    PanicExactly(frame, []);
  }

  /** The shortest one: the array of readFrame's header has seven octets and nothing is appended to it. */
  lemma EmptyHeaderPanics()
    ensures ReadFrame([TYPE_HEADER, 0, 1, 0, 0, 0, 0, FRAME_END], FRAME_MIN_SIZE)
            == Some(([TYPE_HEADER, 0, 1, 0, 0, 0, 0], []))
    ensures ParseFrame([TYPE_HEADER, 0, 1, 0, 0, 0, 0]) == Panic
  {
    var frame: Bytes := [TYPE_HEADER, 0, 1, 0, 0, 0, 0];
    var stream: Bytes := frame + [FRAME_END];
    assert stream == [TYPE_HEADER, 0, 1, 0, 0, 0, 0, FRAME_END];
    FourOctets();
    UnBEOfBE(4, 0);
    assert stream[3..7] == BE(4, 0) && frame[3..7] == BE(4, 0);
    assert stream[..7] + stream[7..7] == frame && stream[8..] == [];
    PanicExactly(frame, []);
  }

  /** The octets of a whole stream, frame by frame: None if one of them is refused. */
  function ReadAll(stream: Bytes, frameMax: nat): Option<seq<ParsedFrame>>
    decreases |stream|
  {
    if stream == [] then Some([])
    else
      var next := ReadFrame(stream, frameMax);
      if next == None then None
      else
        var rest := ReadAll(next.value.1, frameMax);
        if rest == None then None else Some([ParseFrame(next.value.0)] + rest.value)
  }

  function BodyOf(frames: seq<ParsedFrame>): Bytes {
    if frames == [] then []
    else (if frames[0].BodyFrame? then frames[0].body else []) + BodyOf(frames[1..])
  }

  ghost predicate AllBodies(frames: seq<ParsedFrame>) {
    forall i | 0 <= i < |frames| :: frames[i].BodyFrame?
  }

  lemma BodyParsed(channel: nat, payload: Bytes)
    requires channel <= MAX_UINT16 && |payload| < TWO_32
    ensures ParseFrame(FormatHeader(TYPE_BODY, channel, |payload|) + payload) == BodyFrame(payload)
  {
    var frame := FormatHeader(TYPE_BODY, channel, |payload|) + payload;
    FrameParts(TYPE_BODY, channel, payload, []);
    assert FormatHeader(TYPE_BODY, channel, |payload|) + payload + [] == frame;
    hide FormatHeader, UnBE;
    assert frame[7..] == payload;
  }

  /** Every frame fits, and reading them all gives the content back. */
  lemma {:induction false} BodyFramesRead(channel: nat, frameMax: nat, chunk: nat, content: Bytes)
    requires channel <= MAX_UINT16 && 0 < chunk && chunk + FRAME_OVERHEAD <= frameMax <= MAX_UINT32
    ensures var read := ReadAll(BodyFrames(channel, chunk, content), frameMax);
            read.Some? && AllBodies(read.value) && BodyOf(read.value) == content
    decreases |content|
  {
    hide Frame, FormatHeader, ParseFrame, ReadFrame;
    if content != [] {
      var n := Min(chunk, |content|);
      var first, rest := content[..n], content[n..];
      BodyFramesRead(channel, frameMax, chunk, rest);
      OneBodyRead(channel, frameMax, first, BodyFrames(channel, chunk, rest));
      var more := ReadAll(BodyFrames(channel, chunk, rest), frameMax).value;
      hide ReadAll, BodyFrames;
      assert ([BodyFrame(first)] + more)[1..] == more;
      assert first + rest == content;
    }
  }

  lemma OneBodyRead(channel: nat, frameMax: nat, payload: Bytes, rest: Bytes)
    requires channel <= MAX_UINT16 && |payload| + FRAME_OVERHEAD <= frameMax <= MAX_UINT32
             && ReadAll(rest, frameMax).Some?
    ensures ReadAll(Frame(TYPE_BODY, channel, payload) + rest, frameMax)
            == Some([BodyFrame(payload)] + ReadAll(rest, frameMax).value)
  {
    FrameRead(TYPE_BODY, channel, payload, rest, frameMax);
    BodyParsed(channel, payload);
    hide Frame, FormatHeader, ParseFrame, ReadFrame;
  }

  lemma ChunkFits(frameMax: nat, length: nat)
    requires FRAME_MIN_SIZE <= frameMax && length > 0
    ensures 0 < ChunkSize(frameMax, length) && ChunkSize(frameMax, length) + FRAME_OVERHEAD <= frameMax
  {
  }

  /** Body framing, for every content and every frame size that can be negotiated: the frames are
      accepted by readFrame under that size, each is a body frame, and together they carry the content,
      also when it is empty. */
  lemma BodyRoundTrip(channelMax: nat, serverMax: nat, heartbeat: nat, ok: ServerTuning, channel: nat, content: Bytes)
    requires channelMax <= MAX_UINT16 && serverMax <= MAX_UINT32 && ok.channelMax <= MAX_UINT16
             && ok.frameMax <= MAX_UINT32
    requires channel <= MAX_UINT16
    requires Negotiate(NewServerTuning(channelMax, serverMax, heartbeat), ok).Some?
    ensures var frameMax := Negotiate(NewServerTuning(channelMax, serverMax, heartbeat), ok).value.frameMax;
            var read := ReadAll(BodyOctets(channel, frameMax, content), frameMax);
            read.Some? && AllBodies(read.value) && read.value != [] && BodyOf(read.value) == content
  {
    var frameMax := Negotiate(NewServerTuning(channelMax, serverMax, heartbeat), ok).value.frameMax;
    Negotiated(channelMax, serverMax, heartbeat, ok, 0, 0, 0);
    if content == [] {
      EmptyBodyRead(channel, frameMax);
    } else {
      ChunkFits(frameMax, |content|);
      BodyFramesRead(channel, frameMax, ChunkSize(frameMax, |content|), content);
    }
  }

  lemma EmptyBodyRead(channel: nat, frameMax: nat)
    requires channel <= MAX_UINT16 && FRAME_MIN_SIZE <= frameMax <= MAX_UINT32
    ensures ReadAll(BodyOctets(channel, frameMax, []), frameMax) == Some([BodyFrame([])])
  {
    var stream := FormatHeader(TYPE_BODY, channel, 0) + [FRAME_END];
    FrameRead(TYPE_BODY, channel, [], [], frameMax);
    BodyParsed(channel, []);
    assert FormatHeader(TYPE_BODY, channel, 0) + [] == FormatHeader(TYPE_BODY, channel, 0);
    assert Frame(TYPE_BODY, channel, []) + [] == stream;
    hide FormatHeader, ParseFrame, ReadFrame;
    assert ReadAll([], frameMax) == Some([]);
    assert [BodyFrame([])] + [] == [BodyFrame([])];
  }

  // ---------------------------------------------------------------- content headers

  lemma Slices(a: Bytes, b: Bytes, c: Bytes, d: Bytes, tail: Bytes)
    requires |a| == 2 && |b| == 2 && |c| == 8 && |d| == 2
    ensures var bs := a + b + c + d + tail;
            |bs| >= 14 && bs[..2] == a && bs[2..4] == b && bs[4..12] == c && bs[12..14] == d && bs[14..] == tail
  {
  }

  lemma HeaderParts(classID: nat, bodySize: nat, flags: nat, tail: Bytes)
    requires classID < 0x1_0000 && bodySize < 0x1_0000_0000_0000_0000 && flags < 0x1_0000
    ensures var payload := BE(2, classID) + BE(2, 0) + BE(8, bodySize) + BE(2, flags) + tail;
            && |payload| >= 14
            && UnBE(payload[..2]) == classID && UnBE(payload[2..4]) == 0 && UnBE(payload[4..12]) == bodySize
            && UnBE(payload[12..14]) == flags && payload[14..] == tail
  {
    FourOctets();
    UnBEOfBE(2, classID);
    UnBEOfBE(2, 0);
    UnBEOfBE(8, bodySize);
    UnBEOfBE(2, flags);
    hide BE, UnBE;
    Slices(BE(2, classID), BE(2, 0), BE(8, bodySize), BE(2, flags), tail);
  }

  lemma BasicHeaderFields(channel: nat, payload: Bytes, classID: nat, bodySize: nat, flags: nat, tail: Bytes)
    requires |payload| >= 14 && UnBE(payload[..2]) == classID && UnBE(payload[2..4]) == 0
    requires UnBE(payload[4..12]) == bodySize && UnBE(payload[12..14]) == flags && payload[14..] == tail
    ensures var read := ReadProps(Blank(), Flagged(flags, 0), tail);
            ParseBasicHeader(channel, payload) == if read == None then ParseError
              else HeaderFrame(channel, classID, bodySize, read.value.0)
  {
    hide UnBE, ReadProps, Flagged;
  }

  lemma PayloadIs(classID: nat, bodySize: nat, p: Sent, rest: Bytes)
    requires ProperProps(p) && Writable(p)
    ensures HeaderPayload(classID, bodySize, p) + rest
         == BE(2, classID) + BE(2, 0) + BE(8, bodySize) + BE(2, Flags(p)) + (Pieces(p, 0) + rest)
    ensures |HeaderPayload(classID, bodySize, p)| >= 14
  {
    hide BE, Flags, Pieces, ProperProps, Writable;
  }

  lemma HeaderParsed(channel: nat, bodySize: nat, p: Sent, rest: Bytes)
    requires ProperProps(p) && Writable(p) && HeadersOk(p) && bodySize < 0x1_0000_0000_0000_0000
    ensures ParseBasicHeader(channel, HeaderPayload(BASIC, bodySize, p) + rest)
         == if Acceptable(p) then HeaderFrame(channel, BASIC, bodySize, NormalProps(p)) else ParseError
    ensures |HeaderPayload(BASIC, bodySize, p)| >= 14 && UnBE((HeaderPayload(BASIC, bodySize, p) + rest)[..2]) == BASIC
  {
    assert BASIC < 0x1_0000;
    hide *;
    FlagWord(p);
    PayloadIs(BASIC, bodySize, p, rest);
    HeaderParts(BASIC, bodySize, Flags(p), Pieces(p, 0) + rest);
    PropertiesRoundTrip(p, rest);
    BasicHeaderFields(channel, HeaderPayload(BASIC, bodySize, p) + rest, BASIC, bodySize, Flags(p),
                      Pieces(p, 0) + rest);
  }

  /** Content header round trip. For all properties that can be written, parsing the frame gives back the
      body size and the properties, absent ones included, the time in whole seconds; and it fails if, and
      only if, the delivery mode is above 2, the priority above 9, or the headers have a decimal directly
      in a list. The same holds of the frame as readFrame delivers it, without its end octet. */
  lemma HeaderRoundTrip(channel: nat, bodySize: nat, p: Sent)
    requires ProperProps(p) && Writable(p) && HeadersOk(p)
    requires channel <= MAX_UINT16 && bodySize < 0x1_0000_0000_0000_0000
             && |HeaderPayload(BASIC, bodySize, p)| + 7 < TWO_32
    ensures var frame := CreateHeaderFrame(channel, BASIC, bodySize, p).value;
            var result := if Acceptable(p) then HeaderFrame(channel, BASIC, bodySize, NormalProps(p)) else ParseError;
            ParseFrame(frame) == result && ParseFrame(frame[..|frame| - 1]) == result
  {
    var payload := HeaderPayload(BASIC, bodySize, p);
    HeaderParsedAny(channel, bodySize, p, [FRAME_END]);
    HeaderParsedAny(channel, bodySize, p, []);
    var frame := Frame(TYPE_HEADER, channel, payload);
    var head := FormatHeader(TYPE_HEADER, channel, |payload|);
    assert frame[..|frame| - 1] == head + payload + [];
  }

  lemma HeaderClass(channel: nat, size: nat, payload: Bytes)
    requires 2 <= size <= |payload| && UnBE(payload[..2]) == BASIC
    ensures ParseHeaderFrame(channel, size, payload, []) == ParseBasicHeader(channel, payload)
  {
    hide UnBE, ParseBasicHeader;
    assert payload + [] == payload;
  }

  lemma HeaderDispatch(frame: Bytes, size: nat, payload: Bytes)
    requires |frame| >= 7 && frame[0] == TYPE_HEADER && UnBE(frame[3..7]) == size && frame[7..] == payload
    requires 2 <= size <= |payload| && 7 + size < TWO_32 && UnBE(payload[..2]) == BASIC
    ensures ParseFrame(frame) == ParseBasicHeader(UnBE(frame[1..3]), payload)
  {
    hide UnBE, ParseBasicHeader;
    HeaderClass(UnBE(frame[1..3]), size, payload);
  }

  /** A header frame, wherever it is cut off, is parsed by its payload. */
  lemma HeaderFrameParsed(channel: nat, payload: Bytes, rest: Bytes)
    requires channel <= MAX_UINT16 && 14 <= |payload| && |payload| + 7 < TWO_32
    requires UnBE((payload + rest)[..2]) == BASIC
    ensures ParseFrame(FormatHeader(TYPE_HEADER, channel, |payload|) + payload + rest)
            == ParseBasicHeader(channel, payload + rest)
  {
    hide FormatHeader, UnBE, ParseBasicHeader, ParseFrame;
    FrameParts(TYPE_HEADER, channel, payload, rest);
    var frame := FormatHeader(TYPE_HEADER, channel, |payload|) + payload + rest;
    assert frame[7..] == payload + rest;
    HeaderDispatch(frame, |payload|, payload + rest);
  }

  lemma HeaderParsedAny(channel: nat, bodySize: nat, p: Sent, rest: Bytes)
    requires ProperProps(p) && Writable(p) && HeadersOk(p)
    requires channel <= MAX_UINT16 && bodySize < 0x1_0000_0000_0000_0000
             && |HeaderPayload(BASIC, bodySize, p)| + 7 < TWO_32
    ensures ParseFrame(FormatHeader(TYPE_HEADER, channel, |HeaderPayload(BASIC, bodySize, p)|)
                       + HeaderPayload(BASIC, bodySize, p) + rest)
         == if Acceptable(p) then HeaderFrame(channel, BASIC, bodySize, NormalProps(p)) else ParseError
  {
    hide *;
    HeaderParsed(channel, bodySize, p, rest);
    HeaderFrameParsed(channel, HeaderPayload(BASIC, bodySize, p), rest);
  }
}
