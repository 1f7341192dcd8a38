/**
 Content headers (AMQP 0-9-1, section 4.2.6.1): the basic properties, their flag word and their
 order on the wire. Parsing what was formatted gives the properties back, exactly when the delivery
 mode, the priority and the headers are ones that the parser accepts.
 */
module ContentHeader {
  import opened Collections
  import opened Bytes
  import opened FieldTable
  import opened FieldValues

  /** The basic properties; an empty string, a 0 or the zero time is an absent property. H is the type
      of the headers, which are absent when None. */
  datatype Props<H> = Props(contentType: Bytes, contentEncoding: Bytes, headers: Option<H>, deliveryMode: byte,
                            priority: byte,
                            correlationID: Bytes, replyTo: Bytes, expiration: Bytes, messageID: Bytes,
                            seconds: int, nanos: nat, typ: Bytes, userID: Bytes, appID: Bytes, reserved: Bytes)

  /** The zero time of Go, in seconds since 1970. */
  const ZERO_SECONDS: int := -62135596800

  function Blank<H>(): Props<H> {
    Props([], [], None, 0, 0, [], [], [], [], ZERO_SECONDS, 0, [], [], [], [])
  }

  type Sent = Props<seq<Field>>
  type Parsed = Props<map<Bytes, Decoded>>

  /** The number of properties, in the order of their flags from bit 15 down to bit 2. */
  const COUNT: nat := 14
  const HEADERS: nat := 2
  const DELIVERY_MODE: nat := 3
  const PRIORITY: nat := 4
  const TIMESTAMP: nat := 9

  predicate IsText(i: nat) {
    i < COUNT && i != HEADERS && i != DELIVERY_MODE && i != PRIORITY && i != TIMESTAMP
  }

  function TextOf<H>(p: Props<H>, i: nat): Bytes {
    if i == 0 then p.contentType else if i == 1 then p.contentEncoding
    else if i == 5 then p.correlationID else if i == 6 then p.replyTo
    else if i == 7 then p.expiration else if i == 8 then p.messageID
    else if i == 10 then p.typ else if i == 11 then p.userID
    else if i == 12 then p.appID else p.reserved
  }

  function SetText<H>(p: Props<H>, i: nat, text: Bytes): Props<H> {
    if i == 0 then p.(contentType := text) else if i == 1 then p.(contentEncoding := text)
    else if i == 5 then p.(correlationID := text) else if i == 6 then p.(replyTo := text)
    else if i == 7 then p.(expiration := text) else if i == 8 then p.(messageID := text)
    else if i == 10 then p.(typ := text) else if i == 11 then p.(userID := text)
    else if i == 12 then p.(appID := text) else p.(reserved := text)
  }

  predicate Present<H>(p: Props<H>, i: nat) {
    if i == HEADERS then p.headers.Some?
    else if i == DELIVERY_MODE then p.deliveryMode != 0
    else if i == PRIORITY then p.priority != 0
    else if i == TIMESTAMP then !(p.seconds == ZERO_SECONDS && p.nanos == 0)
    else TextOf(p, i) != []
  }

  // ---------------------------------------------------------------- writing

  predicate ProperProps(p: Sent) {
    && InRange(Int64, p.seconds)
    && (p.headers.Some? ==> forall i | 0 <= i < |p.headers.value| :: ProperField(p.headers.value[i]))
  }

  /** What would make encodeBasicProperties fail. */
  predicate Writable(p: Sent)
    requires ProperProps(p)
  {
    && (forall i | 0 <= i < COUNT && IsText(i) :: |TextOf(p, i)| <= 255)
    && (p.headers.Some? ==> Encode(p.headers.value).Some?)
  }

  /** The octets of one property, none if it is absent. */
  function Piece(p: Sent, i: nat): Bytes
    requires ProperProps(p) && Writable(p) && i < COUNT
  {
    if !Present(p, i) then []
    else if i == HEADERS then Length4(|Encode(p.headers.value).value|) + Encode(p.headers.value).value
    else if i == DELIVERY_MODE then [p.deliveryMode]
    else if i == PRIORITY then [p.priority]
    else if i == TIMESTAMP then NumberPayload(Int64, p.seconds)
    else [|TextOf(p, i)|] + TextOf(p, i)
  }

  /** The properties from i on, one after the other. */
  function Pieces(p: Sent, i: nat): Bytes
    requires ProperProps(p) && Writable(p) && i <= COUNT
    decreases COUNT - i
  {
    if i == COUNT then [] else Piece(p, i) + Pieces(p, i + 1)
  }

  function Pow2(n: nat): nat {
    if n == 0 then 1 else 2 * Pow2(n - 1)
  }

  /** The flags of the properties before i, the first in the highest bit. */
  function FlagsBefore<H>(p: Props<H>, i: nat): nat
    requires i <= COUNT
  {
    if i == 0 then 0 else 2 * FlagsBefore(p, i - 1) + if Present(p, i - 1) then 1 else 0
  }

  /** The flag word: 14 flags and two bits that stay clear. */
  function Flags<H>(p: Props<H>): nat {
    4 * FlagsBefore(p, COUNT)
  }

  // ---------------------------------------------------------------- reading

  /** word & (1 << k) != 0. */
  predicate BitSet(word: nat, k: nat) {
    if k == 0 then word % 2 == 1 else BitSet(word / 2, k - 1)
  }

  /** decodeBasicHeaderFlags, from property i on: the properties whose flag is set, in their order. */
  function Flagged(word: nat, i: nat): seq<nat>
    requires i <= COUNT
    decreases COUNT - i
  {
    if i == COUNT then [] else (if BitSet(word, 15 - i) then [i] else []) + Flagged(word, i + 1)
  }

  function ReadText(data: Bytes): Option<(Bytes, Bytes)> {
    if data == [] || |data| - 1 < data[0] then None else Some((data[1..1 + data[0]], data[1 + data[0]..]))
  }

  /** One case of createContentPropertiesTable. */
  function ReadProp(p: Parsed, i: nat, data: Bytes): Option<(Parsed, Bytes)> {
    if i == HEADERS then
      if |data| < 4 || |data| - 4 < UnBE(data[..4]) then None
      else
        var table := Decode(data[4..4 + UnBE(data[..4])]);
        if table == None then None else Some((p.(headers := table), data[4 + UnBE(data[..4])..]))
    else if i == DELIVERY_MODE then
      if data == [] || data[0] > 2 then None
      else Some((p.(deliveryMode := if data[0] == 0 then 1 else data[0]), data[1..]))
    else if i == PRIORITY then
      if data == [] || data[0] > 9 then None else Some((p.(priority := data[0]), data[1..]))
    else if i == TIMESTAMP then
      if |data| < 8 then None else Some((p.(seconds := Signed(8, UnBE(data[..8])), nanos := 0), data[8..]))
    else if IsText(i) then
      var text := ReadText(data);
      if text == None then None else Some((SetText(p, i, text.value.0), text.value.1))
    else None
  }

  function ReadProps(p: Parsed, flagged: seq<nat>, data: Bytes): Option<(Parsed, Bytes)>
    decreases |flagged|
  {
    if flagged == [] then Some((p, data))
    else
      var next := ReadProp(p, flagged[0], data);
      if next == None then None else ReadProps(next.value.0, flagged[1..], next.value.1)
  }

  // ---------------------------------------------------------------- the flag word

  lemma {:induction false} BitOfFlags<H>(p: Props<H>, n: nat, i: nat)
    requires i < n <= COUNT
    ensures BitSet(FlagsBefore(p, n), n - 1 - i) == Present(p, i)
    decreases n
  {
    var word := FlagsBefore(p, n);
    assert word / 2 == FlagsBefore(p, n - 1);
    if i < n - 1 { BitOfFlags(p, n - 1, i); }
  }

  /** Bit 15 - i of the flag word says whether property i is there. */
  lemma FlagSays<H>(p: Props<H>, i: nat)
    requires i < COUNT
    ensures BitSet(Flags(p), 15 - i) == Present(p, i)
  {
    BitOfFlags(p, COUNT, i);
    var word := Flags(p);
    assert word / 2 / 2 == FlagsBefore(p, COUNT);
    assert BitSet(word, 15 - i) == BitSet(word / 2, 14 - i) == BitSet(word / 2 / 2, 13 - i);
  }

  lemma {:induction false} FlagsFit<H>(p: Props<H>, n: nat)
    requires n <= COUNT
    ensures FlagsBefore(p, n) < Pow2(n)
    decreases n
  {
    if n > 0 { FlagsFit(p, n - 1); }
  }

  lemma FlagWord<H>(p: Props<H>)
    ensures Flags(p) < 0x1_0000
  {
    FlagsFit(p, COUNT);
    assert Pow2(14) == 16384 by {
      assert Pow2(4) == 16;
      assert Pow2(8) == 256;
      assert Pow2(12) == 4096;
    }
  }

  // ---------------------------------------------------------------- round trip

  /** What the parser checks, and nothing else does: the delivery mode and the priority, and that the
      headers can be decoded. */
  predicate Acceptable(p: Sent) {
    && p.deliveryMode <= 2 && p.priority <= 9
    && (p.headers.Some? ==> forall i | 0 <= i < |p.headers.value| :: NoListedDecimalField(p.headers.value[i]))
  }

  predicate AcceptableAt(p: Sent, i: nat) {
    && (i == DELIVERY_MODE ==> p.deliveryMode <= 2)
    && (i == PRIORITY ==> p.priority <= 9)
    && (i == HEADERS && p.headers.Some? ==>
        forall j | 0 <= j < |p.headers.value| :: NoListedDecimalField(p.headers.value[j]))
  }

  /** The properties as they come back: the headers in normal form, the time in whole seconds. */
  function NormalProps(p: Sent): Parsed {
    Props(p.contentType, p.contentEncoding, if p.headers.Some? then Some(NormalFields(p.headers.value)) else None,
          p.deliveryMode, p.priority, p.correlationID, p.replyTo, p.expiration, p.messageID,
          p.seconds, 0, p.typ, p.userID, p.appID, p.reserved)
  }

  /** q has property i as p has it once it is parsed. */
  function Copied(q: Parsed, p: Sent, i: nat): Parsed {
    if !Present(p, i) then q
    else if i == HEADERS then q.(headers := Some(NormalFields(p.headers.value)))
    else if i == DELIVERY_MODE then q.(deliveryMode := p.deliveryMode)
    else if i == PRIORITY then q.(priority := p.priority)
    else if i == TIMESTAMP then q.(seconds := p.seconds, nanos := 0)
    else SetText(q, i, TextOf(p, i))
  }

  function CopiedFrom(q: Parsed, p: Sent, i: nat): Parsed
    requires i <= COUNT
    decreases COUNT - i
  {
    if i == COUNT then q else CopiedFrom(Copied(q, p, i), p, i + 1)
  }

  /** The properties before k as they come back, the others absent. */
  function Half(p: Sent, k: nat): Parsed {
    Props(if k > 0 then p.contentType else [], if k > 1 then p.contentEncoding else [],
          if k > 2 && p.headers.Some? then Some(NormalFields(p.headers.value)) else None,
          if k > 3 then p.deliveryMode else 0, if k > 4 then p.priority else 0,
          if k > 5 then p.correlationID else [], if k > 6 then p.replyTo else [],
          if k > 7 then p.expiration else [], if k > 8 then p.messageID else [],
          if k > 9 then p.seconds else ZERO_SECONDS, 0,
          if k > 10 then p.typ else [], if k > 11 then p.userID else [],
          if k > 12 then p.appID else [], if k > 13 then p.reserved else [])
  }

  lemma CopiedOne(p: Sent, k: nat)
    requires k < COUNT
    ensures Copied(Half(p, k), p, k) == Half(p, k + 1)
  {
    if IsText(k) { CopiedText(p, k); }
  }

  lemma CopiedText(p: Sent, k: nat)
    requires IsText(k)
    ensures Copied(Half(p, k), p, k) == Half(p, k + 1)
  {
    if k < 2 {
      assert k == 0 || k == 1;
    } else if k < 9 {
      assert k == 5 || k == 6 || k == 7 || k == 8;
    } else {
      assert k == 10 || k == 11 || k == 12 || k == 13;
    }
  }

  /** Copying every property that is there into blank properties leaves the rest absent. */
  lemma {:induction false} CopiedAll(p: Sent, k: nat)
    requires k <= COUNT
    ensures CopiedFrom(Half(p, k), p, k) == NormalProps(p)
    decreases COUNT - k
  {
    hide Copied;
    if k < COUNT {
      hide Half, NormalProps;
      CopiedOne(p, k);
      CopiedAll(p, k + 1);
    }
  }

  /** The headers can be written and read: see FieldValues.RoundTrip. */
  predicate HeadersOk(p: Sent)
    requires ProperProps(p)
  {
    p.headers.Some? ==>
      && (forall i | 0 <= i < |p.headers.value| ::
          EncodableField(p.headers.value[i]) && KeysOkField(p.headers.value[i]))
      && |RenderEntries(Entries(p.headers.value))| < TWO_32
  }

  lemma HeadersRead(q: Parsed, p: Sent, rest: Bytes)
    requires ProperProps(p) && Writable(p) && HeadersOk(p) && Present(p, HEADERS)
    ensures ReadProp(q, HEADERS, Piece(p, HEADERS) + rest)
         == if AcceptableAt(p, HEADERS) then Some((Copied(q, p, HEADERS), rest)) else None
  {
    var fields := p.headers.value;
    var body := Encode(fields).value;
    FieldsMean(fields);
    ReadRenderEntries(Entries(fields));
    var data := Length4(|body|) + body + rest;
    UnLength4(|body|);
    assert data[..4] == Length4(|body|) && data[4..4 + |body|] == body && data[4 + |body|..] == rest;
  }

  lemma TextRead(q: Parsed, p: Sent, i: nat, rest: Bytes)
    requires ProperProps(p) && Writable(p) && IsText(i) && Present(p, i)
    ensures ReadProp(q, i, Piece(p, i) + rest) == Some((Copied(q, p, i), rest))
  {
    var text := TextOf(p, i);
    var data := [|text|] + text + rest;
    assert data[1..1 + |text|] == text && data[1 + |text|..] == rest;
  }

  lemma TimeRead(q: Parsed, p: Sent, rest: Bytes)
    requires ProperProps(p) && Writable(p) && Present(p, TIMESTAMP)
    ensures ReadProp(q, TIMESTAMP, Piece(p, TIMESTAMP) + rest) == Some((Copied(q, p, TIMESTAMP), rest))
  {
    NumberMeans(Int64, p.seconds);
    var data := NumberPayload(Int64, p.seconds) + rest;
    assert data[..8] == NumberPayload(Int64, p.seconds) && data[8..] == rest;
  }

  /** One property is read back, and refused exactly when it is not acceptable. */
  lemma PieceRead(q: Parsed, p: Sent, i: nat, rest: Bytes)
    requires ProperProps(p) && Writable(p) && HeadersOk(p) && i < COUNT && Present(p, i)
    ensures ReadProp(q, i, Piece(p, i) + rest) == if AcceptableAt(p, i) then Some((Copied(q, p, i), rest)) else None
  {
    if i == HEADERS {
      HeadersRead(q, p, rest);
    } else if i == TIMESTAMP {
      TimeRead(q, p, rest);
    } else if IsText(i) {
      TextRead(q, p, i, rest);
    } else {
      var data := Piece(p, i) + rest;
      assert data[1..] == rest;
    }
  }

  ghost predicate AcceptableFrom(p: Sent, i: nat) {
    forall j | i <= j < COUNT && Present(p, j) :: AcceptableAt(p, j)
  }

  lemma AcceptableNext(p: Sent, i: nat)
    requires i < COUNT
    ensures AcceptableFrom(p, i) <==> (Present(p, i) ==> AcceptableAt(p, i)) && AcceptableFrom(p, i + 1)
  {
    hide Present, AcceptableAt;
  }

  /** A property that is there, then the rest. */
  lemma NextRead(q: Parsed, p: Sent, i: nat, tail: seq<nat>, more: Bytes)
    requires ProperProps(p) && Writable(p) && HeadersOk(p) && i < COUNT && Present(p, i)
    ensures ReadProps(q, [i] + tail, Piece(p, i) + more) == if AcceptableAt(p, i)
            then ReadProps(Copied(q, p, i), tail, more) else None
  {
    hide Piece, Writable, HeadersOk, ProperProps, AcceptableAt, ReadProp, Copied, Present;
    PieceRead(q, p, i, more);
    assert ([i] + tail)[1..] == tail;
  }

  lemma {:induction false} PropsRead(q: Parsed, p: Sent, i: nat, rest: Bytes)
    requires ProperProps(p) && Writable(p) && HeadersOk(p) && i <= COUNT
    ensures ReadProps(q, Flagged(Flags(p), i), Pieces(p, i) + rest)
         == if AcceptableFrom(p, i) then Some((CopiedFrom(q, p, i), rest)) else None
    decreases COUNT - i
  {
    hide Piece, Writable, HeadersOk, ProperProps, Acceptable, AcceptableAt, ReadProp, Copied, Present, Flags;
    if i == COUNT {
      assert [] + rest == rest;
    } else {
      hide AcceptableFrom, BitSet, ReadProps, Pieces;
      var tail := Flagged(Flags(p), i + 1);
      FlagSays(p, i);
      AcceptableNext(p, i);
      PropsRead(Copied(q, p, i), p, i + 1, rest);
      PieceAndRest(p, i, rest);
      if Present(p, i) {
        NextRead(q, p, i, tail, Pieces(p, i + 1) + rest);
      } else {
        AbsentPiece(q, p, i);
        NothingBefore(tail, Pieces(p, i + 1) + rest);
      }
    }
  }

  lemma NothingBefore(tail: seq<nat>, more: Bytes)
    ensures [] + tail == tail && [] + more == more
  {
  }

  lemma PieceAndRest(p: Sent, i: nat, rest: Bytes)
    requires ProperProps(p) && Writable(p) && i < COUNT
    ensures Pieces(p, i) + rest == Piece(p, i) + (Pieces(p, i + 1) + rest)
  {
    hide Piece, Writable, ProperProps;
  }

  lemma AbsentPiece(q: Parsed, p: Sent, i: nat)
    requires ProperProps(p) && Writable(p) && i < COUNT && !Present(p, i)
    ensures Piece(p, i) == [] && Copied(q, p, i) == q
  {
  }

  lemma AcceptableParts(p: Sent)
    ensures Acceptable(p) <==> AcceptableFrom(p, 0)
  {
    assert Present(p, DELIVERY_MODE) ==> (AcceptableAt(p, DELIVERY_MODE) <==> p.deliveryMode <= 2);
    assert Present(p, PRIORITY) ==> (AcceptableAt(p, PRIORITY) <==> p.priority <= 9);
    assert Present(p, HEADERS) ==>
        (AcceptableAt(p, HEADERS) <==>
         forall i | 0 <= i < |p.headers.value| :: NoListedDecimalField(p.headers.value[i]));
  }

  /** The flag word and the properties, read back from what was written. */
  lemma PropertiesRoundTrip(p: Sent, rest: Bytes)
    requires ProperProps(p) && Writable(p) && HeadersOk(p)
    ensures ReadProps(Blank(), Flagged(Flags(p), 0), Pieces(p, 0) + rest) == if Acceptable(p)
            then Some((NormalProps(p), rest)) else None
  {
    hide Piece, Writable, HeadersOk, ProperProps, Acceptable, AcceptableAt, ReadProp, Copied, Present, Flags;
    PropsRead(Blank(), p, 0, rest);
    CopiedAll(p, 0);
    assert Half(p, 0) == Blank();
    AcceptableParts(p);
  }
}
