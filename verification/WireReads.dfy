/**
 The readers on octets of any kind, also those that no encoder of this model writes: exactly what they accept,
 and what they make of it.
 */
module WireReads {
  import opened Collections
  import opened Bytes
  import opened FieldTable
  import opened FieldValues
  import opened ContentHeader
  import opened Frames
  import opened WireOctets

  // ---------------------------------------------------------------- frames

  function Word(high: nat, low: nat): nat {
    0x100 * high + low
  }

  /** readFrame delivers a frame exactly if the stream begins with it and the end octet, it is as long as its
      header says, and with its end octet it is within the limit; the rest stays. */
  lemma FrameReadExactly(stream: Bytes, frameMax: nat, frame: Bytes, rest: Bytes)
    ensures ReadFrame(stream, frameMax) == Some((frame, rest)) <==>
            && |frame| >= 7 && |frame| == 7 + UnBE(frame[3..7]) && |frame| + 1 <= frameMax
            && stream == frame + [0xCE] + rest
  {
    hide UnBE;
    if stream == frame + [0xCE] + rest && |frame| >= 7 && |frame| == 7 + UnBE(frame[3..7]) {
      assert stream[3..7] == frame[3..7];
      assert stream[..7] + stream[7..|frame|] == frame;
      assert stream[|frame| + 1..] == rest;
    }
    if ReadFrame(stream, frameMax) == Some((frame, rest)) {
      assert frame[3..7] == stream[3..7];
      assert stream == stream[..7] + stream[7..|frame|] + [stream[|frame|]] + stream[|frame| + 1..];
    }
  }

  /** What becomes of a delivered frame, type by type. */
  lemma ParsedByType(frame: Bytes, spare: Bytes)
    requires |frame| >= 7 && |frame| == 7 + UnBE(frame[3..7]) < TWO_32
    ensures frame[0] == 1 ==> ParseWithin(frame, spare) == MethodFrame(Word(frame[1], frame[2]), frame[7..])
    ensures frame[0] == 3 ==> ParseWithin(frame, spare) == BodyFrame(frame[7..])
    ensures frame[0] == 8 ==> ParseWithin(frame, spare) == Heartbeat
    ensures frame[0] == 2 && |frame| >= 9 ==>
              ParseWithin(frame, spare) == if frame[7] == 0 && frame[8] == 60
              then ParseBasicHeader(Word(frame[1], frame[2]), frame[7..]) else ParseError
    ensures frame[0] !in {1, 2, 3, 8} ==> ParseWithin(frame, spare) == ParseError
  {
    hide UnBE, ParseBasicHeader;
    TwoOctets(frame[1..3]);
    if |frame| >= 9 {
      var payload := frame[7..];
      assert (payload + spare)[..2] == [frame[7], frame[8]];
      TwoOctets((payload + spare)[..2]);
    }
  }

  lemma TwoOctets(bs: Bytes)
    requires |bs| == 2
    ensures UnBE(bs) == Word(bs[0], bs[1])
  {
    ReadsBig(bs[0], bs[1], 0, 0);
    hide UnBE;
    assert bs == [bs[0], bs[1]];
  }

  /** A content header is accepted exactly if it has its fourteen octets, a weight of 0, and after them the
      properties that its flags tell; its class, its body size and its properties are what they say. */
  lemma HeaderParsedExactly(channel: nat, payload: Bytes, f: ParsedFrame)
    ensures ParseBasicHeader(channel, payload) == f && f != ParseError <==>
            && f.HeaderFrame? && |payload| >= 14 && payload[2] == 0 && payload[3] == 0
            && f.channel == channel && f.classID == Word(payload[0], payload[1])
            && f.bodySize == UnBE(payload[4..12])
            && var read := ReadProps(Blank(), Flagged(Word(payload[12], payload[13]), 0), payload[14..]);
               read.Some? && f.properties == read.value.0
  {
    hide UnBE, ReadProps, Flagged;
    if |payload| >= 14 {
      TwoOctets(payload[..2]);
      TwoOctets(payload[2..4]);
      TwoOctets(payload[12..14]);
    }
  }

  // ---------------------------------------------------------------- properties

  lemma {:induction false} BitIs(word: nat, k: nat)
    ensures Pow2(k) > 0 && (BitSet(word, k) <==> word / Pow2(k) % 2 == 1)
    decreases k
  {
    if k > 0 {
      BitIs(word / 2, k - 1);
      HalfFirst(word, Pow2(k - 1));
    }
  }

  lemma HalfFirst(n: nat, p: nat)
    requires p > 0
    ensures n / 2 / p == n / (2 * p)
  {
    var a, b := n / 2 / p, n / 2 % p;
    assert n / 2 == p * a + b;
    assert n == 2 * (p * a + b) + n % 2;
    assert 2 * (p * a + b) == 2 * p * a + 2 * b;
    DivUnique(n, 2 * p, a, 2 * b + n % 2);
  }

  /** The flags of any word: property i is told by bit 15 - i; they come in this order; bits 1 and 0 tell
      nothing. */
  lemma FlaggedExactly(word: nat, i: nat)
    ensures i in Flagged(word, 0) <==> i < 14 && Pow2(15 - i) > 0 && word / Pow2(15 - i) % 2 == 1
    ensures forall j, k | 0 <= j < k < |Flagged(word, 0)| :: Flagged(word, 0)[j] < Flagged(word, 0)[k]
  {
    hide Flagged, BitSet, Pow2;
    FlaggedFrom(word, 0);
    if i < 14 { BitIs(word, 15 - i); }
  }

  lemma FlagFirst(word: nat, i: nat)
    requires i < COUNT
    ensures Flagged(word, i) == (if BitSet(word, 15 - i) then [i] else []) + Flagged(word, i + 1)
  {
  }

  lemma {:induction false} FlaggedFrom(word: nat, from: nat)
    requires from <= COUNT
    ensures forall i :: i in Flagged(word, from) <==> from <= i < COUNT && BitSet(word, 15 - i)
    ensures forall j, k | 0 <= j < k < |Flagged(word, from)| :: Flagged(word, from)[j] < Flagged(word, from)[k]
    decreases COUNT - from
  {
    hide BitSet;
    if from < COUNT {
      FlaggedFrom(word, from + 1);
      FlagFirst(word, from);
      hide Flagged;
      var rest := Flagged(word, from + 1);
      assert forall k | 0 <= k < |rest| :: rest[k] in rest;
    }
  }

  /** The octets are a value of property i, and make q of p. */
  ghost predicate ValueOf(i: nat, octets: Bytes, p: Parsed, q: Parsed) {
    if i == 2 then
      && |octets| >= 4 && UnBE(octets[..4]) == |octets| - 4
      && Decode(octets[4..]).Some? && q == p.(headers := Decode(octets[4..]))
    else if i == 3 then |octets| == 1 && octets[0] <= 2 && q.deliveryMode == (if octets[0] == 0 then 1 else octets[0])
                        && q == p.(deliveryMode := q.deliveryMode)
    else if i == 4 then |octets| == 1 && octets[0] <= 9 && q == p.(priority := octets[0])
    else if i == 9 then |octets| == 8 && q == p.(seconds := Signed(8, UnBE(octets)), nanos := 0)
    else i < 14 && |octets| >= 1 && octets[0] == |octets| - 1 && q == SetText(p, i, octets[1..])
  }

  /** A property is read exactly if the octets begin with a value of it; a delivery mode of 0 counts as 1. */
  lemma PropReadExactly(p: Parsed, i: nat, data: Bytes, q: Parsed, rest: Bytes)
    ensures ReadProp(p, i, data) == Some((q, rest)) <==>
            && |rest| <= |data| && data[|data| - |rest|..] == rest && ValueOf(i, data[..|data| - |rest|], p, q)
  {
    hide UnBE, Decode, Signed;
    if i == 2 {
      HeadersReadExactly(p, data, q, rest);
    } else if i == 3 || i == 4 || i == 9 {
      if |rest| <= |data| && data[|data| - |rest|..] == rest {
        assert data == data[..|data| - |rest|] + rest;
      }
    } else {
      TextReadExactly(p, i, data, q, rest);
    }
  }

  lemma HeadersReadExactly(p: Parsed, data: Bytes, q: Parsed, rest: Bytes)
    ensures ReadProp(p, 2, data) == Some((q, rest)) <==>
            && |rest| <= |data| && data[|data| - |rest|..] == rest && ValueOf(2, data[..|data| - |rest|], p, q)
  {
    hide UnBE, Decode;
    if |rest| <= |data| && data[|data| - |rest|..] == rest {
      var octets := data[..|data| - |rest|];
      if |octets| >= 4 {
        assert octets[..4] == data[..4];
        if UnBE(data[..4]) == |octets| - 4 { assert octets[4..] == data[4..4 + UnBE(data[..4])]; }
      }
    }
  }

  lemma TextCut(data: Bytes, text: Bytes, rest: Bytes)
    ensures ReadText(data) == Some((text, rest)) <==> |text| <= 255 && data == [|text|] + text + rest
  {
    if |text| <= 255 && data == [|text|] + text + rest {
      assert data[1..1 + |text|] == text && data[1 + |text|..] == rest;
    }
    if ReadText(data) == Some((text, rest)) {
      assert data == [data[0]] + data[1..1 + data[0]] + data[1 + data[0]..];
    }
  }

  lemma PropOfText(p: Parsed, i: nat, data: Bytes)
    requires i != 2 && i != 3 && i != 4 && i != 9
    ensures ReadProp(p, i, data) == if i >= 14 || ReadText(data) == None then None
            else Some((SetText(p, i, ReadText(data).value.0), ReadText(data).value.1))
  {
    hide SetText, ReadText, UnBE, Decode, Signed;
  }

  lemma TextReadExactly(p: Parsed, i: nat, data: Bytes, q: Parsed, rest: Bytes)
    requires i != 2 && i != 3 && i != 4 && i != 9
    ensures ReadProp(p, i, data) == Some((q, rest)) <==>
            && |rest| <= |data| && data[|data| - |rest|..] == rest && ValueOf(i, data[..|data| - |rest|], p, q)
  {
    hide SetText, ReadText, ReadProp, UnBE, Decode, Signed;
    PropOfText(p, i, data);
    if |rest| <= |data| && data[|data| - |rest|..] == rest {
      var octets := data[..|data| - |rest|];
      assert data == octets + rest;
      if |octets| >= 1 && octets[0] == |octets| - 1 {
        assert octets == [|octets[1..]|] + octets[1..];
        TextCut(data, octets[1..], rest);
      }
    }
    if ReadText(data).Some? {
      var text := ReadText(data).value.0;
      TextCut(data, text, ReadText(data).value.1);
      assert ([|text|] + text)[1..] == text;
    }
  }

  // ---------------------------------------------------------------- field values

  /** Values that are read though they are not written, or not in this way: any octet but 0 is true, and there
      is a short string, which is the same as a long one. */
  lemma OctetsMean(octet: byte, text: Bytes)
    requires |text| <= 255
    ensures Meaning(Fixed(0x74, [octet])) == DBool(octet != 0) && Meaning(Fixed(0x56, [])) == DNull
    ensures Render(Short(text)) == [0x73, |text|] + text && Meaning(Short(text)) == Meaning(Long(text)) == DStr(text)
  {
  }
}
