/**
 The octets themselves: what is on the wire for every type of field value, for a list of properties and for a
 frame, written out, so that tags, lengths, orders and flags are the protocol's and the most significant octet
 comes first.
 */
module WireOctets {
  import opened Collections
  import opened Bytes
  import opened FieldTable
  import opened FieldValues
  import opened ContentHeader
  import opened Frames

  // ---------------------------------------------------------------- numbers

  function Two(n: nat): Bytes {
    [n / 0x100 % 256, n % 256]
  }

  function Four(n: nat): Bytes {
    [n / 0x100_0000 % 256, n / 0x1_0000 % 256, n / 0x100 % 256, n % 256]
  }

  function Eight(n: nat): Bytes {
    [n / 0x100_0000_0000_0000 % 256, n / 0x1_0000_0000_0000 % 256, n / 0x100_0000_0000 % 256, n / 0x1_0000_0000 % 256,
     n / 0x100_0000 % 256, n / 0x1_0000 % 256, n / 0x100 % 256, n % 256]
  }

  lemma Powers()
    ensures Pow256(0) == 1 && Pow256(1) == 0x100 && Pow256(2) == 0x1_0000 && Pow256(3) == 0x100_0000
    ensures Pow256(4) == 0x1_0000_0000 && Pow256(5) == 0x100_0000_0000 && Pow256(6) == 0x1_0000_0000_0000
    ensures Pow256(7) == 0x100_0000_0000_0000
  {
    FourOctets();
    assert Pow256(3) == 256 * Pow256(2);
    assert Pow256(5) == 256 * Pow256(4);
    assert Pow256(6) == 256 * Pow256(5);
    assert Pow256(7) == 256 * Pow256(6);
  }

  lemma One(n: nat)
    ensures BE(1, n) == [n % 256]
  {
    assert BE(0, n / 256) == [];
  }

  lemma BigEndian2(n: nat)
    ensures BE(2, n) == Two(n)
  {
    Powers();
    BEAt(2, n, 0);
    BEAt(2, n, 1);
    hide BE, Pow256;
  }

  lemma BigEndian4(n: nat)
    ensures BE(4, n) == Four(n)
  {
    Powers();
    BEAt(4, n, 0);
    BEAt(4, n, 1);
    BEAt(4, n, 2);
    BEAt(4, n, 3);
    hide BE, Pow256;
  }

  lemma BigEndian8(n: nat)
    ensures BE(8, n) == Eight(n)
  {
    Powers();
    BEAt(8, n, 0);
    BEAt(8, n, 1);
    BEAt(8, n, 2);
    BEAt(8, n, 3);
    BEAt(8, n, 4);
    BEAt(8, n, 5);
    BEAt(8, n, 6);
    BEAt(8, n, 7);
    hide BE, Pow256;
  }

  /** Lengths and numbers are read in the same way. */
  lemma ReadsBig(a: byte, b: byte, c: byte, d: byte)
    ensures UnBE([a, b]) == 0x100 * a + b
    ensures UnBE([a, b, c, d]) == 0x100_0000 * a + 0x1_0000 * b + 0x100 * c + d
  {
    Powers();
    UnBEFirst([a, b]);
    UnBEFirst([b]);
    UnBEFirst([a, b, c, d]);
    assert [a, b, c, d][1..] == [b, c, d];
    UnBEFirst([b, c, d]);
    assert [b, c, d][1..] == [c, d];
    UnBEFirst([c, d]);
    assert [c, d][1..] == [d];
    UnBEFirst([d]);
    hide UnBE, Pow256;
    assert UnBE([]) == 0 by { NoOctets(); }
  }

  lemma NoOctets()
    ensures UnBE([]) == 0
  {
  }

  // ---------------------------------------------------------------- field values

  /** The unsigned types, and floats, which are the octets that represent them. */
  lemma UnsignedOctets(n: nat)
    ensures n < 0x100 ==> InRange(UInt8, n) && Render(Tree(Number(UInt8, n))) == [0x42, n]
    ensures n < 0x1_0000 ==> InRange(UInt16, n) && Render(Tree(Number(UInt16, n))) == [0x75] + Two(n)
    ensures n < 0x1_0000_0000 ==> InRange(UInt32, n) && Render(Tree(Number(UInt32, n))) == [0x69] + Four(n)
    ensures n < 0x1_0000_0000 ==> InRange(Float, n) && Render(Tree(Number(Float, n))) == [0x66] + Four(n)
    ensures n < 0x1_0000_0000_0000_0000 ==> InRange(UInt64, n) && Render(Tree(Number(UInt64, n))) == [0x6C] + Eight(n)
    ensures n < 0x1_0000_0000_0000_0000 ==> InRange(Double, n) && Render(Tree(Number(Double, n))) == [0x64] + Eight(n)
  {
    FourOctets();
    hide Pow256, BE;
    One(n);
    BigEndian2(n);
    BigEndian4(n);
    BigEndian8(n);
  }

  /** Two's complement is the remainder. */
  lemma Complement(k: Kind, n: int)
    requires IsSigned(k) && InRange(k, n)
    ensures 0 <= n + Pow256(Octets(k)) && Unsigned(Octets(k), n) == n % Pow256(Octets(k))
  {
    var range := Pow256(Octets(k));
    hide Pow256;
    if n < 0 { Remainder(n, range); }
  }

  lemma Remainder(n: int, range: nat)
    requires 0 <= n + range < range
    ensures n % range == n + range
  {
    DivUnique(n + range, range, 0, n + range);
    ModMore(n, range);
  }

  lemma ModMore(n: int, d: nat)
    requires d > 0
    ensures (n + d) % d == n % d
  {
    var k := (n + d) / d - n / d - 1;
    assert n == d * (n / d) + n % d && n + d == d * ((n + d) / d) + (n + d) % d;
    assert d * k == d * ((n + d) / d) - d * (n / d) - d == n % d - (n + d) % d;
    if k != 0 { MultipleIsLarge(d, k); }
  }

  lemma SignedTree(k: Kind, n: int)
    requires IsSigned(k) && InRange(k, n)
    ensures Pow256(Octets(k)) > 0
    ensures Render(Tree(Number(k, n))) == [TagOf(k)] + BE(Octets(k), n % Pow256(Octets(k)))
  {
    Pow256More(Octets(k));
    Complement(k, n);
    hide BE, Pow256;
  }

  /** The signed types, in two's complement: n modulo the range of the type. */
  lemma Int8Octets(n: int)
    requires -0x80 <= n < 0x80
    ensures InRange(Int8, n) && Render(Tree(Number(Int8, n))) == [0x62, n % 0x100]
  {
    FourOctets();
    hide Pow256, BE, Render, Tree;
    SignedTree(Int8, n);
    One(n % 0x100);
  }

  lemma Int16Octets(n: int)
    requires -0x8000 <= n < 0x8000
    ensures InRange(Int16, n) && Render(Tree(Number(Int16, n))) == [0x55] + Two(n % 0x1_0000)
  {
    FourOctets();
    hide Pow256, BE, Two, Render, Tree;
    SignedTree(Int16, n);
    BigEndian2(n % 0x1_0000);
  }

  lemma Int32Octets(n: int)
    requires -0x8000_0000 <= n < 0x8000_0000
    ensures InRange(Int32, n) && Render(Tree(Number(Int32, n))) == [0x49] + Four(n % 0x1_0000_0000)
  {
    FourOctets();
    hide Pow256, BE, Four, Render, Tree;
    SignedTree(Int32, n);
    BigEndian4(n % 0x1_0000_0000);
  }

  lemma Int64Octets(n: int)
    requires -0x8000_0000_0000_0000 <= n < 0x8000_0000_0000_0000
    ensures InRange(Int64, n) && Render(Tree(Number(Int64, n))) == [0x4C] + Eight(n % 0x1_0000_0000_0000_0000)
  {
    FourOctets();
    hide Pow256, BE, Eight, Render, Tree;
    SignedTree(Int64, n);
    BigEndian8(n % 0x1_0000_0000_0000_0000);
  }

  /** The other types. A value of no known type is a void, and a Go int a tag alone. */
  lemma TagOctets(b: bool, n: int)
    ensures Render(Tree(Bool(b))) == [0x74, if b then 1 else 0]
    ensures Render(Tree(Other)) == [0x56]
    ensures Render(Tree(Int(n))) == [0x49]
  {
  }

  lemma DecimalOctets(scale: byte, unscaled: nat)
    requires unscaled < 0x1_0000_0000
    ensures Render(Tree(Decimal(scale, unscaled))) == [0x44, scale] + Four(unscaled)
  {
    hide BE, Four;
    BigEndian4(unscaled);
    assert [0x44, scale] + Four(unscaled) == [0x44] + ([scale] + Four(unscaled));
  }

  lemma TextOctets(text: Bytes)
    requires |text| < 0x1_0000_0000
    ensures Render(Tree(Str(text))) == [0x53] + Four(|text|) + text
  {
    hide Length4, Four;
    Length(|text|);
  }

  /** A time is its seconds. */
  lemma TimeOctets(seconds: int, nanos: nat)
    requires -0x8000_0000_0000_0000 <= seconds < 0x8000_0000_0000_0000
    ensures InRange(Int64, seconds)
            && Render(Tree(Time(seconds, nanos))) == [0x54] + Eight(seconds % 0x1_0000_0000_0000_0000)
  {
    FourOctets();
    hide Pow256, BE, Eight;
    Complement(Int64, seconds);
    BigEndian8(seconds % 0x1_0000_0000_0000_0000);
  }

  lemma Length(n: nat)
    requires n < 0x1_0000_0000
    ensures Length4(n) == Four(n)
  {
    BigEndian4(n);
    hide BE, Four;
  }

  /** Maps and lists: a tag, the length in octets, the entries or items one after the other. */
  lemma {:induction false} MapOctets(fields: seq<Field>)
    requires Proper(Map(fields)) && |RenderEntries(Entries(fields))| < 0x1_0000_0000
    ensures Render(Tree(Map(fields)))
            == [0x46] + Four(|RenderEntries(Entries(fields))|) + RenderEntries(Entries(fields))
  {
    hide RenderEntries, Entries, Length4, Four;
    Length(|RenderEntries(Entries(fields))|);
  }

  lemma {:induction false} ListOctets(values: seq<Value>)
    requires Proper(List(values)) && |RenderItems(Trees(values))| < 0x1_0000_0000
    ensures Render(Tree(List(values))) == [0x41] + Four(|RenderItems(Trees(values))|) + RenderItems(Trees(values))
  {
    hide RenderItems, Trees, Length4, Four;
    Length(|RenderItems(Trees(values))|);
  }

  lemma {:induction false} StringsOctets(texts: seq<Bytes>)
    requires |RenderItems(LongStrings(texts))| < 0x1_0000_0000
    ensures Render(Tree(Strings(texts)))
            == [0x41] + Four(|RenderItems(LongStrings(texts))|) + RenderItems(LongStrings(texts))
  {
    hide RenderItems, LongStrings, Length4, Four;
    Length(|RenderItems(LongStrings(texts))|);
  }

  /** An entry is its name after the name's length, and its value. */
  lemma {:induction false} EntryOctets(f: Field)
    requires ProperField(f) && |f.key| <= 255
    ensures RenderEntry(EntryTree(f)) == [|f.key|] + f.key + Render(Tree(f.value))
  {
    hide Render, Tree;
  }

  const A: Field := Field([0x61], Bool(true))
  const B: Field := Field([0x62], Number(Int16, -2))
  const C: Field := Field([0x63], List([Str([0x78])]))

  lemma EntryA()
    ensures ProperField(A) && KeysOkField(A) && RenderEntry(EntryTree(A)) == [1, 0x61, 0x74, 1]
  {
    assert ProperField(A) && KeysOkField(A);
    hide Render, Tree, RenderEntry, EntryTree, ProperField, KeysOkField;
    EntryOctets(A);
    TagOctets(true, 0);
  }

  lemma EntryB()
    ensures ProperField(B) && KeysOkField(B) && RenderEntry(EntryTree(B)) == [1, 0x62, 0x55, 0xFF, 0xFE]
  {
    hide Render, Tree, RenderEntry, EntryTree, InRange;
    Int16Octets(-2);
    EntryOctets(B);
  }

  lemma EntryC()
    ensures ProperField(C) && KeysOkField(C)
            && RenderEntry(EntryTree(C)) == [1, 0x63, 0x41, 0, 0, 0, 6, 0x53, 0, 0, 0, 1, 0x78]
  {
    OneText();
    assert ProperField(C) && KeysOkField(C);
    hide Render, Tree, RenderEntry, EntryTree, ProperField, KeysOkField;
    EntryOctets(C);
  }

  /** A whole table with three entries: "a" = true, "b" = int16 -2, "c" = ["x"]. */
  lemma {:induction false} TableOctets()
    ensures (forall i | 0 <= i < 3 :: ProperField([A, B, C][i]))
            && Encode([A, B, C])
               == Some([1, 0x61, 0x74, 1] + [1, 0x62, 0x55, 0xFF, 0xFE]
                       + [1, 0x63, 0x41, 0, 0, 0, 6, 0x53, 0, 0, 0, 1, 0x78])
  {
    hide Encode, RenderEntry, EntryTree, ProperField, KeysOkField;
    EntryA();
    EntryB();
    EntryC();
    ThreeEntries(A, B, C);
  }

  lemma OneText()
    ensures Proper(List([Str([0x78])]))
            && Render(Tree(List([Str([0x78])]))) == [0x41, 0, 0, 0, 6, 0x53, 0, 0, 0, 1, 0x78]
  {
    hide Proper, Render, Tree, Trees, RenderItems, Four;
    TextProper();
    OneItem(Str([0x78]));
    TextOctets([0x78]);
    SmallLengths();
    ListOctets([Str([0x78])]);
    assert [0x53] + Four(1) + [0x78] == [0x53, 0, 0, 0, 1, 0x78];
    assert [0x41] + Four(6) + [0x53, 0, 0, 0, 1, 0x78] == [0x41, 0, 0, 0, 6, 0x53, 0, 0, 0, 1, 0x78];
  }

  lemma TextProper()
    ensures Proper(Str([0x78])) && Proper(List([Str([0x78])]))
  {
  }

  lemma SmallLengths()
    ensures Four(1) == [0, 0, 0, 1] && Four(6) == [0, 0, 0, 6]
  {
  }

  lemma OneItem(v: Value)
    requires Proper(v)
    ensures RenderItems(Trees([v])) == Render(Tree(v))
  {
    hide Render, Tree;
    assert Trees([v])[1..] == [];
    assert Render(Tree(v)) + [] == Render(Tree(v));
  }

  lemma {:induction false} ThreeEntries(a: Field, b: Field, c: Field)
    requires ProperField(a) && ProperField(b) && ProperField(c) && KeysOkField(a) && KeysOkField(b) && KeysOkField(c)
    ensures Encode([a, b, c])
            == Some(RenderEntry(EntryTree(a)) + RenderEntry(EntryTree(b)) + RenderEntry(EntryTree(c)))
  {
    hide RenderEntry, EntryTree, ProperField, KeysOkField;
    var es := Entries([a, b, c]);
    assert es == [EntryTree(a), EntryTree(b), EntryTree(c)];
    assert es[1..] == [EntryTree(b), EntryTree(c)] && es[1..][1..] == [EntryTree(c)] && es[1..][1..][1..] == [];
    assert RenderEntries(es[1..][1..]) == RenderEntry(EntryTree(c)) + [];
    assert RenderEntries(es[1..]) == RenderEntry(EntryTree(b)) + RenderEntry(EntryTree(c));
    assert RenderEntry(EntryTree(a)) + (RenderEntry(EntryTree(b)) + RenderEntry(EntryTree(c)))
        == RenderEntry(EntryTree(a)) + RenderEntry(EntryTree(b)) + RenderEntry(EntryTree(c));
  }

  // ---------------------------------------------------------------- properties

  function Bit(set_: bool, bit: nat): nat {
    if set_ then bit else 0
  }

  function At(p: Sent, i: nat): nat {
    if Present(p, i) then 1 else 0
  }

  lemma FlagsNext(p: Sent, i: nat)
    requires i < COUNT
    ensures FlagsBefore(p, 0) == 0 && FlagsBefore(p, i + 1) == 2 * FlagsBefore(p, i) + At(p, i)
  {
  }

  lemma FirstFlags(p: Sent)
    ensures FlagsBefore(p, 7) == 64 * At(p, 0) + 32 * At(p, 1) + 16 * At(p, 2) + 8 * At(p, 3) + 4 * At(p, 4)
                                 + 2 * At(p, 5) + At(p, 6)
  {
    hide FlagsBefore, At;
    FlagsNext(p, 0);
    FlagsNext(p, 1);
    FlagsNext(p, 2);
    FlagsNext(p, 3);
    FlagsNext(p, 4);
    FlagsNext(p, 5);
    FlagsNext(p, 6);
  }

  lemma LastFlags(p: Sent)
    ensures FlagsBefore(p, 14) == 128 * FlagsBefore(p, 7) + 64 * At(p, 7) + 32 * At(p, 8) + 16 * At(p, 9)
                                  + 8 * At(p, 10) + 4 * At(p, 11) + 2 * At(p, 12) + At(p, 13)
  {
    hide FlagsBefore, At;
    FlagsNext(p, 7);
    FlagsNext(p, 8);
    FlagsNext(p, 9);
    FlagsNext(p, 10);
    FlagsNext(p, 11);
    FlagsNext(p, 12);
    FlagsNext(p, 13);
  }

  lemma BitAt(p: Sent, i: nat, bit: nat)
    ensures Bit(Present(p, i), bit) == bit * At(p, i)
  {
    hide Present;
  }

  lemma FlagSum(p: Sent)
    ensures Flags(p) == Bit(Present(p, 0), 0x8000) + Bit(Present(p, 1), 0x4000) + Bit(Present(p, 2), 0x2000)
                        + Bit(Present(p, 3), 0x1000) + Bit(Present(p, 4), 0x800) + Bit(Present(p, 5), 0x400)
                        + Bit(Present(p, 6), 0x200) + Bit(Present(p, 7), 0x100) + Bit(Present(p, 8), 0x80)
                        + Bit(Present(p, 9), 0x40) + Bit(Present(p, 10), 0x20) + Bit(Present(p, 11), 0x10)
                        + Bit(Present(p, 12), 8) + Bit(Present(p, 13), 4)
  {
    hide FlagsBefore, At, Present, Bit;
    FirstFlags(p);
    LastFlags(p);
    BitAt(p, 0, 0x8000);
    BitAt(p, 1, 0x4000);
    BitAt(p, 2, 0x2000);
    BitAt(p, 3, 0x1000);
    BitAt(p, 4, 0x800);
    BitAt(p, 5, 0x400);
    BitAt(p, 6, 0x200);
    BitAt(p, 7, 0x100);
    BitAt(p, 8, 0x80);
    BitAt(p, 9, 0x40);
    BitAt(p, 10, 0x20);
    BitAt(p, 11, 0x10);
    BitAt(p, 12, 8);
    BitAt(p, 13, 4);
  }

  /** The flag word: which bit stands for which property. */
  lemma FlagBits(p: Sent)
    ensures Flags(p) == Bit(p.contentType != [], 0x8000) + Bit(p.contentEncoding != [], 0x4000)
                        + Bit(p.headers.Some?, 0x2000) + Bit(p.deliveryMode != 0, 0x1000) + Bit(p.priority != 0, 0x800)
                        + Bit(p.correlationID != [], 0x400) + Bit(p.replyTo != [], 0x200)
                        + Bit(p.expiration != [], 0x100) + Bit(p.messageID != [], 0x80)
                        + Bit(p.seconds != ZERO_SECONDS || p.nanos != 0, 0x40) + Bit(p.typ != [], 0x20)
                        + Bit(p.userID != [], 0x10) + Bit(p.appID != [], 8) + Bit(p.reserved != [], 4)
  {
    hide Flags, Bit;
    FlagSum(p);
  }

  /** A short string, if there is one. */
  function ShortOctets(text: Bytes): Bytes
    requires |text| <= 255
  {
    if text == [] then [] else [|text|] + text
  }

  lemma ShortText(p: Sent, i: nat)
    requires ProperProps(p) && Writable(p) && IsText(i)
    ensures |TextOf(p, i)| <= 255 && Piece(p, i) == ShortOctets(TextOf(p, i))
  {
  }

  /** Which property is which. */
  lemma TextPieces(p: Sent)
    requires ProperProps(p) && Writable(p)
    ensures |p.contentType| <= 255 && Piece(p, 0) == ShortOctets(p.contentType)
    ensures |p.contentEncoding| <= 255 && Piece(p, 1) == ShortOctets(p.contentEncoding)
    ensures |p.correlationID| <= 255 && Piece(p, 5) == ShortOctets(p.correlationID)
    ensures |p.replyTo| <= 255 && Piece(p, 6) == ShortOctets(p.replyTo)
    ensures |p.expiration| <= 255 && Piece(p, 7) == ShortOctets(p.expiration)
    ensures |p.messageID| <= 255 && Piece(p, 8) == ShortOctets(p.messageID)
    ensures |p.typ| <= 255 && Piece(p, 10) == ShortOctets(p.typ)
    ensures |p.userID| <= 255 && Piece(p, 11) == ShortOctets(p.userID)
    ensures |p.appID| <= 255 && Piece(p, 12) == ShortOctets(p.appID)
    ensures |p.reserved| <= 255 && Piece(p, 13) == ShortOctets(p.reserved)
  {
    hide Piece, ShortOctets, Writable, ProperProps;
    ShortText(p, 0);
    ShortText(p, 1);
    ShortText(p, 5);
    ShortText(p, 6);
    ShortText(p, 7);
    ShortText(p, 8);
    ShortText(p, 10);
    ShortText(p, 11);
    ShortText(p, 12);
    ShortText(p, 13);
  }

  lemma PiecesNext(p: Sent, i: nat)
    requires ProperProps(p) && Writable(p) && i < COUNT
    ensures Pieces(p, i) == Piece(p, i) + Pieces(p, i + 1)
  {
  }

  lemma FixedPieces(p: Sent)
    requires ProperProps(p) && Writable(p)
    ensures Piece(p, 2) == (match p.headers case None => [] case Some(fields) =>
                              Length4(|Encode(fields).value|) + Encode(fields).value)
    ensures Piece(p, 3) == (if p.deliveryMode == 0 then [] else [p.deliveryMode])
    ensures Piece(p, 4) == (if p.priority == 0 then [] else [p.priority])
    ensures Piece(p, 9) == (if p.seconds == ZERO_SECONDS && p.nanos == 0 then [] else NumberPayload(Int64, p.seconds))
  {
    hide Encode, NumberPayload;
  }

  /** The properties on the wire, in their order. */
  lemma PieceOrder(p: Sent)
    requires ProperProps(p) && Writable(p)
    ensures Pieces(p, 0)
            == Piece(p, 0) + (Piece(p, 1) + (Piece(p, 2) + (Piece(p, 3) + (Piece(p, 4) + (Piece(p, 5) + (Piece(p, 6)
               + (Piece(p, 7) + (Piece(p, 8) + (Piece(p, 9) + (Piece(p, 10) + (Piece(p, 11) + (Piece(p, 12)
               + (Piece(p, 13) + [])))))))))))))
  {
    hide Piece, Pieces, Writable, ProperProps;
    PiecesNext(p, 0);
    PiecesNext(p, 1);
    PiecesNext(p, 2);
    PiecesNext(p, 3);
    PiecesNext(p, 4);
    PiecesNext(p, 5);
    PiecesNext(p, 6);
    PiecesNext(p, 7);
    PiecesNext(p, 8);
    PiecesNext(p, 9);
    PiecesNext(p, 10);
    PiecesNext(p, 11);
    PiecesNext(p, 12);
    PiecesNext(p, 13);
    NoPieces(p);
  }

  lemma NoPieces(p: Sent)
    requires ProperProps(p) && Writable(p)
    ensures Pieces(p, COUNT) == []
  {
  }

  // ---------------------------------------------------------------- frames

  /** A frame: type, channel, length, payload and end octet. The types and limits are the protocol's. */
  lemma FrameOctets(typ: byte, channel: nat, payload: Bytes)
    requires |payload| < 0x1_0000_0000
    ensures Frame(typ, channel, payload) == [typ] + Two(channel) + Four(|payload|) + payload + [0xCE]
    ensures TYPE_METHOD == 1 && TYPE_HEADER == 2 && TYPE_BODY == 3 && TYPE_HEARTBEAT == 8 && BASIC == 60
    ensures FRAME_MIN_SIZE == 4096 && FRAME_OVERHEAD == 8 && DEFAULT_FRAME_MAX == 131072
  {
    hide BE, Two, Four, Length4;
    BigEndian2(channel);
    Length(|payload|);
  }

  /** The payload of a content header. */
  lemma HeaderOctets(bodySize: nat, p: Sent)
    requires ProperProps(p) && Writable(p)
    ensures HeaderPayload(BASIC, bodySize, p) == [0, 60, 0, 0] + Eight(bodySize) + Two(Flags(p)) + Pieces(p, 0)
  {
    hide BE, Flags, Pieces, Eight, Writable, ProperProps;
    BigEndian2(60);
    BigEndian2(0);
    BigEndian8(bodySize);
    BigEndian2(Flags(p));
    assert Two(60) + Two(0) == [0, 60, 0, 0];
    hide Two;
  }

  const HELLO: Bytes := [0x68, 0x65, 0x6C, 0x6C, 0x6F]
  const HELLO_FRAME: Bytes := [3, 0, 1] + [0, 0, 0, 5] + HELLO + [0xCE]

  lemma HelloFrame()
    ensures Frame(3, 1, HELLO) == HELLO_FRAME
  {
    hide Frame;
    FrameOctets(3, 1, HELLO);
    assert Two(1) == [0, 1] && Four(5) == [0, 0, 0, 5];
    hide Two, Four;
  }

  /** One body frame, octet by octet, on channel 1: what is written for the content "hello", and what is read
      and parsed to it. */
  lemma HelloWritten()
    ensures BodyOctets(1, 4096, HELLO) == HELLO_FRAME
  {
    HelloFrame();
    assert HELLO[..5] == HELLO && HELLO[5..] == [];
    hide Frame;
    assert BodyFrames(1, 5, []) == [];
    assert BodyFrames(1, 5, HELLO) == HELLO_FRAME + [];
  }

  lemma HelloRead(rest: Bytes)
    ensures ReadFrame(HELLO_FRAME + rest, 4096) == Some((HELLO_FRAME[..12], rest))
  {
    var stream := HELLO_FRAME + rest;
    hide UnBE;
    ReadsBig(0, 0, 0, 5);
    assert stream[3..7] == [0, 0, 0, 5];
    assert stream[13..] == rest && stream[..7] + stream[7..12] == HELLO_FRAME[..12];
  }

  lemma BodyOfFive(frame: Bytes)
    requires |frame| == 12 && frame[0] == 3 && UnBE(frame[3..7]) == 5
    ensures ParseFrame(frame) == BodyFrame(frame[7..])
  {
    hide UnBE;
    assert (7 + 5) % TWO_32 == 12;
  }

  lemma HelloParsed()
    ensures ParseFrame(HELLO_FRAME[..12]) == BodyFrame(HELLO)
  {
    hide UnBE, ParseFrame;
    var frame := HELLO_FRAME[..12];
    ReadsBig(0, 0, 0, 5);
    assert frame[3..7] == [0, 0, 0, 5];
    assert frame[7..] == HELLO;
    BodyOfFive(frame);
  }
}
