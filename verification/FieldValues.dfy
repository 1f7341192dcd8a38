/**
 Go values as field values (encode.go), and what decoding makes of a wire tree (decode.go). The
 main result: decoding an encoded table gives the table back, in whatever order its map was
 iterated over, up to the encoder's normal form.
 */
module FieldValues {
  import opened Collections
  import opened Bytes
  import opened FieldTable

  /** The number types the encoder has a case for. Floats are kept as the octets that represent them. */
  datatype Kind = Int8 | UInt8 | Int16 | UInt16 | Int32 | UInt32 | Int64 | UInt64 | Float | Double

  function TagOf(k: Kind): byte {
    match k
    case Int8 => T_INT8
    case UInt8 => T_UINT8
    case Int16 => T_INT16
    case UInt16 => T_UINT16
    case Int32 => T_INT32
    case UInt32 => T_UINT32
    case Int64 => T_INT64
    case UInt64 => T_UINT64
    case Float => T_FLOAT
    case Double => T_DOUBLE
  }

  function Octets(k: Kind): nat {
    match k
    case Int8 => 1
    case UInt8 => 1
    case Int16 => 2
    case UInt16 => 2
    case Int32 => 4
    case UInt32 => 4
    case Float => 4
    case Int64 => 8
    case UInt64 => 8
    case Double => 8
  }

  predicate IsSigned(k: Kind) {
    k.Int8? || k.Int16? || k.Int32? || k.Int64?
  }

  predicate InRange(k: Kind, n: int) {
    if IsSigned(k) then 0 <= 2 * n + Pow256(Octets(k)) && 2 * n < Pow256(Octets(k)) else 0 <= n < Pow256(Octets(k))
  }

  /** A value of type any, as encodeValueToBuffer tells them apart. A map is the list of its entries in
      the order in which it is iterated over. Other is any type the encoder has no case for, nil and the
      anonymous struct that decoding a decimal gives among them. */
  datatype Value = Bool(b: bool) | Number(kind: Kind, n: int) | Int(n: int) | Decimal(scale: byte, unscaled: nat)
                 | Str(text: Bytes) | Time(seconds: int, nanos: nat) | Map(fields: seq<Field>)
                 | List(values: seq<Value>)
                 | Strings(texts: seq<Bytes>) | Maps(maps: seq<Value>) | Other

  datatype Field = Field(key: Bytes, value: Value)

  /** What decoding gives. */
  datatype Decoded = DNull | DBool(b: bool) | DNumber(kind: Kind, n: int) | DDecimal(scale: byte, unscaled: nat)
                   | DStr(text: Bytes) | DTime(seconds: int) | DTable(fields: map<Bytes, Decoded>)
                   | DArray(items: seq<Decoded>)

  // ---------------------------------------------------------------- decoding a tree

  function KindOf(tag: byte): Option<Kind> {
    if tag == T_INT8 then Some(Int8) else if tag == T_UINT8 then Some(UInt8)
    else if tag == T_INT16 then Some(Int16) else if tag == T_UINT16 then Some(UInt16)
    else if tag == T_INT32 then Some(Int32) else if tag == T_UINT32 then Some(UInt32)
    else if tag == T_INT64 then Some(Int64) else if tag == T_UINT64 then Some(UInt64)
    else if tag == T_FLOAT then Some(Float) else if tag == T_DOUBLE then Some(Double)
    else None
  }

  function NumberOf(k: Kind, payload: Bytes): int {
    if IsSigned(k) then Signed(Octets(k), UnBE(payload)) else UnBE(payload)
  }

  function FixedMeaning(tag: byte, payload: Bytes): Decoded {
    if tag == T_BOOL && |payload| == 1 then DBool(payload[0] != 0)
    else if tag == T_DECIMAL && |payload| == 5 then DDecimal(payload[0], UnBE(payload[1..]))
    else if tag == T_TIME then DTime(Signed(8, UnBE(payload)))
    else if KindOf(tag).Some? then DNumber(KindOf(tag).value, NumberOf(KindOf(tag).value, payload))
    else DNull
  }

  function Meaning(w: Wire): Decoded {
    match w
    case Fixed(tag, payload) => FixedMeaning(tag, payload)
    case Short(text) => DStr(text)
    case Long(text) => DStr(text)
    case Array(items) => DArray(ItemMeanings(items))
    case Table(entries) => DTable(TableMeaning(entries))
  }

  function ItemMeanings(items: seq<Wire>): (r: seq<Decoded>)
    ensures |r| == |items| && forall i | 0 <= i < |items| :: r[i] == Meaning(items[i])
  {
    if items == [] then [] else [Meaning(items[0])] + ItemMeanings(items[1..])
  }

  /** The map that the assignments of the loop leave: a later entry replaces an earlier one of its name. */
  function TableMeaning(entries: seq<Entry>): map<Bytes, Decoded>
    decreases entries
  {
    if entries == [] then map[]
    else
      var last := entries[|entries| - 1];
      TableMeaning(entries[..|entries| - 1])[last.name := EntryMeaning(last)]
  }

  function EntryMeaning(e: Entry): Decoded {
    Meaning(e.value)
  }

  /** DecodeTable, as a function of the octets. */
  function Decode(data: Bytes): Option<map<Bytes, Decoded>> {
    var entries := ReadEntries(data);
    if entries == None then None else Some(TableMeaning(entries.value))
  }

  /** The last entry of a name wins. */
  lemma {:induction false} LastWins(entries: seq<Entry>, i: nat)
    requires i < |entries| && forall j | i < j < |entries| :: entries[j].name != entries[i].name
    ensures entries[i].name in TableMeaning(entries)
            && TableMeaning(entries)[entries[i].name] == Meaning(entries[i].value)
    decreases |entries|
  {
    if i < |entries| - 1 { LastWins(entries[..|entries| - 1], i); }
  }

  lemma {:induction false} NamesOnly(entries: seq<Entry>, name: Bytes)
    ensures name in TableMeaning(entries) <==> exists i :: 0 <= i < |entries| && entries[i].name == name
    decreases |entries|
  {
    if entries != [] {
      var init := entries[..|entries| - 1];
      NamesOnly(init, name);
      if i :| 0 <= i < |init| && init[i].name == name { assert entries[i].name == name; }
      if i :| 0 <= i < |entries| && entries[i].name == name && i < |entries| - 1 { assert init[i].name == name; }
    }
  }

  /** Entry i is the last one of its name. */
  ghost predicate LastOfName(entries: seq<Entry>, i: nat) {
    i < |entries| && forall j | i < j < |entries| :: entries[j].name != entries[i].name
  }

  ghost predicate Writes(entries: seq<Entry>, data: Bytes) {
    WellFormed(entries) && RenderEntries(entries) == data
  }

  /** The decoder on every octet string: it fails exactly when the octets are not a list of well-formed
      entries, and otherwise gives each name in the list, and no other, the value of its last entry. */
  lemma DecodeExactly(data: Bytes)
    ensures Decode(data).Some? <==> exists entries :: Writes(entries, data)
    ensures forall entries: seq<Entry>, i: nat | Writes(entries, data) && LastOfName(entries, i) ::
              LastOfName(entries, i) && Decode(data).Some? && entries[i].name in Decode(data).value
              && Decode(data).value[entries[i].name] == Meaning(entries[i].value)
    ensures forall entries: seq<Entry>, name | Writes(entries, data) && Decode(data).Some?
            && name in Decode(data).value ::
              exists i :: 0 <= i < |entries| && entries[i].name == name
  {
    var read := ReadEntries(data);
    if read.Some? {
      AcceptsExactly(data, read.value);
      assert Writes(read.value, data);
    }
    forall entries | Writes(entries, data) ensures read == Some(entries) {
      AcceptsExactly(data, entries);
    }
    forall entries: seq<Entry>, i: nat | Writes(entries, data) && LastOfName(entries, i)
      ensures entries[i].name in TableMeaning(entries)
              && TableMeaning(entries)[entries[i].name] == Meaning(entries[i].value)
    {
      LastWins(entries, i);
    }
    forall entries: seq<Entry>, name | Writes(entries, data) && name in TableMeaning(entries)
      ensures exists i :: 0 <= i < |entries| && entries[i].name == name
    {
      NamesOnly(entries, name);
    }
  }

  // ---------------------------------------------------------------- encoding

  function NumberPayload(k: Kind, n: int): Bytes
    requires InRange(k, n)
  {
    BE(Octets(k), Unsigned(Octets(k), n))
  }

  /** The values the model speaks of: Go's numbers are in the range of their type. */
  predicate Proper(v: Value) {
    match v
    case Number(k, n) => InRange(k, n)
    case Decimal(scale, unscaled) => unscaled < TWO_32
    case Time(seconds, nanos) => InRange(Int64, seconds)
    case Map(fields) => forall i | 0 <= i < |fields| :: ProperField(fields[i])
    case List(values) => forall i | 0 <= i < |values| :: Proper(values[i])
    case Maps(maps) => forall i | 0 <= i < |maps| :: maps[i].Map? && Proper(maps[i])
    case _ => true
  }

  predicate ProperField(f: Field) {
    Proper(f.value)
  }

  /** The tree that is written for a value. Go's int has no fixed size, so binary.Write writes nothing
      after its tag: its tree lacks its payload. */
  function Tree(v: Value): Wire
    requires Proper(v)
  {
    match v
    case Bool(b) => Fixed(T_BOOL, [if b then 1 else 0])
    case Number(k, n) => Fixed(TagOf(k), NumberPayload(k, n))
    case Int(n) => Fixed(T_INT32, [])
    case Decimal(scale, unscaled) => Fixed(T_DECIMAL, [scale] + BE(4, unscaled))
    case Str(text) => Long(text)
    case Time(seconds, nanos) => Fixed(T_TIME, NumberPayload(Int64, seconds))
    case Map(fields) => Table(Entries(fields))
    case List(values) => Array(Trees(values))
    case Strings(texts) => Array(LongStrings(texts))
    case Maps(maps) => Array(Trees(maps))
    case Other => Fixed(T_VOID, [])
  }

  function Entries(fields: seq<Field>): (r: seq<Entry>)
    requires forall i | 0 <= i < |fields| :: ProperField(fields[i])
    ensures |r| == |fields| && forall i | 0 <= i < |fields| :: r[i] == EntryTree(fields[i])
  {
    if fields == [] then [] else [EntryTree(fields[0])] + Entries(fields[1..])
  }

  function EntryTree(f: Field): Entry
    requires ProperField(f)
  {
    Entry(f.key, Tree(f.value))
  }

  function Trees(values: seq<Value>): (r: seq<Wire>)
    requires forall i | 0 <= i < |values| :: Proper(values[i])
    ensures |r| == |values| && forall i | 0 <= i < |values| :: r[i] == Tree(values[i])
  {
    if values == [] then [] else [Tree(values[0])] + Trees(values[1..])
  }

  function LongStrings(texts: seq<Bytes>): (r: seq<Wire>)
    ensures |r| == |texts| && forall i | 0 <= i < |texts| :: r[i] == Long(texts[i])
  {
    if texts == [] then [] else [Long(texts[0])] + LongStrings(texts[1..])
  }

  /** Every key, at any depth, has at most 255 octets; otherwise encoding is an error. */
  predicate KeysOk(v: Value) {
    match v
    case Map(fields) => forall i | 0 <= i < |fields| :: KeysOkField(fields[i])
    case List(values) => forall i | 0 <= i < |values| :: KeysOk(values[i])
    case Maps(maps) => forall i | 0 <= i < |maps| :: KeysOk(maps[i])
    case _ => true
  }

  predicate KeysOkField(f: Field) {
    |f.key| <= 255 && KeysOk(f.value)
  }

  /** EncodeTable, as a function; None is its error. */
  function Encode(fields: seq<Field>): Option<Bytes>
    requires forall i | 0 <= i < |fields| :: ProperField(fields[i])
  {
    if forall i | 0 <= i < |fields| :: KeysOkField(fields[i]) then Some(RenderEntries(Entries(fields))) else None
  }

  // ---------------------------------------------------------------- round trip

  /** There is no Go int in the value, and every size fits its length on the wire. */
  predicate Encodable(v: Value)
    requires Proper(v)
  {
    match v
    case Int(n) => false
    case Str(text) => |text| < TWO_32
    case Map(fields) =>
      |RenderEntries(Entries(fields))| < TWO_32 && forall i | 0 <= i < |fields| :: EncodableField(fields[i])
    case List(values) =>
      |RenderItems(Trees(values))| < TWO_32 && forall i | 0 <= i < |values| :: Encodable(values[i])
    case Strings(texts) =>
      |RenderItems(LongStrings(texts))| < TWO_32 && forall i | 0 <= i < |texts| :: |texts[i]| < TWO_32
    case Maps(maps) =>
      |RenderItems(Trees(maps))| < TWO_32 && forall i | 0 <= i < |maps| :: Encodable(maps[i])
    case _ => true
  }

  predicate EncodableField(f: Field)
    requires ProperField(f)
  {
    Encodable(f.value)
  }

  /** No decimal is directly an element of a list. */
  predicate NoListedDecimal(v: Value, listed: bool) {
    match v
    case Decimal(scale, unscaled) => !listed
    case Map(fields) => forall i | 0 <= i < |fields| :: NoListedDecimalField(fields[i])
    case List(values) => forall i | 0 <= i < |values| :: NoListedDecimal(values[i], true)
    case Maps(maps) => forall i | 0 <= i < |maps| :: NoListedDecimal(maps[i], true)
    case _ => true
  }

  predicate NoListedDecimalField(f: Field) {
    NoListedDecimal(f.value, false)
  }

  /** What a value comes back as: times in whole seconds, typed lists as arrays, the rest unchanged. */
  function Normal(v: Value): Decoded {
    match v
    case Bool(b) => DBool(b)
    case Number(k, n) => DNumber(k, n)
    case Int(n) => DNull
    case Decimal(scale, unscaled) => DDecimal(scale, unscaled)
    case Str(text) => DStr(text)
    case Time(seconds, nanos) => DTime(seconds)
    case Map(fields) => DTable(NormalFields(fields))
    case List(values) => DArray(NormalValues(values))
    case Strings(texts) => DArray(NormalStrings(texts))
    case Maps(maps) => DArray(NormalValues(maps))
    case Other => DNull
  }

  function NormalFields(fields: seq<Field>): map<Bytes, Decoded>
    decreases fields
  {
    if fields == [] then map[]
    else
      var last := fields[|fields| - 1];
      NormalFields(fields[..|fields| - 1])[last.key := NormalField(last)]
  }

  function NormalField(f: Field): Decoded {
    Normal(f.value)
  }

  function NormalValues(values: seq<Value>): (r: seq<Decoded>)
    ensures |r| == |values| && forall i | 0 <= i < |values| :: r[i] == Normal(values[i])
  {
    if values == [] then [] else [Normal(values[0])] + NormalValues(values[1..])
  }

  function NormalStrings(texts: seq<Bytes>): (r: seq<Decoded>)
    ensures |r| == |texts| && forall i | 0 <= i < |texts| :: r[i] == DStr(texts[i])
  {
    if texts == [] then [] else [DStr(texts[0])] + NormalStrings(texts[1..])
  }

  // ---------------------------------------------------------------- what the trees mean

  lemma NumberMeans(k: Kind, n: int)
    requires InRange(k, n)
    ensures |NumberPayload(k, n)| == Octets(k) && Width(TagOf(k)) == Some(Octets(k)) && KindOf(TagOf(k)) == Some(k)
    ensures NumberOf(k, NumberPayload(k, n)) == n
  {
    if IsSigned(k) { SignedOfUnsigned(Octets(k), n); }
    UnBEOfBE(Octets(k), Unsigned(Octets(k), n));
  }

  lemma NumberLeaf(k: Kind, n: int, listed: bool)
    requires InRange(k, n)
    ensures MeansNormal(Number(k, n), listed)
  {
    NumberMeans(k, n);
    hide NumberPayload, NumberOf, InRange;
  }

  lemma TimeLeaf(seconds: int, nanos: nat, listed: bool)
    requires InRange(Int64, seconds)
    ensures MeansNormal(Time(seconds, nanos), listed)
  {
    NumberMeans(Int64, seconds);
    assert Signed(8, UnBE(NumberPayload(Int64, seconds))) == seconds;
    hide NumberPayload, NumberOf, InRange, Signed, UnBE;
  }

  lemma DecimalLeaf(scale: byte, unscaled: nat, listed: bool)
    requires unscaled < TWO_32
    ensures MeansNormal(Decimal(scale, unscaled), listed)
  {
    FourOctets();
    UnBEOfBE(4, unscaled);
    assert ([scale] + BE(4, unscaled))[1..] == BE(4, unscaled);
    hide BE, UnBE;
  }

  lemma LeafMeans(v: Value, listed: bool)
    requires Proper(v) && Encodable(v) && !v.Map? && !v.List? && !v.Strings? && !v.Maps?
    ensures MeansNormal(v, listed)
  {
    if v.Number? { NumberLeaf(v.kind, v.n, listed); }
    else if v.Time? { TimeLeaf(v.seconds, v.nanos, listed); }
    else if v.Decimal? { DecimalLeaf(v.scale, v.unscaled, listed); }
  }

  /** What is to be shown of a value's tree. */
  ghost predicate MeansNormal(v: Value, listed: bool)
    requires Proper(v)
  {
    Sized(Tree(v)) && Meaning(Tree(v)) == Normal(v) && NoBareDecimal(Tree(v), listed) == NoListedDecimal(v, listed)
  }

  lemma ListMeans(values: seq<Value>)
    requires forall i | 0 <= i < |values| :: Proper(values[i]) && MeansNormal(values[i], true)
    ensures ItemMeanings(Trees(values)) == NormalValues(values)
    ensures forall i | 0 <= i < |values| :: Sized(Trees(values)[i])
    ensures (forall i | 0 <= i < |values| :: NoBareDecimal(Trees(values)[i], true)) <==>
              forall i | 0 <= i < |values| :: NoListedDecimal(values[i], true)
  {
    assert forall i | 0 <= i < |values| :: Trees(values)[i] == Tree(values[i]) && MeansNormal(values[i], true);
    hide Trees, Tree, Normal, Meaning, Sized, NoBareDecimal, NoListedDecimal;
  }

  lemma StringsMean(texts: seq<Bytes>)
    requires Encodable(Strings(texts))
    ensures forall listed :: MeansNormal(Strings(texts), listed)
  {
    var ws := LongStrings(texts);
    assert ItemMeanings(ws) == NormalStrings(texts);
    assert forall i | 0 <= i < |ws| :: Sized(ws[i]) && NoBareDecimal(ws[i], true);
  }

  /** The tree of an encodable value can be written, and means its normal form. */
  lemma {:induction false} TreeMeans(v: Value, listed: bool)
    requires Proper(v) && Encodable(v) && KeysOk(v)
    ensures MeansNormal(v, listed)
    decreases v
  {
    match v
    case Map(fields) => MapMeans(fields, listed);
    case List(values) => ValuesMean(values, v, listed);
    case Maps(maps) => ValuesMean(maps, v, listed);
    case Strings(texts) => StringsMean(texts);
    case _ => LeafMeans(v, listed);
  }

  lemma {:induction false} ValuesMean(values: seq<Value>, v: Value, listed: bool)
    requires Proper(v) && Encodable(v) && KeysOk(v) && (v == List(values) || v == Maps(values))
    ensures MeansNormal(v, listed)
    decreases values
  {
    ListParts(values, v);
    hide Proper, Encodable, KeysOk, MeansNormal;
    forall i | 0 <= i < |values| ensures MeansNormal(values[i], true) {
      TreeMeans(values[i], true);
    }
    ListMeans(values);
    ArrayMeans(values, v, listed);
  }

  lemma ListParts(values: seq<Value>, v: Value)
    requires Proper(v) && Encodable(v) && KeysOk(v) && (v == List(values) || v == Maps(values))
    ensures forall i | 0 <= i < |values| :: Proper(values[i]) && Encodable(values[i]) && KeysOk(values[i])
    ensures |RenderItems(Trees(values))| < TWO_32
  {
  }

  lemma ArrayMeans(values: seq<Value>, v: Value, listed: bool)
    requires Proper(v) && (v == List(values) || v == Maps(values))
    requires forall i | 0 <= i < |values| :: Proper(values[i])
    requires |RenderItems(Trees(values))| < TWO_32
    requires ItemMeanings(Trees(values)) == NormalValues(values)
    requires forall i | 0 <= i < |values| :: Sized(Trees(values)[i])
    requires (forall i | 0 <= i < |values| :: NoBareDecimal(Trees(values)[i], true)) <==>
               forall i | 0 <= i < |values| :: NoListedDecimal(values[i], true)
    ensures MeansNormal(v, listed)
  {
    ArrayTree(values, v, listed);
    ArrayParts(Trees(values), listed);
    hide Trees, NormalValues, ItemMeanings, RenderItems, Tree, Normal, Proper, NoListedDecimal, NoBareDecimal, Sized,
      Meaning;
  }

  lemma ArrayParts(ws: seq<Wire>, listed: bool)
    ensures Sized(Array(ws)) <==> |RenderItems(ws)| < TWO_32 && forall i | 0 <= i < |ws| :: Sized(ws[i])
    ensures Meaning(Array(ws)) == DArray(ItemMeanings(ws))
    ensures NoBareDecimal(Array(ws), listed) <==> forall i | 0 <= i < |ws| :: NoBareDecimal(ws[i], true)
  {
    hide RenderItems, ItemMeanings;
  }

  lemma ArrayTree(values: seq<Value>, v: Value, listed: bool)
    requires Proper(v) && (v == List(values) || v == Maps(values))
    requires forall i | 0 <= i < |values| :: Proper(values[i])
    ensures Tree(v) == Array(Trees(values)) && Normal(v) == DArray(NormalValues(values))
    ensures NoListedDecimal(v, listed) <==> forall i | 0 <= i < |values| :: NoListedDecimal(values[i], true)
  {
    hide Trees, NormalValues;
  }

  lemma {:induction false} MapMeans(fields: seq<Field>, listed: bool)
    requires Proper(Map(fields)) && Encodable(Map(fields)) && KeysOk(Map(fields))
    ensures MeansNormal(Map(fields), listed)
    decreases fields, 1
  {
    FieldsMean(fields);
  }

  lemma {:induction false} FieldMeans(f: Field)
    requires ProperField(f) && EncodableField(f) && KeysOkField(f)
    ensures SizedEntry(EntryTree(f)) && EntryMeaning(EntryTree(f)) == NormalField(f)
    ensures NoBareDecimalEntry(EntryTree(f)) == NoListedDecimalField(f)
    decreases f
  {
    TreeMeans(f.value, false);
  }

  lemma {:induction false} FieldsMean(fields: seq<Field>)
    requires forall i | 0 <= i < |fields| :: ProperField(fields[i])
    requires forall i | 0 <= i < |fields| :: EncodableField(fields[i]) && KeysOkField(fields[i])
    ensures TableMeaning(Entries(fields)) == NormalFields(fields)
    ensures forall i | 0 <= i < |fields| :: SizedEntry(Entries(fields)[i])
    ensures forall i | 0 <= i < |fields| :: NoBareDecimalEntry(Entries(fields)[i]) == NoListedDecimalField(fields[i])
    decreases fields, 0
  {
    var es := Entries(fields);
    assert |es| == |fields| && forall i | 0 <= i < |fields| :: es[i] == EntryTree(fields[i]);
    hide ProperField, EncodableField, KeysOkField, EntryTree, SizedEntry, EntryMeaning, NormalField,
      NoBareDecimalEntry, NoListedDecimalField, Entries;
    forall i | 0 <= i < |fields|
      ensures SizedEntry(es[i]) && EntryMeaning(es[i]) == NormalField(fields[i])
      ensures NoBareDecimalEntry(es[i]) == NoListedDecimalField(fields[i])
    {
      FieldMeans(fields[i]);
    }
    FoldMeans(es, fields);
  }

  lemma {:induction false} FoldMeans(es: seq<Entry>, fields: seq<Field>)
    requires |es| == |fields|
    requires forall i | 0 <= i < |fields| ::
               es[i].name == fields[i].key && EntryMeaning(es[i]) == NormalField(fields[i])
    ensures TableMeaning(es) == NormalFields(fields)
    decreases |fields|
  {
    hide EntryMeaning, NormalField;
    if fields != [] { FoldMeans(es[..|es| - 1], fields[..|fields| - 1]); }
  }

  ghost predicate DistinctKeys(fields: seq<Field>) {
    forall i, j | 0 <= i < j < |fields| :: fields[i].key != fields[j].key
  }

  lemma {:induction false} NormalEntry(fields: seq<Field>, i: nat)
    requires DistinctKeys(fields) && i < |fields|
    ensures fields[i].key in NormalFields(fields) && NormalFields(fields)[fields[i].key] == Normal(fields[i].value)
    decreases |fields|
  {
    if i < |fields| - 1 { NormalEntry(fields[..|fields| - 1], i); }
  }

  lemma {:induction false} NormalKeys(fields: seq<Field>, key: Bytes)
    requires key in NormalFields(fields)
    ensures exists i :: 0 <= i < |fields| && fields[i].key == key
    decreases |fields|
  {
    var last := |fields| - 1;
    if key != fields[last].key {
      NormalKeys(fields[..last], key);
      var i :| 0 <= i < last && fields[..last][i].key == key;
      assert fields[i].key == key;
    }
  }

  /** Round trip. Take any map, in the order in which it happens to be iterated over, whose keys have at
      most 255 octets and which holds no Go int and nothing too long. It is encoded, and decoding gives
      it back in normal form; but decoding fails if, and only if, somewhere in it a decimal is directly
      an element of a list. */
  lemma RoundTrip(fields: seq<Field>)
    requires DistinctKeys(fields)
    requires forall i | 0 <= i < |fields| :: ProperField(fields[i])
    requires forall i | 0 <= i < |fields| :: EncodableField(fields[i]) && KeysOkField(fields[i])
    ensures Encode(fields).Some?
    ensures Decode(Encode(fields).value).Some? <==> forall i | 0 <= i < |fields| :: NoListedDecimalField(fields[i])
    ensures Decode(Encode(fields).value).Some? ==>
              var table := Decode(Encode(fields).value).value;
              && (forall i | 0 <= i < |fields| ::
                  fields[i].key in table && table[fields[i].key] == Normal(fields[i].value))
              && (forall key | key in table :: exists i :: 0 <= i < |fields| && fields[i].key == key)
  {
    var es := Entries(fields);
    FieldsMean(fields);
    ReadRenderEntries(es);
    NormalTable(fields);
    KeysAreOk(fields);
    hide NoBareDecimalEntry, NoListedDecimalField, SizedEntry, Normal, EncodableField, KeysOkField, ProperField,
      ReadEntries, RenderEntries, NormalFields, TableMeaning;
    assert (forall i | 0 <= i < |es| :: NoBareDecimalEntry(es[i])) <==>
        forall i | 0 <= i < |fields| :: NoListedDecimalField(fields[i]);
  }

  lemma KeysAreOk(fields: seq<Field>)
    requires forall i | 0 <= i < |fields| :: ProperField(fields[i]) && KeysOkField(fields[i])
    ensures Encode(fields) == Some(RenderEntries(Entries(fields)))
  {
  }

  lemma NormalTable(fields: seq<Field>)
    requires DistinctKeys(fields)
    ensures forall i | 0 <= i < |fields| ::
              fields[i].key in NormalFields(fields) && NormalFields(fields)[fields[i].key] == Normal(fields[i].value)
    ensures forall key | key in NormalFields(fields) :: exists i :: 0 <= i < |fields| && fields[i].key == key
  {
    forall i | 0 <= i < |fields|
      ensures fields[i].key in NormalFields(fields) && NormalFields(fields)[fields[i].key] == Normal(fields[i].value) {
      NormalEntry(fields, i);
    }
    forall key | key in NormalFields(fields) ensures exists i :: 0 <= i < |fields| && fields[i].key == key {
      NormalKeys(fields, key);
    }
  }

  /** The value that fails: any decimal as the only element of a list. It is encoded, and what is written
      is refused; the same decimal directly in the map comes back. */
  lemma DecimalInList(key: Bytes, scale: byte, unscaled: nat)
    requires |key| <= 255 && unscaled < TWO_32
    ensures var listed := [Field(key, List([Decimal(scale, unscaled)]))];
            ProperField(listed[0]) && Encode(listed).Some? && Decode(Encode(listed).value) == None
    ensures var bare := [Field(key, Decimal(scale, unscaled))];
            ProperField(bare[0]) && Encode(bare).Some?
            && Decode(Encode(bare).value) == Some(map[key := DDecimal(scale, unscaled)])
  {
    var d := Decimal(scale, unscaled);
    DecimalListed(key, d);
    DecimalBare(key, d);
  }

  lemma DecimalListed(key: Bytes, d: Value)
    requires |key| <= 255 && d.Decimal? && Proper(d)
    ensures var listed := [Field(key, List([d]))];
            ProperField(listed[0]) && Encode(listed).Some? && Decode(Encode(listed).value) == None
  {
    var listed := [Field(key, List([d]))];
    assert [d][0] == d && !NoListedDecimal(d, true) && !NoListedDecimalField(listed[0]);
    assert Trees([d]) == [Tree(d)];
    assert RenderItems([Tree(d)]) == Render(Tree(d)) && |Render(Tree(d))| == 6;
    assert EncodableField(listed[0]) && KeysOk(d) && KeysOk(List([d])) && KeysOkField(listed[0])
      && ProperField(listed[0]);
    RoundTrip(listed);
  }

  lemma DecimalBare(key: Bytes, d: Value)
    requires |key| <= 255 && d.Decimal? && Proper(d)
    ensures var bare := [Field(key, d)];
            ProperField(bare[0]) && Encode(bare).Some?
            && Decode(Encode(bare).value) == Some(map[key := DDecimal(d.scale, d.unscaled)])
  {
    var bare := [Field(key, d)];
    assert NoListedDecimalField(bare[0]) && EncodableField(bare[0]) && KeysOk(d) && KeysOkField(bare[0])
      && ProperField(bare[0]);
    RoundTrip(bare);
    var table := Decode(Encode(bare).value).value;
    assert bare[0].key in table && table[bare[0].key] == Normal(d);
    assert table == map[key := Normal(d)];
  }

  /** The two values differ at most in their Go ints, at any depth. */
  ghost predicate SameButInts(v: Value, w: Value) {
    match (v, w)
    case (Int(m), Int(n)) => true
    case (Map(fs), Map(gs)) => |fs| == |gs| && forall i | 0 <= i < |fs| :: SameFieldButInts(fs[i], gs[i])
    case (List(xs), List(ys)) => |xs| == |ys| && forall i | 0 <= i < |xs| :: SameButInts(xs[i], ys[i])
    case (Maps(xs), Maps(ys)) => |xs| == |ys| && forall i | 0 <= i < |xs| :: SameButInts(xs[i], ys[i])
    case _ => v == w
  }

  ghost predicate SameFieldButInts(f: Field, g: Field) {
    f.key == g.key && SameButInts(f.value, g.value)
  }

  /** Why Go's int is left out: values that differ only in their ints are written alike. */
  lemma {:induction false} IntsLost(v: Value, w: Value)
    requires Proper(v) && Proper(w) && SameButInts(v, w)
    ensures Tree(v) == Tree(w) && (KeysOk(v) <==> KeysOk(w))
    decreases v, 1
  {
    match (v, w)
    case (Map(fs), Map(gs)) => FieldIntsLost(fs, gs, v);
    case (List(xs), List(ys)) => ItemIntsLost(xs, ys, v);
    case (Maps(xs), Maps(ys)) => ItemIntsLost(xs, ys, v);
    case _ =>
  }

  lemma {:induction false} ItemIntsLost(xs: seq<Value>, ys: seq<Value>, v: Value)
    requires |xs| == |ys| && forall i | 0 <= i < |xs| ::
               xs[i] < v && Proper(xs[i]) && Proper(ys[i]) && SameButInts(xs[i], ys[i])
    ensures Trees(xs) == Trees(ys) && forall i | 0 <= i < |xs| :: KeysOk(xs[i]) <==> KeysOk(ys[i])
    decreases v, 0
  {
    hide Proper, SameButInts, Tree, KeysOk;
    forall i | 0 <= i < |xs| ensures Tree(xs[i]) == Tree(ys[i]) && (KeysOk(xs[i]) <==> KeysOk(ys[i])) {
      IntsLost(xs[i], ys[i]);
    }
  }

  lemma {:induction false} FieldIntsLost(fs: seq<Field>, gs: seq<Field>, v: Value)
    requires |fs| == |gs| && forall i | 0 <= i < |fs| ::
               fs[i].value < v && ProperField(fs[i]) && ProperField(gs[i]) && SameFieldButInts(fs[i], gs[i])
    ensures Entries(fs) == Entries(gs) && forall i | 0 <= i < |fs| :: KeysOkField(fs[i]) <==> KeysOkField(gs[i])
    decreases v, 0
  {
    hide Proper, SameButInts, Tree, KeysOk;
    forall i | 0 <= i < |fs|
      ensures EntryTree(fs[i]) == EntryTree(gs[i]) && (KeysOkField(fs[i]) <==> KeysOkField(gs[i])) {
      IntsLost(fs[i].value, gs[i].value);
    }
  }

  /** So the same octets are written for two maps that differ only in their ints, or both are an error. */
  lemma IntIsLost(fs: seq<Field>, gs: seq<Field>)
    requires |fs| == |gs| && forall i | 0 <= i < |fs| ::
               ProperField(fs[i]) && ProperField(gs[i]) && SameFieldButInts(fs[i], gs[i])
    ensures Encode(fs) == Encode(gs)
  {
    FieldIntsLost(fs, gs, Map(fs));
    hide KeysOkField, RenderEntries, Entries;
  }
}
