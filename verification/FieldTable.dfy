/**
 Field tables and arrays on the wire (AMQP 0-9-1, section 4.2.5.5), first as trees. Render writes a
 tree as octets, Read reads octets back, and the two are inverse: every octet string is the
 rendering of at most one tree, and Read finds it exactly when there is one.
 */
module FieldTable {
  import opened Collections
  import opened Bytes

  /** A field value as it is on the wire. Fixed stands for every type of fixed size, among them the
      void type 'V', which has no octets. */
  datatype Wire = Fixed(tag: byte, payload: Bytes) | Short(text: Bytes) | Long(text: Bytes)
                | Array(items: seq<Wire>) | Table(entries: seq<Entry>)

  datatype Entry = Entry(name: Bytes, value: Wire)

  const T_BOOL: byte := 't' as int
  const T_INT8: byte := 'b' as int
  const T_UINT8: byte := 'B' as int
  const T_INT16: byte := 'U' as int
  const T_UINT16: byte := 'u' as int
  const T_INT32: byte := 'I' as int
  const T_UINT32: byte := 'i' as int
  const T_INT64: byte := 'L' as int
  const T_UINT64: byte := 'l' as int
  const T_FLOAT: byte := 'f' as int
  const T_DOUBLE: byte := 'd' as int
  const T_DECIMAL: byte := 'D' as int
  const T_SHORT: byte := 's' as int
  const T_LONG: byte := 'S' as int
  const T_ARRAY: byte := 'A' as int
  const T_TIME: byte := 'T' as int
  const T_TABLE: byte := 'F' as int
  const T_VOID: byte := 'V' as int

  /** The number of octets of a type of fixed size. */
  function Width(tag: byte): Option<nat> {
    if tag == T_VOID then Some(0)
    else if tag == T_BOOL || tag == T_INT8 || tag == T_UINT8 then Some(1)
    else if tag == T_INT16 || tag == T_UINT16 then Some(2)
    else if tag == T_INT32 || tag == T_UINT32 || tag == T_FLOAT then Some(4)
    else if tag == T_DECIMAL then Some(5)
    else if tag == T_INT64 || tag == T_UINT64 || tag == T_DOUBLE || tag == T_TIME then Some(8)
    else None
  }

  // ---------------------------------------------------------------- writing

  function Render(w: Wire): Bytes {
    match w
    case Fixed(tag, payload) => [tag] + payload
    case Short(text) => [T_SHORT, |text| % 256] + text
    case Long(text) => [T_LONG] + Length4(|text|) + text
    case Array(items) => [T_ARRAY] + Length4(|RenderItems(items)|) + RenderItems(items)
    case Table(entries) => [T_TABLE] + Length4(|RenderEntries(entries)|) + RenderEntries(entries)
  }

  function RenderItems(items: seq<Wire>): Bytes {
    if items == [] then [] else Render(items[0]) + RenderItems(items[1..])
  }

  function RenderEntry(e: Entry): Bytes {
    [|e.name| % 256] + e.name + Render(e.value)
  }

  function RenderEntries(entries: seq<Entry>): Bytes {
    if entries == [] then [] else RenderEntry(entries[0]) + RenderEntries(entries[1..])
  }

  /** Every size can be written in the octets it has on the wire. */
  predicate Sized(w: Wire) {
    match w
    case Fixed(tag, payload) => Width(tag) == Some(|payload|)
    case Short(text) => |text| <= 255
    case Long(text) => |text| < TWO_32
    case Array(items) => |RenderItems(items)| < TWO_32 && forall i | 0 <= i < |items| :: Sized(items[i])
    case Table(entries) => |RenderEntries(entries)| < TWO_32 && forall i | 0 <= i < |entries| :: SizedEntry(entries[i])
  }

  predicate SizedEntry(e: Entry) {
    |e.name| <= 255 && Sized(e.value)
  }

  /** No decimal stands directly in an array: the array decoder does not know the type. */
  predicate NoBareDecimal(w: Wire, inArray: bool) {
    match w
    case Fixed(tag, payload) => !(inArray && tag == T_DECIMAL)
    case Array(items) => forall i | 0 <= i < |items| :: NoBareDecimal(items[i], true)
    case Table(entries) => forall i | 0 <= i < |entries| :: NoBareDecimalEntry(entries[i])
    case _ => true
  }

  predicate NoBareDecimalEntry(e: Entry) {
    NoBareDecimal(e.value, false)
  }

  // ---------------------------------------------------------------- reading

  /** A value and the octets after it. */
  function ReadValue(data: Bytes, inArray: bool): (r: Option<(Wire, Bytes)>)
    ensures r.Some? ==> |r.value.1| < |data|
    decreases |data|, 0
  {
    if data == [] then None
    else
      var tag, rest := data[0], data[1..];
      if Width(tag).Some? && !(inArray && tag == T_DECIMAL) then
        var w := Width(tag).value;
        if |rest| < w then None else Some((Fixed(tag, rest[..w]), rest[w..]))
      else if tag == T_SHORT then
        if |rest| < 1 || |rest| - 1 < rest[0] then None else Some((Short(rest[1..1 + rest[0]]), rest[1 + rest[0]..]))
      else if tag == T_LONG || tag == T_ARRAY || tag == T_TABLE then
        if |rest| < 4 || |rest| - 4 < UnBE(rest[..4]) then None
        else
          var body, after := rest[4..4 + UnBE(rest[..4])], rest[4 + UnBE(rest[..4])..];
          if tag == T_LONG then Some((Long(body), after))
          else if tag == T_ARRAY then
            var items := ReadItems(body);
            if items == None then None else Some((Array(items.value), after))
          else
            var entries := ReadEntries(body);
            if entries == None then None else Some((Table(entries.value), after))
      else None
  }

  /** DecodeArray, to a tree. */
  function ReadItems(data: Bytes): Option<seq<Wire>>
    decreases |data|, 2
  {
    if data == [] then Some([])
    else
      var first := ReadValue(data, true);
      if first == None then None
      else
        var rest := ReadItems(first.value.1);
        if rest == None then None else Some([first.value.0] + rest.value)
  }

  function ReadEntry(data: Bytes): (r: Option<(Entry, Bytes)>)
    requires data != []
    ensures r.Some? ==> |r.value.1| < |data|
    decreases |data|, 1
  {
    var n := data[0];
    if |data| - 1 < n then None
    else
      var value := ReadValue(data[1 + n..], false);
      if value == None then None else Some((Entry(data[1..1 + n], value.value.0), value.value.1))
  }

  /** DecodeTable, to a list of entries. */
  function ReadEntries(data: Bytes): Option<seq<Entry>>
    decreases |data|, 2
  {
    if data == [] then Some([])
    else
      var first := ReadEntry(data);
      if first == None then None
      else
        var rest := ReadEntries(first.value.1);
        if rest == None then None else Some([first.value.0] + rest.value)
  }

  // ---------------------------------------------------------------- reading what was written

  lemma ReadFixed(tag: byte, payload: Bytes, rest: Bytes, inArray: bool)
    requires Width(tag) == Some(|payload|)
    ensures ReadValue(Render(Fixed(tag, payload)) + rest, inArray)
         == if inArray && tag == T_DECIMAL then None else Some((Fixed(tag, payload), rest))
  {
    var data := Render(Fixed(tag, payload)) + rest;
    assert data[1..] == payload + rest;
    assert (payload + rest)[..|payload|] == payload && (payload + rest)[|payload|..] == rest;
  }

  lemma ReadShort(text: Bytes, rest: Bytes, inArray: bool)
    requires |text| <= 255
    ensures ReadValue(Render(Short(text)) + rest, inArray) == Some((Short(text), rest))
  {
    var data := Render(Short(text)) + rest;
    assert data[1..] == [|text|] + text + rest;
    assert data[1..][1..1 + |text|] == text && data[1..][1 + |text|..] == rest;
  }

  /** The body of a value with a length of four octets is found again. */
  lemma ReadBody(tag: byte, body: Bytes, rest: Bytes)
    requires |body| < TWO_32
    ensures var data := [tag] + Length4(|body|) + body + rest;
            var tail := data[1..];
            && data[0] == tag && |tail| >= 4 && UnBE(tail[..4]) == |body| && |tail| - 4 >= |body|
            && tail[4..4 + |body|] == body && tail[4 + |body|..] == rest
  {
    UnLength4(|body|);
    var data := [tag] + Length4(|body|) + body + rest;
    assert data[1..] == Length4(|body|) + body + rest;
    assert data[1..][..4] == Length4(|body|);
  }

  lemma ReadLong(text: Bytes, rest: Bytes, inArray: bool)
    requires |text| < TWO_32
    ensures ReadValue(Render(Long(text)) + rest, inArray) == Some((Long(text), rest))
  {
    ReadBody(T_LONG, text, rest);
  }

  lemma ReadArray(items: seq<Wire>, rest: Bytes, inArray: bool)
    requires |RenderItems(items)| < TWO_32
    ensures var read := ReadItems(RenderItems(items));
            ReadValue(Render(Array(items)) + rest, inArray) == if read.Some? then Some((Array(read.value), rest))
              else None
  {
    hide RenderItems, ReadItems;
    ReadBody(T_ARRAY, RenderItems(items), rest);
  }

  lemma ReadTable(entries: seq<Entry>, rest: Bytes, inArray: bool)
    requires |RenderEntries(entries)| < TWO_32
    ensures var read := ReadEntries(RenderEntries(entries));
            ReadValue(Render(Table(entries)) + rest, inArray) == if read.Some? then Some((Table(read.value), rest))
              else None
  {
    hide RenderEntries, ReadEntries;
    ReadBody(T_TABLE, RenderEntries(entries), rest);
  }

  /** Read undoes Render: it gives the tree back, unless a decimal stands directly in an array. */
  lemma {:induction false} ReadRender(w: Wire, rest: Bytes, inArray: bool)
    requires Sized(w)
    ensures ReadValue(Render(w) + rest, inArray) == if NoBareDecimal(w, inArray) then Some((w, rest)) else None
    decreases w
  {
    hide ReadValue, Render, RenderItems, RenderEntries;
    match w
    case Fixed(tag, payload) => ReadFixed(tag, payload, rest, inArray);
    case Short(text) => ReadShort(text, rest, inArray);
    case Long(text) => ReadLong(text, rest, inArray);
    case Array(items) =>
      ReadArray(items, rest, inArray);
      ReadRenderItems(items);
    case Table(entries) =>
      ReadTable(entries, rest, inArray);
      ReadRenderEntries(entries);
  }

  lemma {:induction false} ReadRenderItems(items: seq<Wire>)
    requires forall i | 0 <= i < |items| :: Sized(items[i])
    ensures ReadItems(RenderItems(items))
            == if forall i | 0 <= i < |items| :: NoBareDecimal(items[i], true) then Some(items) else None
    decreases items
  {
    if items != [] {
      var first, rest := items[0], items[1..];
      ReadRender(first, RenderItems(rest), true);
      RenderSome(first);
      assert items == [first] + rest;
      assert forall i | 0 <= i < |rest| :: rest[i] == items[i + 1];
      ReadRenderItems(rest);
      assert (forall i | 0 <= i < |items| :: NoBareDecimal(items[i], true))
        <==> NoBareDecimal(first, true) && forall i | 0 <= i < |rest| :: NoBareDecimal(rest[i], true);
    }
  }

  lemma RenderSome(w: Wire)
    ensures Render(w) != []
  {
  }

  lemma {:induction false} ReadRenderEntry(e: Entry, rest: Bytes)
    requires SizedEntry(e)
    ensures RenderEntry(e) + rest != []
    ensures ReadEntry(RenderEntry(e) + rest) == if NoBareDecimalEntry(e) then Some((e, rest)) else None
    decreases e
  {
    var data := RenderEntry(e) + rest;
    var n := |e.name|;
    assert data[0] == n && data[1..1 + n] == e.name;
    assert data[1 + n..] == Render(e.value) + rest;
    ReadRender(e.value, rest, false);
  }

  lemma {:induction false} ReadRenderEntries(entries: seq<Entry>)
    requires forall i | 0 <= i < |entries| :: SizedEntry(entries[i])
    ensures ReadEntries(RenderEntries(entries))
         == if forall i | 0 <= i < |entries| :: NoBareDecimalEntry(entries[i]) then Some(entries) else None
    decreases entries
  {
    if entries != [] {
      var first, rest := entries[0], entries[1..];
      ReadRenderEntry(first, RenderEntries(rest));
      assert entries == [first] + rest;
      assert forall i | 0 <= i < |rest| :: rest[i] == entries[i + 1];
      ReadRenderEntries(rest);
      assert (forall i | 0 <= i < |entries| :: NoBareDecimalEntry(entries[i]))
        <==> NoBareDecimalEntry(first) && forall i | 0 <= i < |rest| :: NoBareDecimalEntry(rest[i]);
    }
  }

  // ---------------------------------------------------------------- writing what was read

  lemma RenderFixed(data: Bytes, inArray: bool)
    requires ReadValue(data, inArray).Some? && ReadValue(data, inArray).value.0.Fixed?
    ensures var (w, rest) := ReadValue(data, inArray).value;
            Sized(w) && NoBareDecimal(w, inArray) && Render(w) + rest == data
  {
    var (w, rest) := ReadValue(data, inArray).value;
    assert data == [data[0]] + (w.payload + rest);
  }

  lemma RenderShort(data: Bytes, inArray: bool)
    requires ReadValue(data, inArray).Some? && ReadValue(data, inArray).value.0.Short?
    ensures var (w, rest) := ReadValue(data, inArray).value;
            Sized(w) && NoBareDecimal(w, inArray) && Render(w) + rest == data
  {
    var (w, rest) := ReadValue(data, inArray).value;
    assert data[1..] == [|w.text|] + w.text + rest;
    assert data == [data[0]] + data[1..];
  }

  /** The octets that follow the tag: a length, as many octets, and the rest. */
  ghost predicate Split(data: Bytes, tag: byte, body: Bytes, rest: Bytes) {
    data == [tag] + Length4(|body|) + body + rest && |body| < TWO_32 && |body| < |data|
  }

  lemma ReadSplit(data: Bytes, inArray: bool) returns (body: Bytes)
    requires ReadValue(data, inArray).Some? && !ReadValue(data, inArray).value.0.Fixed?
             && !ReadValue(data, inArray).value.0.Short?
    ensures var (w, rest) := ReadValue(data, inArray).value;
            && (w.Long? ==> Split(data, T_LONG, body, rest) && w.text == body)
            && (w.Array? ==> Split(data, T_ARRAY, body, rest) && ReadItems(body) == Some(w.items))
            && (w.Table? ==> Split(data, T_TABLE, body, rest) && ReadEntries(body) == Some(w.entries))
  {
    hide ReadItems, ReadEntries;
    var tail := data[1..];
    var n := UnBE(tail[..4]);
    body := tail[4..4 + n];
    Length4Of(tail[..4]);
    assert tail == tail[..4] + body + tail[4 + n..];
    assert data == [data[0]] + tail;
  }

  /** Render undoes Read: what is accepted is the rendering of the tree it was read as. */
  lemma {:induction false} RenderRead(data: Bytes, inArray: bool)
    requires ReadValue(data, inArray).Some?
    ensures var (w, rest) := ReadValue(data, inArray).value;
            Sized(w) && NoBareDecimal(w, inArray) && Render(w) + rest == data
    decreases |data|, 0
  {
    hide ReadValue, RenderItems, RenderEntries, ReadItems, ReadEntries;
    var w := ReadValue(data, inArray).value.0;
    if w.Fixed? {
      RenderFixed(data, inArray);
    } else if w.Short? {
      RenderShort(data, inArray);
    } else {
      var body := ReadSplit(data, inArray);
      if w.Array? { RenderReadItems(body); }
      if w.Table? { RenderReadEntries(body); }
    }
  }

  lemma {:induction false} RenderReadItems(data: Bytes)
    requires ReadItems(data).Some?
    ensures var items := ReadItems(data).value;
            && RenderItems(items) == data
            && forall i | 0 <= i < |items| :: Sized(items[i]) && NoBareDecimal(items[i], true)
    decreases |data|, 2
  {
    if data != [] {
      RenderRead(data, true);
      RenderReadItems(ReadValue(data, true).value.1);
    }
  }

  lemma {:induction false} RenderReadEntry(data: Bytes)
    requires data != [] && ReadEntry(data).Some?
    ensures var (e, rest) := ReadEntry(data).value;
            SizedEntry(e) && NoBareDecimalEntry(e) && RenderEntry(e) + rest == data
    decreases |data|, 1
  {
    var n := data[0];
    RenderRead(data[1 + n..], false);
    assert data == [n] + data[1..1 + n] + data[1 + n..];
  }

  lemma {:induction false} RenderReadEntries(data: Bytes)
    requires ReadEntries(data).Some?
    ensures var entries := ReadEntries(data).value;
            && RenderEntries(entries) == data
            && forall i | 0 <= i < |entries| :: SizedEntry(entries[i]) && NoBareDecimalEntry(entries[i])
    decreases |data|, 2
  {
    if data != [] {
      RenderReadEntry(data);
      RenderReadEntries(ReadEntry(data).value.1);
    }
  }

  /** The grammar. */
  ghost predicate WellFormed(entries: seq<Entry>) {
    forall i | 0 <= i < |entries| :: SizedEntry(entries[i]) && NoBareDecimalEntry(entries[i])
  }

  /** The decoder is exact: it accepts the concatenations of well-formed entries and nothing else,
      and each of them in one way only. */
  lemma AcceptsExactly(data: Bytes, entries: seq<Entry>)
    ensures ReadEntries(data) == Some(entries) <==> WellFormed(entries) && RenderEntries(entries) == data
  {
    if ReadEntries(data).Some? { RenderReadEntries(data); }
    if WellFormed(entries) && RenderEntries(entries) == data { ReadRenderEntries(entries); }
  }
}
