/**
 The encoder and decoder of field tables as they run: a cursor that advances over a slice, a buffer
 that is appended to, and loops that fill a map or a list. They are proved to compute the functions
 of FieldTable and FieldValues, on every input.
 */
module FieldTableCodec {
  import opened Collections
  import opened Bytes
  import opened FieldTable
  import opened FieldValues

  /** bytes.Reader over data. */
  class Reader {
    const data: Bytes
    var pos: nat

    constructor (data: Bytes)
      ensures this.data == data && pos == 0
    {
      this.data := data;
      pos := 0;
    }

    ghost predicate Valid()
      reads this
    {
      pos <= |data|
    }

    function Rest(): Bytes
      requires Valid()
      reads this
    {
      data[pos..]
    }

    method Len() returns (n: nat)
      requires Valid()
      ensures n == |Rest()|
    {
      n := |data| - pos;
    }

    /** readN, and what binary.Read does for a value of fixed size: the next n octets, or an error if
        fewer are left. */
    method ReadN(n: nat) returns (bs: Option<Bytes>)
      requires Valid()
      modifies this
      ensures Valid()
      ensures bs.Some? <==> n <= |old(Rest())|
      ensures bs.Some? ==> bs.value == old(Rest())[..n] && Rest() == old(Rest())[n..]
      ensures bs == None ==> pos == old(pos)
    {
      var len := Len();
      if n > len { return None; }
      bs := Some(data[pos..pos + n]);
      assert old(Rest())[..n] == data[pos..pos + n] && old(Rest())[n..] == data[pos + n..];
      pos := pos + n;
    }

    /** sliceN: the next n octets of the slice the reader was made for, cut out of that slice. */
    method SliceN(whole: Bytes, n: nat) returns (bs: Option<Bytes>)
      requires Valid() && whole == data
      modifies this
      ensures Valid()
      ensures bs.Some? <==> n <= |old(Rest())|
      ensures bs.Some? ==> bs.value == old(Rest())[..n] && Rest() == old(Rest())[n..]
    {
      var len := Len();
      if n > len { return None; }
      var start := |whole| - len;
      var end := start + n;
      pos := pos + n;
      bs := Some(whole[start..end]);
      assert old(Rest())[..n] == whole[start..end] && old(Rest())[n..] == data[pos..];
    }
  }

  // ---------------------------------------------------------------- decoding

  function Prepend<T>(done: seq<T>, rest: Option<seq<T>>): Option<seq<T>> {
    if rest == None then None else Some(done + rest.value)
  }

  lemma PrependNext<T>(done: seq<T>, x: T, rest: Option<seq<T>>)
    ensures Prepend(done, Prepend([x], rest)) == Prepend(done + [x], rest)
  {
    if rest.Some? { assert done + ([x] + rest.value) == done + [x] + rest.value; }
  }

  lemma NextEntry(data: Bytes)
    requires data != []
    ensures ReadEntries(data) ==
            if ReadEntry(data) == None then None
              else Prepend([ReadEntry(data).value.0], ReadEntries(ReadEntry(data).value.1))
  {
  }

  lemma NextItem(data: Bytes)
    requires data != []
    ensures ReadItems(data) ==
            if ReadValue(data, true) == None then None
              else Prepend([ReadValue(data, true).value.0], ReadItems(ReadValue(data, true).value.1))
  {
  }

  lemma TableNext(done: seq<Entry>, e: Entry)
    ensures TableMeaning(done + [e]) == TableMeaning(done)[e.name := EntryMeaning(e)]
  {
    assert (done + [e])[..|done|] == done;
  }

  lemma ItemsNext(done: seq<Wire>, w: Wire)
    ensures ItemMeanings(done + [w]) == ItemMeanings(done) + [Meaning(w)]
  {
  }

  /** A value of fixed size, after its tag. */
  method DecodeFixed(r: Reader, tag: byte) returns (v: Option<Decoded>)
    requires r.Valid() && Width(tag).Some?
    modifies r
    ensures r.Valid()
    ensures v.Some? <==> Width(tag).value <= |old(r.Rest())|
    ensures v.Some? ==>
              v.value == FixedMeaning(tag, old(r.Rest())[..Width(tag).value])
              && r.Rest() == old(r.Rest())[Width(tag).value..]
  {
    var bs := r.ReadN(Width(tag).value);
    v := if bs == None then None else Some(FixedMeaning(tag, bs.value));
  }

  /** DecodeShortStr. */
  method DecodeShortStr(r: Reader) returns (text: Option<Bytes>)
    requires r.Valid()
    modifies r
    ensures r.Valid()
    ensures var was := old(r.Rest());
            && (text.Some? <==> |was| >= 1 && was[0] <= |was| - 1)
            && (text.Some? ==> text.value == was[1..1 + was[0]] && r.Rest() == was[1 + was[0]..])
  {
    ghost var was := r.Rest();
    var n := r.ReadN(1);
    if n == None { return None; }
    assert n.value == [was[0]];
    text := r.ReadN(n.value[0]);
    if text.Some? { assert was[1..][..was[0]] == was[1..1 + was[0]] && was[1..][was[0]..] == was[1 + was[0]..]; }
  }

  /** A length of four octets and as many octets: DecodeLongStr, and the slice of a table or array. */
  method DecodeLong(r: Reader) returns (body: Option<Bytes>)
    requires r.Valid()
    modifies r
    ensures r.Valid()
    ensures var was := old(r.Rest());
            && (body.Some? <==> |was| >= 4 && UnBE(was[..4]) <= |was| - 4)
            && (body.Some? ==> body.value == was[4..4 + UnBE(was[..4])] && r.Rest() == was[4 + UnBE(was[..4])..])
  {
    ghost var was := r.Rest();
    var length := r.ReadN(4);
    if length == None { return None; }
    var n := UnBE(length.value);
    body := r.SliceN(r.data, n);
    if body.Some? { assert was[4..][..n] == was[4..4 + n] && was[4..][n..] == was[4 + n..]; }
  }

  /** One field value or array element: the switch that DecodeTable and DecodeArray both have, except
      that the one for elements has no case for decimals. */
  method DecodeValue(r: Reader, inArray: bool) returns (v: Option<Decoded>)
    requires r.Valid()
    modifies r
    ensures r.Valid()
    ensures var read := ReadValue(old(r.Rest()), inArray);
            && (v.Some? <==> read.Some?)
            && (v.Some? ==> v.value == Meaning(read.value.0) && r.Rest() == read.value.1)
    decreases |r.Rest()|, 0
  {
    hide FixedMeaning, ReadItems, ReadEntries, UnBE, TableMeaning, ItemMeanings;
    ghost var was := r.Rest();
    var tag := r.ReadN(1);
    if tag == None { return None; }
    assert tag.value == [was[0]];
    if Width(tag.value[0]).Some? && !(inArray && tag.value[0] == T_DECIMAL) {
      v := DecodeFixed(r, tag.value[0]);
    } else if tag.value[0] == T_SHORT {
      var text := DecodeShortStr(r);
      v := if text == None then None else Some(DStr(text.value));
    } else if tag.value[0] == T_LONG || tag.value[0] == T_ARRAY || tag.value[0] == T_TABLE {
      v := DecodeNested(r, tag.value[0]);
    } else {
      v := None;
    }
  }

  /** A long string, array or table after its tag; the nested ones are decoded from their own slice. */
  method DecodeNested(r: Reader, tag: byte) returns (v: Option<Decoded>)
    requires r.Valid() && (tag == T_LONG || tag == T_ARRAY || tag == T_TABLE)
    modifies r
    ensures r.Valid()
    ensures var was := old(r.Rest());
            var fits := |was| >= 4 && UnBE(was[..4]) <= |was| - 4;
            && (!fits ==> v == None)
            && (fits ==> v == NestedMeaning(tag, was[4..4 + UnBE(was[..4])]))
            && (v.Some? ==> r.Rest() == was[4 + UnBE(was[..4])..])
    decreases |r.Rest()|, 3
  {
    hide ReadItems, ReadEntries, UnBE, TableMeaning, ItemMeanings;
    var body := DecodeLong(r);
    if body == None { return None; }
    if tag == T_LONG {
      v := Some(DStr(body.value));
    } else if tag == T_ARRAY {
      var items := DecodeArray(body.value);
      v := if items == None then None else Some(DArray(items.value));
    } else {
      var table := DecodeTable(body.value);
      v := if table == None then None else Some(DTable(table.value));
    }
  }

  function NestedMeaning(tag: byte, body: Bytes): Option<Decoded> {
    if tag == T_LONG then Some(DStr(body))
    else if tag == T_ARRAY then
      if ReadItems(body) == None then None else Some(DArray(ItemMeanings(ReadItems(body).value)))
    else if Decode(body) == None then None else Some(DTable(Decode(body).value))
  }

  method DecodeArray(data: Bytes) returns (items: Option<seq<Decoded>>)
    ensures items == if ReadItems(data) == None then None else Some(ItemMeanings(ReadItems(data).value))
    decreases |data|, 1
  {
    hide ReadItems, ReadValue, Meaning, ItemMeanings;
    var r := new Reader(data);
    var result: seq<Decoded> := [];
    ghost var done: seq<Wire> := [];
    NoItems();
    assert data[0..] == data;
    while r.pos < |data|
      invariant r.Valid() && r.data == data && fresh(r)
      invariant result == ItemMeanings(done) && ReadItems(data) == Prepend(done, ReadItems(r.Rest()))
      decreases |data| - r.pos
    {
      ghost var was := r.Rest();
      NextItem(was);
      var v := DecodeValue(r, true);
      if v == None { return None; }
      ghost var w := ReadValue(was, true).value.0;
      ItemsNext(done, w);
      PrependNext(done, w, ReadItems(r.Rest()));
      done := done + [w];
      result := result + [v.value];
    }
    assert r.Rest() == [] && done + [] == done;
    items := Some(result);
  }

  lemma NoItems()
    ensures ReadItems([]) == Some([]) && ItemMeanings([]) == [] && ReadEntries([]) == Some([])
            && TableMeaning([]) == map[]
    ensures forall rest: Option<seq<Wire>> :: Prepend([], rest) == rest
    ensures forall rest: Option<seq<Entry>> :: Prepend([], rest) == rest
  {
    assert forall ws: seq<Wire> :: [] + ws == ws;
    assert forall es: seq<Entry> :: [] + es == es;
  }

  /** The name and value of one field. */
  method DecodeField(r: Reader) returns (field: Option<(Bytes, Decoded)>)
    requires r.Valid() && r.Rest() != []
    modifies r
    ensures r.Valid()
    ensures var read := ReadEntry(old(r.Rest()));
            && (field.Some? <==> read.Some?)
            && (field.Some? ==>
                field.value == (read.value.0.name, EntryMeaning(read.value.0)) && r.Rest() == read.value.1)
    decreases |r.Rest()|, 1
  {
    hide ReadValue, Meaning;
    ghost var was := r.Rest();
    var n := r.ReadN(1);
    if n == None { return None; }
    assert n.value == [was[0]];
    var name := r.ReadN(n.value[0]);
    if name == None { return None; }
    assert was[1..][..was[0]] == was[1..1 + was[0]] && was[1..][was[0]..] == was[1 + was[0]..];
    var v := DecodeValue(r, false);
    field := if v == None then None else Some((name.value, v.value));
  }

  method DecodeTable(data: Bytes) returns (table: Option<map<Bytes, Decoded>>)
    ensures table == Decode(data)
    decreases |data|, 2
  {
    hide ReadEntries, ReadEntry, EntryMeaning, TableMeaning;
    var r := new Reader(data);
    var result: map<Bytes, Decoded> := map[];
    ghost var done: seq<Entry> := [];
    NoItems();
    assert data[0..] == data;
    while r.pos < |data|
      invariant r.Valid() && r.data == data && fresh(r)
      invariant result == TableMeaning(done) && ReadEntries(data) == Prepend(done, ReadEntries(r.Rest()))
      decreases |data| - r.pos
    {
      ghost var was := r.Rest();
      NextEntry(was);
      var field := DecodeField(r);
      if field == None { return None; }
      ghost var e := ReadEntry(was).value.0;
      TableNext(done, e);
      PrependNext(done, e, ReadEntries(r.Rest()));
      done := done + [e];
      result := result[field.value.0 := field.value.1];
    }
    assert r.Rest() == [] && done + [] == done;
    table := Some(result);
  }

  // ---------------------------------------------------------------- encoding

  /** bytes.Buffer. */
  class Buffer {
    var bytes: Bytes

    constructor ()
      ensures bytes == []
    {
      bytes := [];
    }

    method Write(bs: Bytes)
      modifies this
      ensures bytes == old(bytes) + bs
    {
      bytes := bytes + bs;
    }
  }

  method EncodeLongStr(buf: Buffer, data: Bytes)
    modifies buf
    ensures buf.bytes == old(buf.bytes) + Length4(|data|) + data
  {
    buf.Write(Length4(|data|));
    buf.Write(data);
  }

  method EncodeShortStr(buf: Buffer, data: Bytes) returns (ok: bool)
    modifies buf
    ensures ok == (|data| <= 255)
    ensures buf.bytes == if ok then old(buf.bytes) + [|data| % 256] + data else old(buf.bytes)
  {
    if |data| > 255 { return false; }
    buf.Write([|data| % 256]);
    buf.Write(data);
    ok := true;
  }

  lemma {:induction false} RenderItemsNext(items: seq<Wire>, k: nat)
    requires k < |items|
    ensures RenderItems(items[..k + 1]) == RenderItems(items[..k]) + Render(items[k])
    decreases k
  {
    if k > 0 {
      assert items[..k + 1][1..] == items[1..][..k] && items[..k][1..] == items[1..][..k - 1];
      RenderItemsNext(items[1..], k - 1);
    } else {
      assert items[..1][1..] == [];
    }
  }

  lemma {:induction false} RenderEntriesNext(entries: seq<Entry>, k: nat)
    requires k < |entries|
    ensures RenderEntries(entries[..k + 1]) == RenderEntries(entries[..k]) + RenderEntry(entries[k])
    decreases k
  {
    if k > 0 {
      assert entries[..k + 1][1..] == entries[1..][..k] && entries[..k][1..] == entries[1..][..k - 1];
      RenderEntriesNext(entries[1..], k - 1);
    } else {
      assert entries[..1][1..] == [];
    }
  }

  /** A tag, a length and a body. */
  method WriteLong(buf: Buffer, tag: byte, body: Bytes)
    modifies buf
    ensures buf.bytes == old(buf.bytes) + ([tag] + Length4(|body|) + body)
  {
    buf.Write([tag]);
    EncodeLongStr(buf, body);
  }

  /** encodeValueToBuffer. Its only error is a key that is too long; the buffer is then given up. */
  method EncodeValueToBuffer(v: Value, buf: Buffer) returns (ok: bool)
    requires Proper(v)
    modifies buf
    ensures ok == KeysOk(v)
    ensures ok ==> buf.bytes == old(buf.bytes) + Render(Tree(v))
    decreases v
  {
    hide RenderItems, RenderEntries, Trees, Entries, LongStrings;
    ok := true;
    match v
    case Bool(b) => buf.Write([T_BOOL] + [if b then 1 else 0]);
    case Number(k, n) => buf.Write([TagOf(k)] + NumberPayload(k, n));
    case Int(n) => buf.Write([T_INT32]);
      assert [T_INT32] + [] == [T_INT32];
    case Decimal(scale, unscaled) => buf.Write([T_DECIMAL] + ([scale] + BE(4, unscaled)));
    case Str(text) => WriteLong(buf, T_LONG, text);
    case Time(seconds, nanos) => buf.Write([T_TIME] + NumberPayload(Int64, seconds));
    case Map(fields) =>
      var data := EncodeTable(fields);
      if data == None { return false; }
      WriteLong(buf, T_TABLE, data.value);
    case List(values) =>
      var data := EncodeArray(values);
      if data == None { return false; }
      WriteLong(buf, T_ARRAY, data.value);
    case Maps(maps) =>
      var data := EncodeArray(maps);
      if data == None { return false; }
      WriteLong(buf, T_ARRAY, data.value);
    case Strings(texts) =>
      var data := EncodeStrings(texts);
      WriteLong(buf, T_ARRAY, data);
    case Other =>
      buf.Write([T_VOID]);
      assert [T_VOID] + [] == [T_VOID];
  }

  method EncodeArray(values: seq<Value>) returns (data: Option<Bytes>)
    requires forall i | 0 <= i < |values| :: Proper(values[i])
    ensures data == if forall i | 0 <= i < |values| :: KeysOk(values[i]) then Some(RenderItems(Trees(values))) else None
    decreases values
  {
    hide KeysOk, Proper, Tree, Render, RenderItems;
    var arrContent := new Buffer();
    ghost var ws := Trees(values);
    assert forall i | 0 <= i < |ws| :: ws[i] == Tree(values[i]);
    hide Trees;
    assert RenderItems(ws[..0]) == [] by { NothingRendered(); }
    for k := 0 to |values|
      invariant fresh(arrContent) && arrContent.bytes == RenderItems(ws[..k])
      invariant forall i | 0 <= i < k :: KeysOk(values[i])
    {
      RenderItemsNext(ws, k);
      var itemBuf := new Buffer();
      var ok := EncodeValueToBuffer(values[k], itemBuf);
      if !ok { return None; }
      assert itemBuf.bytes == Render(ws[k]);
      arrContent.Write(itemBuf.bytes);
    }
    assert ws[..|values|] == ws;
    data := Some(arrContent.bytes);
  }

  lemma NothingRendered()
    ensures RenderItems([]) == [] && RenderEntries([]) == []
  {
  }

  /** A []string is copied to a list of any values and encoded as such; each is a long string. */
  method EncodeStrings(texts: seq<Bytes>) returns (data: Bytes)
    ensures data == RenderItems(LongStrings(texts))
  {
    var buf := new Buffer();
    ghost var ws := LongStrings(texts);
    assert RenderItems(ws[..0]) == [];
    for k := 0 to |texts|
      invariant fresh(buf) && buf.bytes == RenderItems(ws[..k])
    {
      RenderItemsNext(ws, k);
      WriteLong(buf, T_LONG, texts[k]);
    }
    assert ws[..|texts|] == ws;
    data := buf.bytes;
  }

  /** EncodeTable; fields is the map in the order of its iteration. */
  method EncodeTable(fields: seq<Field>) returns (data: Option<Bytes>)
    requires forall i | 0 <= i < |fields| :: ProperField(fields[i])
    ensures data == Encode(fields)
    decreases fields
  {
    hide KeysOk, Proper, Tree, Render, RenderEntries;
    var buf := new Buffer();
    ghost var es := Entries(fields);
    assert forall i | 0 <= i < |es| :: es[i] == EntryTree(fields[i]);
    hide Entries;
    assert RenderEntries(es[..0]) == [] by { NothingRendered(); }
    for k := 0 to |fields|
      invariant fresh(buf) && buf.bytes == RenderEntries(es[..k])
      invariant forall i | 0 <= i < k :: KeysOkField(fields[i])
    {
      RenderEntriesNext(es, k);
      ghost var before := buf.bytes;
      var ok := EncodeShortStr(buf, fields[k].key);
      if !ok { return None; }
      ok := EncodeValueToBuffer(fields[k].value, buf);
      if !ok { return None; }
      assert buf.bytes == before + RenderEntry(es[k]);
    }
    assert es[..|fields|] == es;
    data := Some(buf.bytes);
  }
}
