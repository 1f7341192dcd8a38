/**
 The unacked deliveries of one channel (delivery.go, ack.go, recover.go, consumer.go).

 A channel is first a value: the last delivery tag and one map from tag to record. The class
 ChannelDeliveryState then keeps what the broker keeps, three overlapping indexes of shared,
 mutable records, and every one of its methods is proved to do to the three indexes exactly
 what the function of the same purpose does to the one map.
 */
module ChannelDelivery {
  import opened Collections

  /** A queue name or consumer tag. Only equality of names matters. */
  datatype Name = Name(text: string)

  /** A message as one queue holds it. id names the published message; copy tells the queues'
      copies apart, and origin is the generation of the queue it was published to. */
  datatype Message = Message(id: nat, copy: nat, origin: nat)

  /** owner identifies the consumer object the record was delivered to. */
  datatype Record = Record(tag: nat, consumerTag: Name, fromGet: bool, queue: Name, msg: Message, owner: nat,
                           queueDeleted: bool, consumerCancelled: bool)
  {
    /** Listed in the index of its source, and not only by tag. */
    predicate Attached() {
      !queueDeleted && !consumerCancelled
    }
  }

  datatype Qos = Qos(globalPrefetch: nat, nextPrefetch: nat, prefetchGlobal: bool, flowActive: bool)

  datatype Channel = Channel(last: nat, records: map<nat, Record>, qos: Qos)

  const EMPTY_CHANNEL := Channel(0, map[], Qos(0, 0, false, true))

  ghost predicate WellFormed(ch: Channel) {
    && (forall t | t in ch.records :: ch.records[t].tag == t && 1 <= t <= ch.last)
    && (forall t | t in ch.records :: ch.records[t].consumerCancelled ==> !ch.records[t].fromGet)
  }

  // ---------------------------------------------------------------- what each operation does

  /** The deliveries that count against a consumer tag. */
  function OfConsumer(ch: Channel, consumerTag: Name): set<nat> {
    set t | t in ch.records && ByConsumer(ch.records[t], consumerTag)
  }

  predicate ByConsumer(r: Record, consumerTag: Name) {
    !r.fromGet && r.Attached() && r.consumerTag == consumerTag
  }

  function TrackConsumer(ch: Channel, consumerTag: Name, queue: Name, msg: Message, owner: nat): Channel {
    var tag := ch.last + 1;
    ch.(last := tag, records := ch.records[tag := Record(tag, consumerTag, false, queue, msg, owner, false, false)])
  }

  function TrackGet(ch: Channel, queue: Name, msg: Message): Channel {
    var tag := ch.last + 1;
    ch.(last := tag, records := ch.records[tag := Record(tag, Name(""), true, queue, msg, 0, false, false)])
  }

  /** The tags an ack or nack settles; None when it names a delivery that is not outstanding. */
  function Settles(ch: Channel, tag: nat, multiple: bool): (r: Option<set<nat>>)
    ensures r.Some? ==> r.value <= ch.records.Keys
    ensures r.Some? && !multiple ==> r.value == {tag}
    ensures r.Some? && multiple ==> r.value == set t | t in ch.records && (tag == 0 || t <= tag)
    ensures r == None <==> tag !in ch.records && !(multiple && tag == 0)
  {
    if multiple && tag == 0 then Some(ch.records.Keys)
    else if tag !in ch.records then None
    else if multiple then Some(set t | t in ch.records && t <= tag)
    else Some({tag})
  }

  function Without(ch: Channel, tags: set<nat>): Channel {
    ch.(records := ch.records - tags)
  }

  function DetachConsumer(ch: Channel, consumerTag: Name): Channel {
    ch.(records := map t | t in ch.records :: Cancelled(ch.records[t], consumerTag))
  }

  function Cancelled(r: Record, consumerTag: Name): Record {
    if ByConsumer(r, consumerTag) then r.(consumerCancelled := true) else r
  }

  function DetachQueue(ch: Channel, queue: Name): Channel {
    ch.(records := map t | t in ch.records :: Marked(ch.records[t], queue))
  }

  function Marked(r: Record, queue: Name): Record {
    if r.queue == queue then r.(queueDeleted := true) else r
  }

  /** The tags of the deliveries that may go back to their queue. */
  function Requeueable(ch: Channel): set<nat> {
    set t | t in ch.records && !ch.records[t].queueDeleted
  }

  /** records lists the channel's records with the given tags, each exactly once. */
  ghost predicate Lists(records: seq<Record>, ch: Channel, tags: set<nat>) {
    && (forall i | 0 <= i < |records| :: records[i].tag in tags)
    && (forall i | 0 <= i < |records| :: records[i].tag in ch.records && ch.records[records[i].tag] == records[i])
    && (forall i, j | 0 <= i < j < |records| :: records[i].tag != records[j].tag)
    && (forall t | t in tags :: t in TagsOf(records))
  }

  function TagsOf(records: seq<Record>): set<nat> {
    set r | r in records :: r.tag
  }

  lemma ListsAppend(records: seq<Record>, ch: Channel, tags: set<nat>, record: Record)
    requires Lists(records, ch, tags)
    requires record.tag in ch.records && ch.records[record.tag] == record && record.tag !in tags
    ensures Lists(records + [record], ch, tags + {record.tag})
  {
    assert record in records + [record];
    forall t | t in tags ensures t in TagsOf(records + [record]) {
      var r :| r in records && r.tag == t;
      assert r in records + [record];
    }
  }

  /** The tags a multiple ack has removed once it has looked at the visited ones. */
  function Popped(visited: set<nat>, tag: nat): set<nat> {
    set t | t in visited && (tag == 0 || t <= tag)
  }

  // ---------------------------------------------------------------- the broker's three indexes

  type Index = map<nat, Record>

  /** The get index lists the attached records of basic.get and no other. */
  ghost predicate GetIndexOk(byTag: Index, byGet: Index) {
    && (forall t | t in byGet :: t in byTag && byGet[t] == byTag[t])
    && (forall t | t in byTag :: t in byGet <==> byTag[t].fromGet && byTag[t].Attached())
  }

  /** The consumer index lists the attached records of each consumer tag and no other, and holds
      no empty inner map. */
  ghost predicate ConsumerIndexOk(byTag: Index, byConsumer: map<Name, Index>) {
    && (forall c | c in byConsumer :: byConsumer[c] != map[])
    && (forall c, t | c in byConsumer && t in byConsumer[c] ::
          t in byTag && byConsumer[c][t] == byTag[t] && ByConsumer(byTag[t], c))
    && (forall t | t in byTag && !byTag[t].fromGet && byTag[t].Attached() ::
          byTag[t].consumerTag in byConsumer && t in byConsumer[byTag[t].consumerTag])
  }

  ghost predicate Indexed(ch: Channel, byGet: Index, byConsumer: map<Name, Index>) {
    WellFormed(ch) && GetIndexOk(ch.records, byGet) && ConsumerIndexOk(ch.records, byConsumer)
  }

  /** byTag' is byTag with the delivery dropped or detached. */
  ghost predicate Released(byTag: Index, byTag': Index, record: Record) {
    && record.tag in byTag && byTag[record.tag] == record
    && byTag - {record.tag} == byTag' - {record.tag}
    && (record.tag in byTag' ==> !byTag'[record.tag].Attached())
  }

  function Untracked(byConsumer: map<Name, Index>, record: Record): map<Name, Index> {
    if record.consumerTag in byConsumer then
      var inner: Index := byConsumer[record.consumerTag] - {record.tag};
      if |inner| == 0 then byConsumer - {record.consumerTag} else byConsumer[record.consumerTag := inner]
    else byConsumer
  }

  lemma ReleasedElsewhere(byTag: Index, byTag': Index, record: Record, t: nat)
    requires Released(byTag, byTag', record) && t != record.tag
    ensures t in byTag <==> t in byTag'
    ensures t in byTag ==> byTag[t] == byTag'[t]
  {
    assert t in byTag <==> t in byTag - {record.tag};
    assert t in byTag' <==> t in byTag' - {record.tag};
  }

  /** Dropping a released record from the get index restores that index. */
  lemma UntrackGetIndex(byTag: Index, byTag': Index, byGet: Index, record: Record)
    requires Released(byTag, byTag', record) && GetIndexOk(byTag, byGet)
    ensures GetIndexOk(byTag', if record.fromGet then byGet - {record.tag} else byGet)
  {
    var out := if record.fromGet then byGet - {record.tag} else byGet;
    forall t: nat
      ensures t in out ==> t in byTag' && out[t] == byTag'[t]
      ensures t in byTag' ==> (t in out <==> byTag'[t].fromGet && byTag'[t].Attached())
    {
      if t != record.tag { ReleasedElsewhere(byTag, byTag', record, t); }
    }
  }

  /** What is left in a consumer's map is still by reference. */
  lemma UntrackedRefers(byTag: Index, byTag': Index, byConsumer: map<Name, Index>, record: Record, c: Name, t: nat)
    requires Released(byTag, byTag', record) && ConsumerIndexOk(byTag, byConsumer)
    requires var out := if record.fromGet then byConsumer else Untracked(byConsumer, record); c in out && t in out[c]
    ensures var out := if record.fromGet then byConsumer else Untracked(byConsumer, record);
            t in byTag' && out[c][t] == byTag'[t] && ByConsumer(byTag'[t], c)
  {
    assert c in byConsumer && t in byConsumer[c];
    ReleasedElsewhere(byTag, byTag', record, t);
  }

  lemma UntrackedLists(byTag: Index, byTag': Index, byConsumer: map<Name, Index>, record: Record, t: nat)
    requires Released(byTag, byTag', record) && ConsumerIndexOk(byTag, byConsumer)
    requires t in byTag' && !byTag'[t].fromGet && byTag'[t].Attached()
    ensures var out := if record.fromGet then byConsumer else Untracked(byConsumer, record);
            byTag'[t].consumerTag in out && t in out[byTag'[t].consumerTag]
  {
    ReleasedElsewhere(byTag, byTag', record, t);
  }

  /** Dropping a released record from its consumer's map restores the consumer index. */
  lemma UntrackConsumerIndex(byTag: Index, byTag': Index, byConsumer: map<Name, Index>, record: Record)
    requires Released(byTag, byTag', record) && ConsumerIndexOk(byTag, byConsumer)
    ensures ConsumerIndexOk(byTag', if record.fromGet then byConsumer else Untracked(byConsumer, record))
  {
    var out := if record.fromGet then byConsumer else Untracked(byConsumer, record);
    forall c, t | c in out && t in out[c]
      ensures t in byTag' && out[c][t] == byTag'[t] && ByConsumer(byTag'[t], c)
    {
      UntrackedRefers(byTag, byTag', byConsumer, record, c, t);
    }
    forall c | c in out ensures out[c] != map[] {
      assert c in byConsumer;
    }
    forall t | t in byTag' && !byTag'[t].fromGet && byTag'[t].Attached()
      ensures byTag'[t].consumerTag in out && t in out[byTag'[t].consumerTag]
    {
      UntrackedLists(byTag, byTag', byConsumer, record, t);
    }
  }

  /** Marking a consumer's deliveries and dropping its whole map keeps both indexes. */
  lemma DetachConsumerIndexes(ch: Channel, byGet: Index, byConsumer: map<Name, Index>, consumerTag: Name)
    requires Indexed(ch, byGet, byConsumer)
    ensures Indexed(DetachConsumer(ch, consumerTag), byGet, byConsumer - {consumerTag})
  {
    var records := DetachConsumer(ch, consumerTag).records;
    assert GetIndexOk(records, byGet);
    assert WellFormed(DetachConsumer(ch, consumerTag));
    hide GetIndexOk, WellFormed;
    assert ConsumerIndexOk(records, byConsumer - {consumerTag});
  }

  /** The map of a consumer tag, as the consumer index holds it. */
  lemma ConsumerEntry(ch: Channel, byConsumer: map<Name, Index>, consumerTag: Name)
    requires ConsumerIndexOk(ch.records, byConsumer)
    ensures (if consumerTag in byConsumer then byConsumer[consumerTag].Keys else {}) == OfConsumer(ch, consumerTag)
  {
  }

  function Tracked(byConsumer: map<Name, Index>, record: Record): map<Name, Index> {
    var inner: Index := (if record.consumerTag in byConsumer then byConsumer[record.consumerTag] else map[]);
    byConsumer[record.consumerTag := inner[record.tag := record]]
  }

  lemma TrackConsumerIndex(byTag: Index, byConsumer: map<Name, Index>, record: Record)
    requires ConsumerIndexOk(byTag, byConsumer) && record.tag !in byTag && record.Attached()
    ensures ConsumerIndexOk(byTag[record.tag := record],
                            if record.fromGet then byConsumer else Tracked(byConsumer, record))
  {
    var out := if record.fromGet then byConsumer else Tracked(byConsumer, record);
    if !record.fromGet {
      assert record.tag in out[record.consumerTag];
    }
    forall c | c in out ensures out[c] != map[] {
      assert (!record.fromGet && c == record.consumerTag) || c in byConsumer;
    }
  }

  /** A new delivery is listed by tag and in the index of its source. */
  lemma TrackIndexes(ch: Channel, byGet: Index, byConsumer: map<Name, Index>, record: Record)
    requires Indexed(ch, byGet, byConsumer) && record.tag == ch.last + 1 && record.Attached()
    ensures Indexed(ch.(last := record.tag, records := ch.records[record.tag := record]),
                    if record.fromGet then byGet[record.tag := record] else byGet,
                    if record.fromGet then byConsumer else Tracked(byConsumer, record))
  {
    hide ConsumerIndexOk;
    TrackConsumerIndex(ch.records, byConsumer, record);
  }

  class ChannelDeliveryState {
    var lastDeliveryTag: nat
    var unackedByConsumer: map<Name, Index>
    var unackedByGet: Index
    var unackedByTag: Index
    var qos: Qos

    function View(): Channel
      reads this
    {
      Channel(lastDeliveryTag, unackedByTag, qos)
    }

    ghost predicate Valid()
      reads this
    {
      Indexed(View(), unackedByGet, unackedByConsumer)
    }

    constructor ()
      ensures Valid() && View() == EMPTY_CHANNEL
    {
      lastDeliveryTag := 0;
      unackedByConsumer, unackedByGet, unackedByTag := map[], map[], map[];
      qos := EMPTY_CHANNEL.qos;
    }

    /** len(UnackedByConsumer[tag]), which the throttle reads, counts the consumer's deliveries. */
    method CountConsumer(consumerTag: Name) returns (n: nat)
      requires Valid()
      ensures n == |OfConsumer(View(), consumerTag)|
    {
      ConsumerEntry(View(), unackedByConsumer, consumerTag);
      n := if consumerTag in unackedByConsumer then |unackedByConsumer[consumerTag].Keys| else 0;
    }

    /** The tracking part of deliverToConsumer. */
    method TrackConsumerDelivery(consumerTag: Name, queue: Name, msg: Message, owner: nat) returns (tag: nat)
      requires Valid()
      modifies this
      ensures Valid() && tag == lastDeliveryTag
      ensures View() == TrackConsumer(old(View()), consumerTag, queue, msg, owner)
    {
      hide Indexed;
      lastDeliveryTag := lastDeliveryTag + 1;
      tag := lastDeliveryTag;
      var record := Record(tag, consumerTag, false, queue, msg, owner, false, false);
      TrackIndexes(old(View()), unackedByGet, unackedByConsumer, record);
      unackedByTag := unackedByTag[tag := record];
      var inner: Index := map[];
      if consumerTag in unackedByConsumer {
        inner := unackedByConsumer[consumerTag];
      }
      unackedByConsumer := unackedByConsumer[consumerTag := inner[tag := record]];
    }

    method TrackDelivery(noAck: bool, msg: Message, queue: Name) returns (tag: nat)
      requires Valid()
      modifies this
      ensures Valid() && tag == lastDeliveryTag
      ensures View() == if noAck then old(View()).(last := tag) else TrackGet(old(View()), queue, msg)
    {
      hide ConsumerIndexOk;
      lastDeliveryTag := lastDeliveryTag + 1;
      tag := lastDeliveryTag;
      if !noAck {
        var record := Record(tag, Name(""), true, queue, msg, 0, false, false);
        TrackIndexes(old(View()), unackedByGet, unackedByConsumer, record);
        unackedByTag := unackedByTag[tag := record];
        unackedByGet := unackedByGet[tag := record];
      }
    }

    /** deleteUnackedDelivery and untrackDeliverySource: the record leaves every index. */
    method DeleteUnackedDelivery(record: Record)
      requires Valid() && record.tag in unackedByTag && unackedByTag[record.tag] == record
      modifies this
      ensures Valid() && View() == Without(old(View()), {record.tag})
    {
      hide GetIndexOk, ConsumerIndexOk;
      ghost var was := unackedByTag;
      unackedByTag := unackedByTag - {record.tag};
      UntrackDeliverySource(record, was);
    }

    /** Removes the record, already gone from UnackedByTag or detached there, from the index of
        its source. was is UnackedByTag before that. */
    method UntrackDeliverySource(record: Record, ghost was: Index)
      requires GetIndexOk(was, unackedByGet) && ConsumerIndexOk(was, unackedByConsumer)
      requires Released(was, unackedByTag, record)
      modifies this`unackedByGet, this`unackedByConsumer
      ensures GetIndexOk(unackedByTag, unackedByGet) && ConsumerIndexOk(unackedByTag, unackedByConsumer)
    {
      hide GetIndexOk, ConsumerIndexOk, Released;
      UntrackGetIndex(was, unackedByTag, unackedByGet, record);
      UntrackConsumerIndex(was, unackedByTag, unackedByConsumer, record);
      if record.fromGet {
        unackedByGet := unackedByGet - {record.tag};
        return;
      }
      if record.consumerTag in unackedByConsumer {
        var inner: Index := unackedByConsumer[record.consumerTag] - {record.tag};
        if |inner| == 0 {
          unackedByConsumer := unackedByConsumer - {record.consumerTag};
        } else {
          unackedByConsumer := unackedByConsumer[record.consumerTag := inner];
        }
      }
    }

    /** popUnackedRecords. The error, on a tag that is not outstanding, changes nothing. */
    method PopUnackedRecords(deliveryTag: nat, multiple: bool) returns (removed: Option<seq<Record>>)
      requires Valid()
      modifies this
      ensures Valid()
      ensures removed == None <==> Settles(old(View()), deliveryTag, multiple) == None
      ensures removed == None ==> View() == old(View())
      ensures removed.Some? ==>
        var tags := Settles(old(View()), deliveryTag, multiple).value;
        View() == Without(old(View()), tags) && Lists(removed.value, old(View()), tags)
    {
      hide GetIndexOk, ConsumerIndexOk;
      if multiple {
        if deliveryTag != 0 && deliveryTag !in unackedByTag {
          return None;
        }
        removed := Some([]);
        var visited: set<nat> := {};
        while unackedByTag.Keys - visited != {}
          invariant Valid()
          invariant visited <= old(View()).records.Keys
          invariant View() == Without(old(View()), Popped(visited, deliveryTag))
          invariant removed.Some? && Lists(removed.value, old(View()), Popped(visited, deliveryTag))
          decreases old(View()).records.Keys - visited
        {
          var tag: nat :| tag in unackedByTag.Keys - visited;
          var record := unackedByTag[tag];
          ghost var before := Popped(visited, deliveryTag);
          visited := visited + {tag};
          if deliveryTag == 0 || tag <= deliveryTag {
            assert Popped(visited, deliveryTag) == before + {tag};
            ListsAppend(removed.value, old(View()), before, record);
            removed := Some(removed.value + [record]);
            DeleteUnackedDelivery(record);
          } else {
            assert Popped(visited, deliveryTag) == before;
          }
        }
        assert forall t | t in old(View()).records && (deliveryTag == 0 || t <= deliveryTag) ::
            t in visited || t in unackedByTag;
        assert Popped(visited, deliveryTag) == Settles(old(View()), deliveryTag, multiple).value;
      } else {
        if deliveryTag !in unackedByTag {
          return None;
        }
        var record := unackedByTag[deliveryTag];
        ListsAppend([], View(), {}, record);
        assert [] + [record] == [record] && {} + {record.tag} == {record.tag};
        removed := Some([record]);
        DeleteUnackedDelivery(record);
      }
    }

    /** detachConsumerDeliveries. */
    method DetachConsumerDeliveries(consumerTag: Name)
      requires Valid()
      modifies this
      ensures Valid() && View() == DetachConsumer(old(View()), consumerTag)
    {
      hide GetIndexOk, ConsumerIndexOk;
      ghost var ch, byConsumer := View(), unackedByConsumer;
      DetachConsumerIndexes(ch, unackedByGet, unackedByConsumer, consumerTag);
      ConsumerEntry(ch, unackedByConsumer, consumerTag);
      var todo := if consumerTag in unackedByConsumer then unackedByConsumer[consumerTag].Keys else {};
      while todo != {}
        invariant todo <= OfConsumer(ch, consumerTag) && unackedByTag.Keys == ch.records.Keys
        invariant forall t | t in ch.records ::
            unackedByTag[t] == if t in todo then ch.records[t] else Cancelled(ch.records[t], consumerTag)
        modifies this`unackedByTag
      {
        var t: nat :| t in todo;
        unackedByTag := unackedByTag[t := unackedByTag[t].(consumerCancelled := true)];
        todo := todo - {t};
      }
      assert unackedByTag == DetachConsumer(ch, consumerTag).records;
      unackedByConsumer := unackedByConsumer - {consumerTag};
    }

    /** One record of a deleted queue: marked, and dropped from the index of its source. */
    method MarkQueueDeleted(record: Record)
      requires Valid() && record.tag in unackedByTag && unackedByTag[record.tag] == record
      modifies this
      ensures Valid()
      ensures View() == old(View()).(records := old(View()).records[record.tag := record.(queueDeleted := true)])
    {
      hide GetIndexOk, ConsumerIndexOk;
      ghost var was := unackedByTag;
      unackedByTag := unackedByTag[record.tag := record.(queueDeleted := true)];
      UntrackDeliverySource(record, was);
    }

    /** detachQueueDeliveriesLocked, for this channel. */
    method DetachQueueDeliveries(queue: Name)
      requires Valid()
      modifies this
      ensures Valid() && View() == DetachQueue(old(View()), queue)
    {
      hide GetIndexOk, ConsumerIndexOk;
      ghost var ch := View();
      var todo := unackedByTag.Keys;
      while todo != {}
        invariant Valid() && todo <= ch.records.Keys && lastDeliveryTag == ch.last && qos == ch.qos
        invariant unackedByTag.Keys == ch.records.Keys
        invariant forall t | t in ch.records ::
            unackedByTag[t] == if t !in todo then Marked(ch.records[t], queue) else ch.records[t]
      {
        var t: nat :| t in todo;
        todo := todo - {t};
        var record := unackedByTag[t];
        if record.queue == queue && !record.queueDeleted {
          MarkQueueDeleted(record);
        }
      }
      assert unackedByTag == DetachQueue(ch, queue).records;
    }

    /** fetchUnackedMessages: each delivery that may be requeued, once, in no particular order. */
    method FetchUnackedMessages() returns (records: seq<Record>)
      requires Valid()
      ensures Lists(records, View(), Requeueable(View()))
    {
      hide GetIndexOk, ConsumerIndexOk;
      records := [];
      var visited: set<nat> := {};
      while unackedByTag.Keys - visited != {}
        invariant visited <= unackedByTag.Keys
        invariant forall t | t in visited :: t in unackedByTag
        invariant Lists(records, View(), visited * Requeueable(View()))
        decreases unackedByTag.Keys - visited
      {
        var t: nat :| t in unackedByTag.Keys - visited;
        ghost var before := visited * Requeueable(View());
        visited := visited + {t};
        if !unackedByTag[t].queueDeleted {
          assert visited * Requeueable(View()) == before + {t};
          ListsAppend(records, View(), before, unackedByTag[t]);
          records := records + [unackedByTag[t]];
        } else {
          assert visited * Requeueable(View()) == before;
        }
      }
      assert forall t | t in unackedByTag.Keys :: t in visited || t in unackedByTag.Keys - visited;
      assert visited * Requeueable(View()) == Requeueable(View());
    }

    /** The locked part of HandleBasicRecover: the indexes are emptied, the tag counter is not. */
    method TakeForRecover() returns (records: seq<Record>)
      requires Valid()
      modifies this
      ensures Valid() && View() == old(View()).(records := map[])
      ensures Lists(records, old(View()), Requeueable(old(View())))
    {
      records := FetchUnackedMessages();
      unackedByConsumer, unackedByGet, unackedByTag := map[], map[], map[];
    }
  }
}
