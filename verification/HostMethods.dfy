/**
 The handlers of consumer.go, delivery.go, ack.go and recover.go that edit the host's maps and lists
 in place. Each is proved to do to the fields of the host exactly what the state machine's function
 does to its value.
 */
module HostMethods {
  import opened Collections
  import opened ChannelDelivery
  import opened VHostState
  import opened RegistryProofs
  import opened StructureProofs
  import opened HandlerProofs
  import opened RecoverProofs
  import opened ReturnResults
  import opened CancelResults
  import opened CloseResults

  /** RegisterConsumer's outcome: the consumer's tag or one of its errors. */
  datatype Registered = Accepted(tag: Name) | NoQueue | NotOwner | TagInUse | InUseExclusively | CannotBeExclusive

  class Host {
    var queues: map<Name, Queue>
    var consumers: map<ConsumerKey, Consumer>
    var active: set<nat>
    var byQueue: map<Name, seq<Consumer>>
    var byChannel: map<ChannelKey, seq<Consumer>>
    var channels: map<ChannelKey, Channel>
    var redelivered: set<nat>
    var ledger: Ledger
    var nextGen: nat
    var nextConsumer: nat
    var nextCopy: nat

    function Reg(): Registry
      reads this
    {
      Registry(consumers, active, byQueue, byChannel)
    }

    function View(): VHost
      reads this
    {
      VHost(queues, Reg(), channels, redelivered, ledger, nextGen, nextConsumer, nextCopy)
    }

    constructor ()
      ensures View() == INIT
    {
      queues, consumers, active, byQueue, byChannel, channels := map[], map[], {}, map[], map[], map[];
      redelivered, ledger := {}, EMPTY_LEDGER;
      nextGen, nextConsumer, nextCopy := 0, 0, 0;
    }

    /** The loop that finds a consumer in a list and closes the gap it leaves. */
    static method RemoveConsumer(cs: seq<Consumer>, c: Consumer) returns (found: bool, rest: seq<Consumer>)
      ensures found == (c in cs) && rest == RemoveFirst(cs, c)
    {
      for i := 0 to |cs|
        invariant c !in cs[..i]
      {
        if cs[i] == c {
          RemoveFirstAt(cs, c, i);
          return true, cs[..i] + cs[i + 1..];
        }
        assert cs[..i + 1] == cs[..i] + [cs[i]];
      }
      assert cs[..|cs|] == cs;
      NothingToRemove(cs, c);
      return false, cs;
    }

    static lemma {:induction false} NothingToRemove(cs: seq<Consumer>, c: Consumer)
      requires c !in cs
      ensures RemoveFirst(cs, c) == cs
      decreases |cs|
    {
      if cs != [] {
        assert cs == [cs[0]] + cs[1..];
        NothingToRemove(cs[1..], c);
      }
    }

    method LeaveQueue(c: Consumer)
      modifies this`byQueue
      ensures byQueue == RemoveFrom(old(byQueue), c.queue, c)
    {
      if c.queue in byQueue {
        var found, rest := RemoveConsumer(byQueue[c.queue], c);
        if found { byQueue := byQueue[c.queue := rest]; }
      }
    }

    method LeaveChannel(c: Consumer)
      modifies this`byChannel
      ensures byChannel == RemoveFrom(old(byChannel), HomeOf(c), c)
    {
      if HomeOf(c) in byChannel {
        var found, rest := RemoveConsumer(byChannel[HomeOf(c)], c);
        if found { byChannel := byChannel[HomeOf(c) := rest]; }
      }
    }

    /** Whether the queue's consumers leave room for a new one. */
    method CheckExclusive(queue: Name, exclusive: bool) returns (refusal: Option<Registered>)
      ensures var existing := Get(byQueue, queue);
              refusal == if exists e | e in existing :: e.exclusive then Some(InUseExclusively)
                         else if exclusive && |existing| > 0 then Some(CannotBeExclusive) else None
    {
      if queue in byQueue {
        var existing := byQueue[queue];
        for i := 0 to |existing|
          invariant forall j | 0 <= j < i :: !existing[j].exclusive
        {
          if existing[i].exclusive {
            assert existing[i] in existing;
            return Some(InUseExclusively);
          }
        }
        if exclusive && |existing| > 0 { return Some(CannotBeExclusive); }
      }
      refusal := None;
    }

    /** The consumer is activated and listed. */
    method Activate(c: Consumer)
      modifies this`active, this`consumers, this`byQueue, this`byChannel, this`nextConsumer
      ensures Reg() == Register(old(Reg()), c) && nextConsumer == old(nextConsumer) + 1
    {
      active := active + {c.id};
      consumers := consumers[c.Key() := c];
      byQueue := byQueue[c.queue := (if c.queue in byQueue then byQueue[c.queue] else []) + [c]];
      byChannel := byChannel[HomeOf(c) := (if HomeOf(c) in byChannel then byChannel[HomeOf(c)] else []) + [c]];
      nextConsumer := nextConsumer + 1;
    }

    /** The consumer as it is to be registered; a prefetch limit set for new consumers applies to it. */
    method Describe(conn: Name, channel: nat, tag: Name, generated: Name, queue: Name, noAck: bool, exclusive: bool)
      returns (c: Consumer)
      ensures c == NewConsumer(View(), conn, channel, tag, generated, queue, noAck, exclusive) && c.queue == queue
    {
      var home := ChannelKey(conn, channel);
      var prefetch := 0;
      if home in channels && !channels[home].qos.prefetchGlobal && channels[home].qos.nextPrefetch > 0 {
        prefetch := channels[home].qos.nextPrefetch;
      }
      c := Consumer(nextConsumer, if tag == Name("") then generated
                    else tag, channel, queue, conn, prefetch, noAck, exclusive);
    }

    /** RegisterConsumer. An error changes nothing. */
    method RegisterConsumer(conn: Name, channel: nat, tag: Name, generated: Name, queue: Name, noAck: bool,
                            exclusive: bool)
      returns (result: Registered)
      modifies this
      ensures View() == Consume(old(View()), conn, channel, tag, generated, queue, noAck, exclusive)
      ensures !result.Accepted? ==> View() == old(View())
      ensures var named, existing := if tag == Name("") then generated else tag, Get(old(byQueue), queue);
              result == if queue !in old(queues) then NoQueue
                        else if old(queues)[queue].exclusive && old(queues)[queue].owner != Some(conn) then NotOwner
                        else if ConsumerKey(channel, named) in old(consumers) then TagInUse
                        else if exists e | e in existing :: e.exclusive then InUseExclusively
                        else if exclusive && |existing| > 0 then CannotBeExclusive
                        else Accepted(named)
    {
      hide Register;
      var c := Describe(conn, channel, tag, generated, queue, noAck, exclusive);
      if queue !in queues { return NoQueue; }
      if !OwnedBy(queues[queue], conn) { return NotOwner; }
      if c.Key() in consumers { return TagInUse; }
      var refusal := CheckExclusive(queue, exclusive);
      if refusal.Some? { return refusal.value; }
      Activate(c);
      result := Accepted(c.tag);
    }

    /** removeQueueConsumersLocked, which returns the consumers it removed. */
    method RemoveQueueConsumersLocked(queue: Name) returns (removed: seq<Consumer>)
      modifies this`active, this`consumers, this`byChannel, this`byQueue
      ensures Reg() == RemoveQueueConsumers(old(Reg()), queue)
      ensures removed == Get(old(byQueue), queue)
    {
      removed := if queue in byQueue then byQueue[queue] else [];
      ghost var was := Reg();
      for i := 0 to |removed|
        invariant DropConsumers(Reg(), removed[i..]) == DropConsumers(was, removed)
        invariant byQueue == was.byQueue
      {
        var c := removed[i];
        assert removed[i..] == [c] + removed[i + 1..];
        ghost var before := Reg();
        active := active - {c.id};
        if c.Key() in consumers && consumers[c.Key()] == c {
          consumers := consumers - {c.Key()};
        }
        LeaveChannel(c);
        assert Reg() == DropConsumer(before, c);
      }
      byQueue := byQueue - {queue};
    }

    /** detachQueueDeliveriesLocked: every channel, in any order. */
    method DetachQueueDeliveriesLocked(queue: Name)
      modifies this`channels
      ensures channels == DetachFromAll(old(channels), queue)
    {
      var todo := channels.Keys;
      while todo != {}
        invariant todo <= channels.Keys == old(channels).Keys
        invariant forall k | k in channels ::
          channels[k] == if k in todo then old(channels)[k] else DetachQueue(old(channels)[k], queue)
      {
        var k :| k in todo;
        todo := todo - {k};
        channels := channels[k := DetachQueue(channels[k], queue)];
      }
    }

    method DropQueue(queue: Name)
      requires queue in queues
      modifies this`queues, this`ledger
      ensures queues == old(queues) - {queue}
      ensures ledger == old(ledger).(gone := old(ledger).gone + multiset(Held(old(queues)[queue])))
    {
      ledger := ledger.(gone := ledger.gone + multiset(Held(queues[queue])));
      queues := queues - {queue};
    }

    /** deleteQueuebyNameUnlocked, in its order: the queue, its consumers, its deliveries. */
    method DeleteQueueUnlocked(queue: Name) returns (removed: Option<seq<Consumer>>)
      modifies this
      ensures removed == None <==> queue !in old(queues)
      ensures removed == None ==> View() == old(View())
      ensures removed.Some? ==> View() == DeleteQueue(old(View()), queue) && removed.value == Get(old(byQueue), queue)
    {
      if queue !in queues { return None; }
      hide RemoveQueueConsumers, DetachFromAll, Held;
      DropQueue(queue);
      var cs := RemoveQueueConsumersLocked(queue);
      DetachQueueDeliveriesLocked(queue);
      removed := Some(cs);
    }

    /** checkAutoDeleteQueueUnlocked. */
    method CheckAutoDeleteQueueUnlocked(queue: Name) returns (deleted: bool)
      modifies this
      ensures deleted <==> queue in old(queues) && old(queues)[queue].autoDelete && Get(old(byQueue), queue) == []
      ensures View() == if deleted then DeleteQueue(old(View()), queue) else old(View())
    {
      hide DeleteQueue;
      if queue !in queues || !queues[queue].autoDelete { return false; }
      if queue in byQueue && |byQueue[queue]| > 0 { return false; }
      var removed := DeleteQueueUnlocked(queue);
      deleted := true;
    }

    /** The first half of cancelConsumerLocked: the consumer is inactive, its deliveries are
        detached, and only the channel index still lists it. */
    method DetachConsumerLocked(c: Consumer)
      modifies this`active, this`consumers, this`channels, this`byQueue
      ensures Reg() == old(Reg()).(active := old(active) - {c.id}, consumers := old(consumers) - {c.Key()},
                                   byQueue := RemoveFrom(old(byQueue), c.queue, c))
      ensures channels == Detach(old(channels), c)
    {
      active := active - {c.id};
      consumers := consumers - {c.Key()};
      if HomeOf(c) in channels {
        channels := channels[HomeOf(c) := DetachConsumer(channels[HomeOf(c)], c.tag)];
      }
      LeaveQueue(c);
    }

    /** cancelConsumerLocked. The queue stays as it is, unless it is declared auto-delete and c was its only
        consumer. */
    method CancelConsumerLocked(c: Consumer)
      modifies this
      ensures View() == CancelLocked(old(View()), c)
      ensures Structure(old(View())) && c in old(consumers).Values ==>
                && c.queue in old(queues)
                && queues == if old(queues)[c.queue].autoDelete
                                && forall d | d in old(consumers).Values && d != c :: d.queue != c.queue
                             then old(queues) - {c.queue} else old(queues)
    {
      hide DeleteQueue, Detach, RemoveFrom, Get, Structure;
      if Structure(View()) && c in consumers.Values { CancelKeepsQueues(View(), c); }
      DetachConsumerLocked(c);
      var deleted := CheckAutoDeleteQueueUnlocked(c.queue);
      LeaveChannel(c);
    }

    /** cancelConsumer without a guard: basic.cancel. */
    method CancelConsumer(channel: nat, tag: Name) returns (found: bool)
      modifies this
      ensures found == (ConsumerKey(channel, tag) in old(consumers))
      ensures View() == Cancel(old(View()), channel, tag)
    {
      hide CancelLocked;
      var key := ConsumerKey(channel, tag);
      if key !in consumers { return false; }
      CancelConsumerLocked(consumers[key]);
      found := true;
    }

    /** cancelChannelConsumersLocked, over a copy of the list. */
    method CancelChannelConsumersLocked(key: ChannelKey)
      modifies this
      ensures View() == CancelChannelConsumers(old(View()), key)
    {
      hide CancelLocked;
      var copy := if key in byChannel then byChannel[key] else [];
      ghost var was := View();
      for i := 0 to |copy|
        invariant CancelListed(View(), key, copy[i..]) == CancelListed(was, key, copy)
      {
        var c := copy[i];
        assert copy[i..] == [c] + copy[i + 1..];
        if c.conn == key.conn && c.Key() in consumers && consumers[c.Key()] == c {
          CancelConsumerLocked(c);
        }
      }
      byChannel := byChannel - {key};
    }

    /** The first loop of EnforceMaxLength: the excess is popped. */
    method PopExcess(queue: Name, excess: nat) returns (evicted: seq<Message>)
      requires queue in queues && excess <= |queues[queue].ready|
      modifies this`queues
      ensures var q := old(queues)[queue];
              queues == old(queues)[queue := q.(ready := q.ready[excess..])] && evicted == q.ready[..excess]
    {
      ghost var was := queues[queue];
      evicted := [];
      for i := 0 to excess
        invariant queue in queues && queues == old(queues)[queue := was.(ready := was.ready[i..])]
                  && evicted == was.ready[..i]
      {
        var q := queues[queue];
        evicted := evicted + [q.ready[0]];
        queues := queues[queue := q.(ready := q.ready[1..])];
        assert was.ready[i..][1..] == was.ready[i + 1..];
      }
    }

    /** The second loop: what was popped goes to the dead-letter path. */
    method LetGo(evicted: seq<Message>, gen: nat)
      modifies this`ledger
      ensures ledger == old(ledger).(evicted := old(ledger).evicted + multiset(evicted),
                                     deadLetters := old(ledger).deadLetters + LettersOf(evicted, gen))
    {
      for i := 0 to |evicted|
        invariant ledger == old(ledger).(evicted := old(ledger).evicted + multiset(evicted[..i]),
                                         deadLetters := old(ledger).deadLetters + LettersOf(evicted[..i], gen))
      {
        assert evicted[..i + 1] == evicted[..i] + [evicted[i]];
        ledger := ledger.(evicted := ledger.evicted + multiset{evicted[i]},
                          deadLetters := ledger.deadLetters + {(evicted[i], gen)});
      }
      assert evicted[..|evicted|] == evicted;
    }

    /** EnforceMaxLength: nothing for a queue without a limit or within it. */
    method EnforceMaxLength(queue: Name)
      requires queue in queues
      modifies this`queues, this`ledger
      ensures View() == Evict(old(View()), queue)
    {
      var q := queues[queue];
      if q.maxLength == 0 || |q.ready| < q.maxLength { return; }
      hide LettersOf;
      var evicted := PopExcess(queue, |q.ready| - q.maxLength + 1);
      LetGo(evicted, q.gen);
    }

    /** Queue.Push. */
    method PushMessage(queue: Name, m: Message)
      requires queue in queues
      modifies this`queues, this`ledger
      ensures View() == Push(old(View()), queue, m)
    {
      EnforceMaxLength(queue);
      hide Evict;
      assert queue in queues by { EvictKeys(old(View()), queue); }
      var q := queues[queue];
      if |q.ready| < q.capacity {
        queues := queues[queue := q.(ready := q.ready + [m])];
      } else {
        ledger := ledger.(overflow := ledger.overflow + multiset{m});
      }
    }

    static lemma EvictKeys(s: VHost, queue: Name)
      requires queue in s.queues
      ensures queue in Evict(s, queue).queues
    {
    }

    /** Queue.Push, with the redelivery mark that requeue sets before it. */
    method PushBackMarked(queue: Name, m: Message)
      requires queue in queues
      modifies this`queues, this`redelivered, this`ledger
      ensures View() == PushBack(old(View()), queue, m)
    {
      hide Push;
      redelivered := redelivered + {m.id};
      PushMessage(queue, m);
    }

    /** PurgeQueue with StreamPurge's loop; it tells how many messages it took, expired ones included. */
    method PurgeQueue(queue: Name, conn: Name, expired: set<Message>) returns (purged: Option<nat>)
      modifies this`queues, this`ledger
      ensures purged == if && queue in old(queues)
                           && (old(queues)[queue].exclusive ==> old(queues)[queue].owner == Some(conn))
              then Some(|old(queues)[queue].ready|) else None
      ensures View() == Purge(old(View()), queue, conn, expired)
    {
      if queue !in queues || !OwnedBy(queues[queue], conn) { return None; }
      ghost var was := View();
      var n := 0;
      while queues[queue].ready != []
        invariant queue in queues && PurgeAll(View(), queue, expired) == PurgeAll(was, queue, expired)
        invariant n + |queues[queue].ready| == |old(queues)[queue].ready|
        decreases |queues[queue].ready|
      {
        var q := queues[queue];
        var m := q.ready[0];
        queues := queues[queue := q.(ready := q.ready[1..])];
        if m in expired {
          ledger := ledger.(expired := ledger.expired + multiset{m}, deadLetters := ledger.deadLetters + {(m, q.gen)});
        } else {
          ledger := ledger.(purged := ledger.purged + multiset{m});
        }
        n := n + 1;
      }
      purged := Some(n);
    }

    /** The inner loop of requeue. */
    method RequeueItem(queue: Name, records: seq<Record>)
      requires queue in queues
      modifies this`queues, this`redelivered, this`ledger
      ensures View() == RequeueEach(old(View()), queue, records)
    {
      ghost var was := View();
      for i := 0 to |records|
        invariant queue in queues && RequeueEach(View(), queue, records[i..]) == RequeueEach(was, queue, records)
      {
        hide PushBack;
        assert records[i..] == [records[i]] + records[i + 1..];
        PushBackMarked(queue, records[i].msg);
      }
    }

    /** requeue, once the items of deleted queues have been left out. */
    method Requeue(work: seq<Work>)
      modifies this`queues, this`redelivered, this`ledger
      ensures View() == RequeueWork(old(View()), work)
    {
      hide RequeueEach;
      ghost var was := View();
      for i := 0 to |work|
        invariant RequeueWork(View(), work[i..]) == RequeueWork(was, work)
      {
        var w := work[i];
        assert work[i..] == [w] + work[i + 1..];
        if w.queue in queues && queues[w.queue].gen == w.gen {
          RequeueItem(w.queue, w.records);
        } else {
          ledger := ledger.(gone := ledger.gone + MessagesOf(w.records));
        }
      }
    }

    // ---------------------------------------------------------------- deliveries

    /** GetOrCreateChannelDelivery. */
    method GetOrCreateChannelDelivery(key: ChannelKey) returns (ch: Channel)
      modifies this`channels
      ensures ch == ChannelOf(old(View()), key) && channels == old(channels)[key := ch]
    {
      if key !in channels {
        channels := channels[key := EMPTY_CHANNEL];
      }
      ch := channels[key];
      assert channels == old(channels)[key := ch];
    }

    /** shouldThrottle: flow is paused, or the limit that applies is reached, which is the one on the whole channel
        once there has been any. */
    method ShouldThrottle(c: Consumer) returns (throttle: bool)
      ensures throttle <==>
                && HomeOf(c) in channels
                && var ch := channels[HomeOf(c)];
                   || !ch.qos.flowActive
                   || (ch.qos.prefetchGlobal && ch.qos.globalPrefetch > 0 && |ch.records| >= ch.qos.globalPrefetch)
                   || (!ch.qos.prefetchGlobal && c.prefetch > 0 && |OfConsumer(ch, c.tag)| >= c.prefetch)
      ensures throttle == Throttled(View(), c)
    {
      if HomeOf(c) !in channels { return false; }
      var ch := channels[HomeOf(c)];
      if !ch.qos.flowActive { return true; }
      if ch.qos.prefetchGlobal && ch.qos.globalPrefetch > 0 && |ch.records| >= ch.qos.globalPrefetch { return true; }
      throttle := !ch.qos.prefetchGlobal && c.prefetch > 0 && |OfConsumer(ch, c.tag)| >= c.prefetch;
    }

    static lemma FreshTag(ch: Channel, c: Consumer, m: Message)
      requires WellFormed(ch)
      ensures Without(TrackConsumer(ch, c.tag, c.queue, m, c.id), {ch.last + 1}) == ch.(last := ch.last + 1)
    {
    }

    /** What a delivery does to the channel before it is sent. */
    method TrackForSend(c: Consumer, m: Message)
      modifies this`channels
      ensures channels == old(channels)[HomeOf(c) := Offered(ChannelOf(old(View()), HomeOf(c)), c, m)]
    {
      var ch := GetOrCreateChannelDelivery(HomeOf(c));
      if c.noAck {
        channels := channels[HomeOf(c) := ch.(last := ch.last + 1)];
      } else {
        channels := channels[HomeOf(c) := TrackConsumer(ch, c.tag, c.queue, m, c.id)];
      }
    }

    static function Offered(ch: Channel, c: Consumer, m: Message): Channel {
      if c.noAck then ch.(last := ch.last + 1) else TrackConsumer(ch, c.tag, c.queue, m, c.id)
    }

    /** After a failed send: the record goes, the tag stays used. */
    method UndoTracking(c: Consumer, ghost ch: Channel, ghost m: Message)
      requires WellFormed(ch) && HomeOf(c) in channels && channels[HomeOf(c)] == Offered(ch, c, m)
      modifies this`channels
      ensures channels == old(channels)[HomeOf(c) := ch.(last := ch.last + 1)]
    {
      if !c.noAck {
        FreshTag(ch, c, m);
        var tracked := channels[HomeOf(c)];
        channels := channels[HomeOf(c) := Without(tracked, {tracked.last})];
      }
    }

    /** deliverToConsumer, with nobody in between: refused for an inactive consumer, else tracked, sent, and
        untracked again if the send fails. */
    method DeliverToConsumer(c: Consumer, m: Message, sent: bool) returns (ok: bool)
      requires WellFormed(ChannelOf(View(), HomeOf(c)))
      modifies this
      ensures ok == (c.id in old(active) && sent)
      ensures View() == if c.id in old(active) then Deliver(old(View()), c, m, sent) else old(View())
    {
      hide WellFormed;
      if c.id !in active { return false; }
      ghost var ch := ChannelOf(View(), HomeOf(c));
      TrackForSend(c, m);
      if !sent {
        UndoTracking(c, ch, m);
        return false;
      }
      if c.noAck {
        ledger := ledger.(autoAcked := ledger.autoAcked + multiset{m});
      }
      redelivered := redelivered - {m.id};
      ok := true;
    }

    /** HandleBasicQos. */
    method HandleBasicQos(key: ChannelKey, count: nat, global: bool)
      modifies this`channels
      ensures View() == SetQos(old(View()), key, count, global)
    {
      var ch := GetOrCreateChannelDelivery(key);
      if global {
        channels := channels[key := ch.(qos := ch.qos.(globalPrefetch := count, prefetchGlobal := true))];
      } else {
        channels := channels[key := ch.(qos := ch.qos.(nextPrefetch := count))];
      }
    }

    // ---------------------------------------------------------------- settling

    /** popUnackedRecords took the records off the channel; popped lists them. */
    method PopUnacked(key: ChannelKey, tag: nat, multiple: bool) returns (ok: bool)
      modifies this`channels
      ensures ok == Settles(ChannelOf(old(View()), key), tag, multiple).Some?
      ensures channels == if key in old(channels) && ok
                          then old(channels)[key := Without(old(channels)[key],
                                                            Settles(old(channels)[key], tag, multiple).value)]
                          else old(channels)
    {
      if key !in channels { return multiple && tag == 0; }
      var tags := Settles(channels[key], tag, multiple);
      if tags == None { return false; }
      channels := channels[key := Without(channels[key], tags.value)];
      ok := true;
    }

    /** HandleBasicAck: false is the error for an unknown tag. */
    method HandleBasicAck(key: ChannelKey, tag: nat, multiple: bool, popped: seq<Record>) returns (ok: bool)
      requires key !in channels ==> popped == []
      modifies this
      ensures ok == Settles(ChannelOf(old(View()), key), tag, multiple).Some?
      ensures View() == Ack(old(View()), key, tag, multiple, popped)
    {
      hide Without;
      var known := key in channels;
      ok := PopUnacked(key, tag, multiple);
      if ok && known {
        ledger := ledger.(acked := ledger.acked + MessagesOf(popped));
      }
    }

    /** One turn of a loop of handleBasicNack. */
    method NackRecord(r: Record, requeue: bool, expired: set<Message>)
      modifies this`queues, this`redelivered, this`ledger
      ensures View() == NackOne(old(View()), r, requeue, expired)
    {
      if r.queueDeleted {
        ledger := ledger.(gone := ledger.gone + multiset{r.msg});
      } else if r.queue !in queues {
        ledger := ledger.(lost := ledger.lost + multiset{r.msg});
      } else if !requeue {
        ledger := ledger.(rejected := ledger.rejected + multiset{r.msg},
                          deadLetters := ledger.deadLetters + {(r.msg, queues[r.queue].gen)});
      } else if r.msg in expired {
        ledger := ledger.(expired := ledger.expired + multiset{r.msg},
                          deadLetters := ledger.deadLetters + {(r.msg, queues[r.queue].gen)});
      } else {
        PushBackMarked(r.queue, r.msg);
      }
    }

    /** handleBasicNack, for nack and reject. */
    method HandleBasicNack(key: ChannelKey, tag: nat, multiple: bool, requeue: bool, popped: seq<Record>,
                           expired: set<Message>) returns (ok: bool)
      requires key !in channels ==> popped == []
      modifies this
      ensures ok == Settles(ChannelOf(old(View()), key), tag, multiple).Some?
      ensures View() == Nack(old(View()), key, tag, multiple, requeue, popped, expired)
    {
      hide NackOne, Without;
      var known := key in channels;
      ok := PopUnacked(key, tag, multiple);
      if !ok || !known { return; }
      ghost var was := View();
      for i := 0 to |popped|
        invariant NackEach(View(), popped[i..], requeue, expired) == NackEach(was, popped, requeue, expired)
      {
        assert popped[i..] == [popped[i]] + popped[i + 1..];
        NackRecord(popped[i], requeue, expired);
      }
    }

    // ---------------------------------------------------------------- recover

    /** The search for the consumer a record was delivered to. */
    static method FindByTag(cs: seq<Consumer>, tag: Name) returns (c: Option<Consumer>)
      ensures c == FindConsumer(cs, tag)
    {
      for i := 0 to |cs|
        invariant FindConsumer(cs, tag) == FindConsumer(cs[i..], tag)
      {
        assert cs[i..][1..] == cs[i + 1..];
        if cs[i].tag == tag { return Some(cs[i]); }
      }
      c := None;
    }

    /** requeueMessage, which asks again whether the message has expired, and ignores the answer. */
    method RequeueRecord(r: Record, late: bool)
      modifies this`queues, this`redelivered, this`ledger
      ensures View() == RequeueMessage(old(View()), r, late)
    {
      if r.queue in queues {
        if late {
          ledger := ledger.(expired := ledger.expired + multiset{r.msg},
                            duplicated := ledger.duplicated + multiset{r.msg},
                            deadLetters := ledger.deadLetters + {(r.msg, queues[r.queue].gen)});
        }
        PushBackMarked(r.queue, r.msg);
      } else {
        ledger := ledger.(lost := ledger.lost + multiset{r.msg});
      }
    }

    /** One turn of the loop of HandleBasicRecover. */
    method RecoverRecord(key: ChannelKey, r: Record, requeue: bool, expired: set<Message>, unsent: set<Message>,
                         late: set<Message>)
      requires ChannelsOk(channels)
      modifies this
      ensures View() == RecoverOne(old(View()), key, r, requeue, expired, unsent, late)
    {
      hide Deliver, RequeueMessage, FindConsumer, WellFormed, ChannelsOk;
      if r.queue in queues && r.msg in expired {
        ledger := ledger.(expired := ledger.expired + multiset{r.msg},
                          deadLetters := ledger.deadLetters + {(r.msg, queues[r.queue].gen)});
        return;
      }
      if requeue || r.fromGet || r.consumerCancelled {
        RequeueRecord(r, r.msg in late);
        return;
      }
      var target := FindByTag(if key in byChannel then byChannel[key] else [], r.consumerTag);
      if target == None {
        RequeueRecord(r, r.msg in late);
        return;
      }
      StateOk(View(), HomeOf(target.value));
      var ok := DeliverToConsumer(target.value, r.msg, r.msg !in unsent);
      if !ok {
        RequeueRecord(r, r.msg in late);
      }
    }

    static lemma DeliverWellFormed(s: VHost, c: Consumer, m: Message, sent: bool)
      requires ChannelsOk(s.channels)
      ensures ChannelsOk(Deliver(s, c, m, sent).channels)
    {
      StateOk(s, HomeOf(c));
    }

    static lemma StateOk(s: VHost, key: ChannelKey)
      requires ChannelsOk(s.channels)
      ensures WellFormed(ChannelOf(s, key))
    {
    }

    static lemma RecoverWellFormed(s: VHost, key: ChannelKey, r: Record, requeue: bool, expired: set<Message>,
                                   unsent: set<Message>, late: set<Message>)
      requires ChannelsOk(s.channels)
      ensures ChannelsOk(RecoverOne(s, key, r, requeue, expired, unsent, late).channels)
    {
      hide Deliver, ChannelsOk, FateOf, RequeueMessage;
      match FateOf(s, key, r, requeue, expired, unsent)
      case Expires =>
      case Requeued => RequeueKeeps(s, r, r.msg in late);
      case Bounced(c) =>
        DeliverWellFormed(s, c, r.msg, false);
        RequeueKeeps(Deliver(s, c, r.msg, false), r, r.msg in late);
      case Redelivered(c) => DeliverWellFormed(s, c, r.msg, true);
    }

    static lemma EmptiedWellFormed(channels: map<ChannelKey, Channel>, key: ChannelKey)
      requires ChannelsOk(channels) && key in channels
      ensures ChannelsOk(channels[key := channels[key].(records := map[])])
    {
    }

    /** The loop of HandleBasicRecover. */
    method RecoverRecords(key: ChannelKey, requeue: bool, popped: seq<Record>, expired: set<Message>,
                          unsent: set<Message>, late: set<Message>)
      requires ChannelsOk(channels)
      modifies this
      ensures View() == RecoverEach(old(View()), key, popped, requeue, expired, unsent, late)
    {
      hide RecoverOne, ChannelsOk;
      ghost var was := View();
      for i := 0 to |popped|
        invariant ChannelsOk(channels)
        invariant RecoverEach(View(), key, popped[i..], requeue, expired, unsent, late)
                  == RecoverEach(was, key, popped, requeue, expired, unsent, late)
      {
        assert popped[i..] == [popped[i]] + popped[i + 1..];
        RecoverWellFormed(View(), key, popped[i], requeue, expired, unsent, late);
        RecoverRecord(key, popped[i], requeue, expired, unsent, late);
      }
    }

    /** HandleBasicRecover: false is the error for a channel without delivery state. */
    method HandleBasicRecover(key: ChannelKey, requeue: bool, popped: seq<Record>, dead: seq<Record>,
                              expired: set<Message>, unsent: set<Message>, late: set<Message>)
      returns (ok: bool)
      requires ChannelsOk(channels)
      modifies this
      ensures ok == (key in old(channels))
      ensures View() == Recover(old(View()), key, requeue, popped, dead, expired, unsent, late)
    {
      if key !in channels { return false; }
      EmptiedWellFormed(channels, key);
      hide RecoverOne, ChannelsOk;
      channels := channels[key := channels[key].(records := map[])];
      ledger := ledger.(gone := ledger.gone + MessagesOf(dead));
      RecoverRecords(key, requeue, popped, expired, unsent, late);
      ok := true;
    }

    // ---------------------------------------------------------------- closing

    /** takeChannelDeliveriesLocked, once t says how the records are told apart. */
    method TakeDeliveries(key: ChannelKey, t: Taking) returns (work: seq<Work>)
      modifies this`channels, this`ledger
      ensures View() == if key in old(channels) then DropChannel(old(View()), key, t.dead, t.stranded) else old(View())
      ensures work == if key in old(channels) then t.work else []
    {
      if key !in channels { return []; }
      channels := channels - {key};
      ledger := ledger.(gone := ledger.gone + MessagesOf(t.dead), lost := ledger.lost + MessagesOf(t.stranded));
      work := t.work;
    }

    /** ReleaseChannelDeliveries. */
    method ReleaseChannelDeliveries(key: ChannelKey, t: Taking)
      modifies this
      ensures View() == CloseChannel(old(View()), key, t)
    {
      hide CancelChannelConsumers, RequeueWork, DropChannel;
      CancelChannelConsumersLocked(key);
      var work := TakeDeliveries(key, t);
      NoWork(View());
      Requeue(work);
    }

    static lemma NoWork(s: VHost)
      ensures RequeueWork(s, []) == s
    {
    }

    /** CleanupConnection, in the orders in which its loops come across channels, consumers and queues. */
    method CleanupConnection(conn: Name, plan: seq<(ChannelKey, Taking)>, rest: seq<Consumer>, doomed: seq<Name>)
      requires PlanOk(View(), plan)
      modifies this
      ensures View() == CloseConnection(old(View()), conn, plan, rest, doomed)
      // what stays, and what goes back to it
      ensures Sound(old(View()), multiset{}) && ConnectionOrder(old(View()), conn, plan, rest, doomed) ==>
                forall n | n in old(queues) ::
                  && (n in queues <==> !GoesWith(old(View()), conn, n))
                  && (n in queues ==>
                      queues[n] == Refilled(Freed(old(queues)[n], conn), ReturnMessages(ReturnsTo(plan, n))))
    {
      hide PlanOk, RequeueWork, DeleteEach, CancelEach, TakeChannels, Disown, Sound, ConnectionOrder, GoesWith,
        Refilled, Freed, Live, ReturnsTo;
      if Sound(View(), multiset{}) && ConnectionOrder(View(), conn, plan, rest, doomed) {
        forall n | n in queues {
          CloseConnectionReturns(View(), conn, plan, rest, doomed, n);
        }
      }
      var work := TakeEachChannel(plan);
      CancelRest(rest);
      queues := Disowned(queues, conn);
      assert View() == Disown(CancelEach(TakeChannels(old(View()), plan), rest), conn) by {
        DisownIs(CancelEach(TakeChannels(old(View()), plan), rest), conn);
      }
      DeleteDoomed(doomed);
      Requeue(work);
    }

    static function Disowned(queues: map<Name, Queue>, conn: Name): map<Name, Queue> {
      map n | n in queues ::
        if queues[n].owner == Some(conn) && !queues[n].exclusive then queues[n].(owner := None) else queues[n]
    }

    static lemma DisownIs(s: VHost, conn: Name)
      ensures Disown(s, conn) == s.(queues := Disowned(s.queues, conn))
    {
      assert Disown(s, conn).queues == Disowned(s.queues, conn);
    }

    /** The channel loop. */
    method TakeEachChannel(plan: seq<(ChannelKey, Taking)>) returns (work: seq<Work>)
      requires PlanOk(View(), plan)
      modifies this
      ensures View() == TakeChannels(old(View()), plan) && work == Collected(plan)
    {
      hide CancelChannelConsumers, DropChannel, Takes;
      work := [];
      ghost var was := View();
      for i := 0 to |plan|
        invariant PlanOk(View(), plan[i..]) && TakeChannels(View(), plan[i..]) == TakeChannels(was, plan)
        invariant work + Collected(plan[i..]) == Collected(plan)
      {
        assert plan[i..] == [plan[i]] + plan[i + 1..];
        CancelChannelConsumersLocked(plan[i].0);
        var more := TakeDeliveries(plan[i].0, plan[i].1);
        work := work + more;
      }
      assert work + [] == work;
    }

    /** The consumers that no channel listed. */
    method CancelRest(rest: seq<Consumer>)
      modifies this
      ensures View() == CancelEach(old(View()), rest)
    {
      hide CancelLocked;
      ghost var was := View();
      for i := 0 to |rest|
        invariant CancelEach(View(), rest[i..]) == CancelEach(was, rest)
      {
        assert rest[i..] == [rest[i]] + rest[i + 1..];
        CancelConsumerLocked(rest[i]);
      }
    }

    /** The exclusive queues of the connection. */
    method DeleteDoomed(doomed: seq<Name>)
      modifies this
      ensures View() == DeleteEach(old(View()), doomed)
    {
      hide DeleteQueue;
      ghost var was := View();
      for i := 0 to |doomed|
        invariant DeleteEach(View(), doomed[i..]) == DeleteEach(was, doomed)
      {
        assert doomed[i..] == [doomed[i]] + doomed[i + 1..];
        var removed := DeleteQueueUnlocked(doomed[i]);
      }
    }
  }
}
