/**
 The handlers that deliver messages, and those that add or remove queues and consumers, keep
 the invariant and the account of messages.
 */
module DeliveryProofs {
  import opened Collections
  import opened ChannelDelivery
  import opened VHostState
  import opened RegistryProofs
  import opened StructureProofs
  import opened ConservationProofs
  import opened HandlerProofs

  /** The books after a step that settles nothing new and moves nothing out of the state. */
  lemma Unmoved(s: VHost, s': VHost, extra: multiset<Message>)
    requires BooksOk(s, extra) && Total(s') == Total(s)
    requires s'.ledger.published == s.ledger.published && s'.ledger.duplicated == s.ledger.duplicated
             && s'.ledger.lost == s.ledger.lost
    requires s'.ledger.deadLetters == s.ledger.deadLetters && s'.nextCopy == s.nextCopy && s'.nextGen >= s.nextGen
    requires forall n | n in s'.queues :: s'.queues[n].gen < s'.nextGen
    ensures BooksOk(s', extra)
  {
  }

  // ---------------------------------------------------------------- queues and consumers

  lemma DeleteQueueSound(s: VHost, n: Name, extra: multiset<Message>)
    requires Sound(s, extra) && n in s.queues
    ensures Sound(DeleteQueue(s, n), extra)
    ensures Members(DeleteQueue(s, n).reg) == set c | c in Members(s.reg) && c.queue != n
  {
    hide Structure, Total;
    DeleteQueueStructure(s, n);
    DeleteQueueTotal(s, n);
    Unmoved(s, DeleteQueue(s, n), extra);
  }

  lemma CancelSound(s: VHost, c: Consumer, extra: multiset<Message>)
    requires Sound(s, extra) && c in Members(s.reg)
    ensures Sound(CancelLocked(s, c), extra)
    ensures Members(CancelLocked(s, c).reg) == Members(s.reg) - {c}
  {
    hide Structure, Total, Detach;
    var s' := s.(reg := Unregister(s.reg, c), channels := Detach(s.channels, c));
    CancelInTwoSteps(s, c);
    CancelStructure(s, c);
    UnregisterStructure(s, c);
    DetachTotal(s, c, Unregister(s.reg, c));
    Unmoved(s, s', extra);
    if AutoDeletes(s', c.queue) {
      DeleteQueueSound(s', c.queue, extra);
    }
  }

  lemma DeclareSound(s: VHost, n: Name, conn: Name, autoDelete: bool, exclusive: bool, capacity: nat, maxLength: nat)
    requires Sound(s, multiset{})
    ensures Sound(DeclareQueue(s, n, conn, autoDelete, exclusive, capacity, maxLength), multiset{})
  {
    hide Structure, Total;
    var s' := DeclareQueue(s, n, conn, autoDelete, exclusive, capacity, maxLength);
    if n !in s.queues {
      forall k, t | k in s.channels && t in s.channels[k].records
        ensures s.channels[k].records[t].msg.origin < s.nextGen
      {
        OriginKnown(s, k, t);
      }
      NewQueueStructure(s, n, s'.queues[n]);
      NewQueueTotal(s, n, s'.queues[n]);
      Unmoved(s, s', multiset{});
    }
  }

  lemma NewQueueTotal(s: VHost, n: Name, q: Queue)
    requires n !in s.queues && Held(q) == []
    ensures Total(s.(queues := s.queues[n := q], nextGen := s.nextGen + 1)) == Total(s)
  {
    SumInsert(s.queues, QueueMessages, n, q);
    assert QueueMessages(q) == multiset{};
  }

  /** What a channel holds was published, so to a queue that was declared before. */
  lemma OriginKnown(s: VHost, k: ChannelKey, t: nat)
    requires BooksOk(s, multiset{}) && k in s.channels && t in s.channels[k].records
    ensures s.channels[k].records[t].msg.origin < s.nextGen
  {
    var m := s.channels[k].records[t].msg;
    SumParts(s.channels, ChannelMessages, k, k);
    SumParts(s.channels[k].records, RecordMessage, t, t);
    hide QueueMessages, Settled;
    assert m in Total(s) + multiset{};
    assert m in s.ledger.published + s.ledger.duplicated;
  }

  lemma NewQueueStructure(s: VHost, n: Name, q: Queue)
    requires Structure(s) && n !in s.queues && QueueOk(q)
    requires forall n | n in s.queues :: s.queues[n].gen != q.gen
    requires forall k, t | k in s.channels && t in s.channels[k].records :: s.channels[k].records[t].msg.origin != q.gen
    ensures Structure(s.(queues := s.queues[n := q], nextGen := s.nextGen + 1))
  {
    hide RegistryOk, Linked, Bounded, ChannelsOk, QueueOk;
    var queues' := s.queues[n := q];
    forall k | k in s.channels ensures RootedIn(queues', s.channels[k]) {
      assert RootedIn(s.queues, s.channels[k]);
      StillRooted(s.queues, s.channels[k], n, q);
    }
  }

  lemma StillRooted(queues: map<Name, Queue>, ch: Channel, n: Name, q: Queue)
    requires RootedIn(queues, ch) && n !in queues
    requires forall t | t in ch.records :: ch.records[t].msg.origin != q.gen
    ensures RootedIn(queues[n := q], ch)
  {
    forall t | t in ch.records ensures RootedTo(queues[n := q], ch.records[t]) {
      assert RootedTo(queues, ch.records[t]);
    }
  }

  lemma ConsumeSound(s: VHost, conn: Name, channel: nat, tag: Name, generated: Name, queue: Name, noAck: bool,
                     exclusive: bool)
    requires Sound(s, multiset{})
    ensures Sound(Consume(s, conn, channel, tag, generated, queue, noAck, exclusive), multiset{})
  {
    hide Structure;
    var s' := Consume(s, conn, channel, tag, generated, queue, noAck, exclusive);
    ConsumeStructure(s, conn, channel, tag, generated, queue, noAck, exclusive);
    assert s'.queues == s.queues && s'.channels == s.channels && s'.ledger == s.ledger;
    Unmoved(s, s', multiset{});
  }

  lemma QosStructure(s: VHost, key: ChannelKey, qos: Qos)
    requires Structure(s) && (ChannelOf(s, key).qos.prefetchGlobal ==> qos.prefetchGlobal)
    ensures Structure(s.(channels := s.channels[key := ChannelOf(s, key).(qos := qos)]))
  {
    var ch := ChannelOf(s, key);
    var ch' := ch.(qos := qos);
    OldFits(s, key);
    assert Fits(s, key, ch') by {
      hide Structure;
      forall c | c in Members(s.reg) && HomeOf(c) == key ensures WithinPrefetch(c, ch') {
        assert OfConsumer(ch', c.tag) == OfConsumer(ch, c.tag);
      }
    }
    SetChannel(s, key, ch');
  }

  /** A channel gets a new value with the same records. */
  lemma SameRecordsTotal(s: VHost, key: ChannelKey, ch: Channel)
    requires ch.records == ChannelOf(s, key).records
    ensures Total(s.(channels := s.channels[key := ch])) == Total(s)
  {
    hide Total;
    var s' := s.(channels := s.channels[key := ch]);
    SetChannelTotal(s, s', key, ch);
    Kept(Total(s), Total(s'), ChannelMessages(ChannelOf(s, key)), ChannelMessages(ch));
  }

  /** A change of limits alone. */
  lemma QosSound(s: VHost, key: ChannelKey, qos: Qos)
    requires Sound(s, multiset{})
    requires ChannelOf(s, key).qos.prefetchGlobal ==> qos.prefetchGlobal
    ensures Sound(s.(channels := s.channels[key := ChannelOf(s, key).(qos := qos)]), multiset{})
  {
    hide Structure, Total;
    QosStructure(s, key, qos);
    SameRecordsTotal(s, key, ChannelOf(s, key).(qos := qos));
    Unmoved(s, s.(channels := s.channels[key := ChannelOf(s, key).(qos := qos)]), multiset{});
  }

  // ---------------------------------------------------------------- publishing

  function Published(s: VHost, m: Message): VHost {
    s.(nextCopy := s.nextCopy + 1, ledger := s.ledger.(published := s.ledger.published + multiset{m}))
  }

  lemma PublishedFresh(s: VHost, m: Message)
    requires FreshOk(s) && m.copy == s.nextCopy && m.origin < s.nextGen
    ensures FreshOk(Published(s, m))
  {
    assert m !in s.ledger.published;
  }

  /** A new copy is published; the handler holds it. */
  lemma PublishedSound(s: VHost, m: Message)
    requires Sound(s, multiset{}) && m.copy == s.nextCopy && m.origin < s.nextGen
    ensures Sound(Published(s, m), multiset{} + multiset{m})
  {
    var s' := Published(s, m);
    SameStructure(s, s');
    PublishedFresh(s, m);
    assert Total(s') == Total(s);
    hide Structure, FreshOk, Total;
    InAccount(s.ledger.published, s.ledger.duplicated, Total(s), m);
    assert Total(s') + (multiset{} + multiset{m}) == Account(s'.ledger);
    assert BooksOk(s', multiset{} + multiset{m});
  }

  lemma InAccount(published: multiset<Message>, duplicated: multiset<Message>, total: multiset<Message>, m: Message)
    requires total + multiset{} == published + duplicated
    ensures total + (multiset{} + multiset{m}) == published + multiset{m} + duplicated
  {
    forall x ensures (total + (multiset{} + multiset{m}))[x] == (published + multiset{m} + duplicated)[x] {
      assert (total + multiset{})[x] == (published + duplicated)[x];
    }
  }

  lemma FreshQueue(s: VHost, n: Name)
    requires Sound(s, multiset{}) && n in s.queues
    ensures s.queues[n].gen < s.nextGen
  {
  }

  lemma {:induction false} PublishSound(s: VHost, targets: seq<Name>, id: nat)
    requires Sound(s, multiset{})
    ensures Sound(Publish(s, targets, id), multiset{})
    decreases |targets|
  {
    hide Structure, BooksOk;
    if targets != [] {
      if targets[0] !in s.queues {
        PublishSound(s, targets[1..], id);
      } else {
        var m := Message(id, s.nextCopy, s.queues[targets[0]].gen);
        var s' := Published(s, m);
        FreshQueue(s, targets[0]);
        PublishedSound(s, m);
        PushSound(s', targets[0], m, multiset{});
        PublishSound(Push(s', targets[0], m), targets[1..], id);
      }
    }
  }

  // ---------------------------------------------------------------- the delivery loop

  /** What a queue holds comes from that queue. */
  lemma HeldOrigin(s: VHost, n: Name)
    requires Structure(s) && n in s.queues
    ensures s.queues[n].ready != [] ==> s.queues[n].ready[0].origin == s.queues[n].gen
    ensures s.queues[n].hand.Some? ==> s.queues[n].hand.value.origin == s.queues[n].gen
    ensures s.queues[n].ready != [] ==> QueueOk(s.queues[n].(ready := s.queues[n].ready[1..]))
    ensures QueueOk(s.queues[n].(hand := None))
    ensures s.queues[n].ready != [] ==>
              QueueOk(s.queues[n].(ready := s.queues[n].ready[1..], hand := Some(s.queues[n].ready[0])))
  {
    var q := s.queues[n];
    assert QueueOk(q);
    if q.ready != [] { assert q.ready[0] in q.ready; }
  }

  lemma SetQueue(s: VHost, n: Name, q: Queue)
    requires Structure(s) && n in s.queues && QueueOk(q) && q == s.queues[n].(ready := q.ready, hand := q.hand)
    ensures Structure(s.(queues := s.queues[n := q]))
  {
    SetQueues(s, s.queues[n := q]);
  }

  /** A queue's contents change; ms is what left it. */
  lemma TakeOut(s: VHost, n: Name, q: Queue, ms: multiset<Message>)
    requires Sound(s, multiset{}) && n in s.queues && QueueOk(q)
    requires q == s.queues[n].(ready := q.ready, hand := q.hand) && QueueMessages(s.queues[n]) == QueueMessages(q) + ms
    ensures Sound(s.(queues := s.queues[n := q]), ms)
  {
    var s' := s.(queues := s.queues[n := q]);
    hide Structure, Total, QueueOk, QueueMessages;
    SetQueue(s, n, q);
    SetQueueTotal(s, s', n, q);
    LeftOver(Total(s), Total(s'), QueueMessages(s.queues[n]), QueueMessages(q), ms);
  }

  /** The head of a queue is taken out for good. */
  lemma TakeHead(s: VHost, n: Name)
    requires Sound(s, multiset{}) && n in s.queues && s.queues[n].ready != []
    ensures var q := s.queues[n];
            && Sound(s.(queues := s.queues[n := q.(ready := q.ready[1..])]), multiset{} + multiset{q.ready[0]})
            && q.gen == q.ready[0].origin
  {
    var q := s.queues[n];
    hide Structure, BooksOk, QueueOk, QueueMessages;
    HeldOrigin(s, n);
    HeadMessages(q);
    NoneAnd(multiset{q.ready[0]});
    TakeOut(s, n, q.(ready := q.ready[1..]), multiset{q.ready[0]});
  }

  lemma NoneAnd(ms: multiset<Message>)
    ensures multiset{} + ms == ms
  {
  }

  /** What the delivery loop holds is taken from it. */
  lemma TakeHand(s: VHost, n: Name)
    requires Sound(s, multiset{}) && n in s.queues && s.queues[n].hand.Some?
    ensures var q := s.queues[n];
            && Sound(s.(queues := s.queues[n := q.(hand := None)]), multiset{} + multiset{q.hand.value})
            && q.gen == q.hand.value.origin
  {
    var q := s.queues[n];
    hide Structure, BooksOk, QueueOk, QueueMessages;
    HeldOrigin(s, n);
    HandMessages(q);
    NoneAnd(multiset{q.hand.value});
    TakeOut(s, n, q.(hand := None), multiset{q.hand.value});
  }

  lemma TakeSound(s: VHost, n: Name, expired: bool)
    requires Sound(s, multiset{})
    ensures Sound(Take(s, n, expired), multiset{})
  {
    hide Structure, BooksOk, QueueOk, QueueMessages;
    if n in s.queues && s.queues[n].hand == None && s.queues[n].ready != [] {
      var q := s.queues[n];
      HeldOrigin(s, n);
      if expired {
        TakeHead(s, n);
        ExpireSound(s.(queues := s.queues[n := q.(ready := q.ready[1..])]), n, q.ready[0], multiset{});
      } else {
        HeadMessages(q);
        TakeOut(s, n, q.(ready := q.ready[1..], hand := Some(q.ready[0])), multiset{});
      }
    }
  }

  // ---------------------------------------------------------------- purging

  lemma PurgedSound(s: VHost, m: Message, extra: multiset<Message>)
    requires Sound(s, extra + multiset{m})
    ensures Sound(s.(ledger := s.ledger.(purged := s.ledger.purged + multiset{m})), extra)
  {
    hide Structure, Total, Settled;
    Booked(s.ledger, multiset{m});
    SettleSound(s, s.ledger.(purged := s.ledger.purged + multiset{m}), multiset{m}, extra);
  }

  lemma PurgeHeadSound(s: VHost, n: Name, expired: set<Message>)
    requires Sound(s, multiset{}) && n in s.queues && s.queues[n].ready != []
    ensures Sound(PurgeHead(s, n, expired), multiset{})
  {
    hide Structure, BooksOk;
    var q := s.queues[n];
    var s' := s.(queues := s.queues[n := q.(ready := q.ready[1..])]);
    TakeHead(s, n);
    if q.ready[0] in expired {
      ExpireSound(s', n, q.ready[0], multiset{});
    } else {
      PurgedSound(s', q.ready[0], multiset{});
    }
  }

  lemma {:induction false} PurgeAllSound(s: VHost, n: Name, expired: set<Message>)
    requires Sound(s, multiset{}) && n in s.queues
    ensures Sound(PurgeAll(s, n, expired), multiset{})
    decreases |s.queues[n].ready|
  {
    hide Sound;
    if s.queues[n].ready != [] {
      PurgeHeadSound(s, n, expired);
      PurgeAllSound(PurgeHead(s, n, expired), n, expired);
    }
  }

  /** Purging a queue keeps the invariant and the account. */
  lemma PurgeSound(s: VHost, n: Name, conn: Name, expired: set<Message>)
    requires Sound(s, multiset{})
    ensures Sound(Purge(s, n, conn, expired), multiset{})
  {
    hide Sound, PurgeAll;
    if n in s.queues { PurgeAllSound(s, n, expired); }
  }

  // ---------------------------------------------------------------- the hand of the loop

  lemma GiveBackSound(s: VHost, n: Name)
    requires Sound(s, multiset{})
    ensures Sound(GiveBack(s, n), multiset{})
  {
    hide Structure, BooksOk;
    if n in s.queues && s.queues[n].hand.Some? {
      var q := s.queues[n];
      TakeHand(s, n);
      PushSound(s.(queues := s.queues[n := q.(hand := None)]), n, q.hand.value, multiset{});
    }
  }

  lemma DeliverStructure(s: VHost, c: Consumer, m: Message, sent: bool)
    requires Structure(s) && c in Members(s.reg) && c.queue in s.queues && s.queues[c.queue].gen == m.origin
    requires var ch := ChannelOf(s, HomeOf(c));
             sent && c.prefetch > 0 && !ch.qos.prefetchGlobal ==> |OfConsumer(ch, c.tag)| < c.prefetch
    ensures Structure(Deliver(s, c, m, sent))
  {
    hide Structure;
    var k := HomeOf(c);
    var ch := ChannelOf(s, k);
    if sent && !c.noAck {
      var ch' := TrackConsumer(ch, c.tag, c.queue, m, c.id);
      TrackedFits(s, c, m);
      SetChannel(s, k, ch');
      SameStructure(s.(channels := s.channels[k := ch']), Deliver(s, c, m, sent));
    } else {
      BumpStructure(s, k);
      SameStructure(s.(channels := s.channels[k := ch.(last := ch.last + 1)]), Deliver(s, c, m, sent));
    }
  }

  /** A delivery by a registered consumer whose limit is not reached. */
  lemma SentSound(s: VHost, c: Consumer, m: Message, extra: multiset<Message>)
    requires Sound(s, extra + multiset{m})
    requires c in Members(s.reg) && c.queue in s.queues && s.queues[c.queue].gen == m.origin
    requires var ch := ChannelOf(s, HomeOf(c));
             c.prefetch > 0 && !ch.qos.prefetchGlobal ==> |OfConsumer(ch, c.tag)| < c.prefetch
    ensures Sound(Deliver(s, c, m, true), extra)
  {
    hide Structure, Total;
    WellFormedChannel(s, HomeOf(c));
    DeliverStructure(s, c, m, true);
    DeliverTotal(s, c, m, true);
    Moved(s, Deliver(s, c, m, true), extra, multiset{m});
  }

  /** A failed delivery costs a tag and nothing else. */
  lemma BumpSound(s: VHost, k: ChannelKey, extra: multiset<Message>)
    requires Sound(s, extra)
    ensures Sound(s.(channels := s.channels[k := ChannelOf(s, k).(last := ChannelOf(s, k).last + 1)]), extra)
  {
    hide Structure, Total;
    BumpStructure(s, k);
    BumpTotal(s, k);
    Unmoved(s, s.(channels := s.channels[k := ChannelOf(s, k).(last := ChannelOf(s, k).last + 1)]), extra);
  }

  lemma WellFormedChannel(s: VHost, k: ChannelKey)
    requires Structure(s)
    ensures WellFormed(ChannelOf(s, k))
  {
  }

  /** A tag is used up. */
  lemma BumpStructure(s: VHost, k: ChannelKey)
    requires Structure(s)
    ensures Structure(s.(channels := s.channels[k := ChannelOf(s, k).(last := ChannelOf(s, k).last + 1)]))
  {
    hide Structure;
    var ch := ChannelOf(s, k);
    OldFits(s, k);
    SmallerFits(s, k, ch, ch.(last := ch.last + 1));
    SetChannel(s, k, ch.(last := ch.last + 1));
  }

  /** The ledger and the marks are outside the structural invariant. */
  lemma SameStructure(s: VHost, s': VHost)
    requires Structure(s)
    requires s'.queues == s.queues && s'.reg == s.reg && s'.channels == s.channels && s'.nextConsumer == s.nextConsumer
    ensures Structure(s')
  {
  }

  /** The consumers of a queue, as its index lists them. */
  lemma ConsumerAt(s: VHost, n: Name, i: nat)
    requires Structure(s) && i < |Get(s.reg.byQueue, n)|
    ensures var c := Get(s.reg.byQueue, n)[i]; c in Members(s.reg) && c.queue == n && n in s.queues
  {
    assert Get(s.reg.byQueue, n)[i] in Get(s.reg.byQueue, n);
  }

  lemma AttemptSound(s: VHost, n: Name, i: nat, sent: bool)
    requires Sound(s, multiset{})
    ensures Sound(Attempt(s, n, i, sent), multiset{})
  {
    hide Structure, BooksOk;
    if n in s.queues && s.queues[n].hand.Some? && i < |Get(s.reg.byQueue, n)| {
      var q, c := s.queues[n], Get(s.reg.byQueue, n)[i];
      ConsumerAt(s, n, i);
      if c.id in s.reg.active && !Throttled(s, c) {
        TakeHand(s, n);
        if sent {
          NotThrottled(s, c);
          SentSound(s.(queues := s.queues[n := q.(hand := None)]), c, q.hand.value, multiset{});
        } else {
          BumpSound(s, HomeOf(c), multiset{});
          CancelSound(Deliver(s, c, q.hand.value, false), c, multiset{});
        }
      }
    }
  }

  lemma NotThrottled(s: VHost, c: Consumer)
    requires !Throttled(s, c)
    ensures var ch := ChannelOf(s, HomeOf(c));
            c.prefetch > 0 && !ch.qos.prefetchGlobal ==> |OfConsumer(ch, c.tag)| < c.prefetch
  {
    assert OfConsumer(EMPTY_CHANNEL, c.tag) == {};
  }

  lemma GetSound(s: VHost, conn: Name, channel: nat, n: Name, noAck: bool, expired: bool)
    requires Sound(s, multiset{})
    ensures Sound(GetMessage(s, conn, channel, n, noAck, expired), multiset{})
  {
    hide Structure, BooksOk;
    if n in s.queues && OwnedBy(s.queues[n], conn) && s.queues[n].ready != [] {
      var q := s.queues[n];
      var s' := s.(queues := s.queues[n := q.(ready := q.ready[1..])]);
      TakeHead(s, n);
      if expired {
        ExpireSound(s', n, q.ready[0], multiset{});
      } else if noAck {
        GotNoAckSound(s', ChannelKey(conn, channel), q.ready[0]);
      } else {
        GotSound(s', ChannelKey(conn, channel), n, q.ready[0]);
      }
    }
  }

  lemma GotNoAckSound(s: VHost, key: ChannelKey, m: Message)
    requires Sound(s, multiset{} + multiset{m})
    ensures var ch := ChannelOf(s, key);
            Sound(s.(channels := s.channels[key := ch.(last := ch.last + 1)],
                     ledger := s.ledger.(autoAcked := s.ledger.autoAcked + multiset{m})), multiset{})
  {
    hide Sound;
    BumpSound(s, key, multiset{} + multiset{m});
    AutoAckSound(s.(channels := s.channels[key := ChannelOf(s, key).(last := ChannelOf(s, key).last + 1)]), m,
                 multiset{});
  }

  lemma AutoAckSound(s: VHost, m: Message, extra: multiset<Message>)
    requires Sound(s, extra + multiset{m})
    ensures Sound(s.(ledger := s.ledger.(autoAcked := s.ledger.autoAcked + multiset{m})), extra)
  {
    hide Structure, Total, Settled;
    Booked(s.ledger, multiset{m});
    SettleSound(s, s.ledger.(autoAcked := s.ledger.autoAcked + multiset{m}), multiset{m}, extra);
  }

  lemma GotSound(s: VHost, key: ChannelKey, n: Name, m: Message)
    requires Sound(s, multiset{} + multiset{m}) && n in s.queues && s.queues[n].gen == m.origin
    ensures Sound(s.(channels := s.channels[key := TrackGet(ChannelOf(s, key), n, m)]), multiset{})
  {
    var ch := ChannelOf(s, key);
    var ch' := TrackGet(ch, n, m);
    var s1 := s.(channels := s.channels[key := ch']);
    hide Structure, Total, ChannelMessages;
    WellFormedChannel(s, key);
    GotFits(s, key, n, m);
    SetChannel(s, key, ch');
    SetChannelTotal(s, s1, key, ch');
    TrackedMessages(ch, ch', Record(ch.last + 1, Name(""), true, n, m, 0, false, false));
    Gained(Total(s), Total(s1), ChannelMessages(ch), ChannelMessages(ch'), multiset{m});
    Moved(s, s1, multiset{}, multiset{m});
  }
}
