/**
 basic.recover keeps the invariant and the account of messages. The point is the prefetch limit:
 recover with requeue = false redelivers without asking the throttle, and still no consumer ends
 up with more deliveries than its limit.
 */
module RecoverProofs {
  import opened Collections
  import opened ChannelDelivery
  import opened VHostState
  import opened RegistryProofs
  import opened StructureProofs
  import opened ConservationProofs
  import opened HandlerProofs
  import opened DeliveryProofs

  // ---------------------------------------------------------------- the limit

  /** How many of the records still to be recovered may come to count against a tag. */
  function Pending(records: seq<Record>, tag: Name): nat {
    if records == [] then 0 else (if ByConsumer(records[0], tag) then 1 else 0) + Pending(records[1..], tag)
  }

  lemma {:induction false} PendingListed(records: seq<Record>, ch: Channel, tags: set<nat>, tag: Name)
    requires Lists(records, ch, tags)
    ensures Pending(records, tag) <= |OfConsumer(ch, tag) * tags|
    decreases |records|
  {
    if records != [] {
      var r := records[0];
      ListsTail(records, ch, tags);
      PendingListed(records[1..], ch, tags - {r.tag}, tag);
      var all, less := OfConsumer(ch, tag) * tags, OfConsumer(ch, tag) * (tags - {r.tag});
      if ByConsumer(r, tag) {
        assert all == less + {r.tag};
      } else {
        SubsetSize(less, all);
      }
    }
  }

  /** Every limit leaves room for the records still to be recovered. */
  ghost predicate Room(reg: Registry, key: ChannelKey, ch: Channel, records: seq<Record>) {
    forall c | c in Members(reg) && HomeOf(c) == key && c.prefetch > 0 && !ch.qos.prefetchGlobal ::
      |OfConsumer(ch, c.tag)| + Pending(records, c.tag) <= c.prefetch
  }

  lemma RoomAtFirst(s: VHost, key: ChannelKey, records: seq<Record>, tags: set<nat>)
    requires Structure(s) && key in s.channels && Lists(records, s.channels[key], tags)
    ensures Room(s.reg, key, s.channels[key].(records := map[]), records)
  {
    var ch := s.channels[key];
    forall c | c in Members(s.reg) && HomeOf(c) == key && c.prefetch > 0 && !ch.qos.prefetchGlobal
      ensures |OfConsumer(ch.(records := map[]), c.tag)| + Pending(records, c.tag) <= c.prefetch
    {
      assert WithinPrefetch(c, ch);
      PendingListed(records, ch, tags, c.tag);
      SubsetSize(OfConsumer(ch, c.tag) * tags, OfConsumer(ch, c.tag));
      assert OfConsumer(ch.(records := map[]), c.tag) == {};
    }
  }

  /** A record that is not redelivered leaves the room it had. */
  lemma RoomLess(reg: Registry, key: ChannelKey, ch: Channel, ch': Channel, records: seq<Record>)
    requires Room(reg, key, ch, records) && records != []
    requires ch'.records == ch.records && ch'.qos == ch.qos
    ensures Room(reg, key, ch', records[1..])
  {
    forall c: Consumer
      ensures OfConsumer(ch', c.tag) == OfConsumer(ch, c.tag)
              && Pending(records[1..], c.tag) <= Pending(records, c.tag) {
    }
  }

  /** A redelivery takes exactly the room of its record. */
  lemma RoomTaken(reg: Registry, key: ChannelKey, ch: Channel, records: seq<Record>, queue: Name, owner: nat)
    requires WellFormed(ch) && Room(reg, key, ch, records) && records != []
             && ByConsumer(records[0], records[0].consumerTag)
    ensures Room(reg, key, TrackConsumer(ch, records[0].consumerTag, queue, records[0].msg, owner), records[1..])
  {
    var r := records[0];
    forall c: Consumer
      ensures |OfConsumer(TrackConsumer(ch, r.consumerTag, queue, r.msg, owner), c.tag)| + Pending(records[1..], c.tag)
           == |OfConsumer(ch, c.tag)| + Pending(records, c.tag)
    {
      TrackedCount(ch, r.consumerTag, queue, r.msg, owner, c.tag);
    }
  }

  // ---------------------------------------------------------------- one record

  ghost predicate Recoverable(queues: map<Name, Queue>, reg: Registry, key: ChannelKey, r: Record) {
    && RootedTo(queues, r) && !r.queueDeleted && WellFormedRecord(r)
    && (Counted(r) ==> LinkedTo(reg, key, r))
  }

  lemma {:induction false} FoundConsumer(cs: seq<Consumer>, tag: Name)
    ensures FindConsumer(cs, tag).Some? ==> FindConsumer(cs, tag).value in cs && FindConsumer(cs, tag).value.tag == tag
    decreases |cs|
  {
    if cs != [] { FoundConsumer(cs[1..], tag); }
  }

  lemma ListedAt(reg: Registry, key: ChannelKey, c: Consumer)
    requires RegistryOk(reg) && c in Get(reg.byChannel, key)
    ensures c in Members(reg) && HomeOf(c) == key && c.Key() in reg.consumers && reg.consumers[c.Key()] == c
  {
    assert Indexes(reg.byChannel, Members(reg), HomeOf);
    assert c in Members(reg);
    MemberIff(reg, c);
  }

  /** The consumer recover finds for a record is the one the record was delivered to. */
  lemma FoundOwner(s: VHost, key: ChannelKey, r: Record)
    requires RegistryOk(s.reg) && LinkedTo(s.reg, key, r)
    ensures var target := FindConsumer(Get(s.reg.byChannel, key), r.consumerTag);
            target.Some? ==> var c := target.value;
              c in Members(s.reg) && HomeOf(c) == key && c.tag == r.consumerTag && c.id == r.owner
              && c.queue == r.queue && !c.noAck
  {
    var cs := Get(s.reg.byChannel, key);
    var target := FindConsumer(cs, r.consumerTag);
    FoundConsumer(cs, r.consumerTag);
    if target.Some? {
      ListedAt(s.reg, key, target.value);
      hide RegistryOk, Indexes, FindConsumer;
      assert s.reg.consumers[ConsumerKey(key.channel, r.consumerTag)] == target.value;
    }
  }

  /** The record is delivered again, to the consumer it was delivered to before. */
  lemma RedeliverSound(s: VHost, key: ChannelKey, records: seq<Record>, c: Consumer, extra: multiset<Message>)
    requires records != [] && Sound(s, extra + multiset{records[0].msg}) && Room(s.reg, key, ChannelOf(s, key), records)
    requires Recoverable(s.queues, s.reg, key, records[0]) && ByConsumer(records[0], c.tag)
    requires c in Members(s.reg) && HomeOf(c) == key && c.tag == records[0].consumerTag && c.queue == records[0].queue
             && !c.noAck
    ensures var s' := Deliver(s, c, records[0].msg, true);
            && Sound(s', extra) && SameFrame(s, s')
            && Room(s'.reg, key, ChannelOf(s', key), records[1..])
  {
    hide Structure, BooksOk;
    WellFormedChannel(s, key);
    RoomTaken(s.reg, key, ChannelOf(s, key), records, c.queue, c.id);
    assert Pending(records, c.tag) >= 1;
    SentSound(s, c, records[0].msg, extra);
  }

  /** What a handler has in hand was published. */
  lemma HandPublished(s: VHost, m: Message, extra: multiset<Message>)
    requires BooksOk(s, extra + multiset{m})
    ensures m in s.ledger.published
  {
    hide Total;
    assert m in Total(s) + (extra + multiset{m});
    assert m in s.ledger.published + s.ledger.duplicated;
  }

  /** A message that expires late is settled and in hand. */
  lemma ExpireLateSound(s: VHost, n: Name, m: Message, extra: multiset<Message>)
    requires Sound(s, extra + multiset{m}) && n in s.queues && s.queues[n].gen == m.origin
    ensures Sound(ExpireLate(s, n, m), extra + multiset{m}) && SameFrame(s, ExpireLate(s, n, m))
            && ExpireLate(s, n, m).channels == s.channels
  {
    HandPublished(s, m, extra);
    ExpireSound(s, n, m, extra);
    hide Structure, Settled;
    DuplicateSound(Expire(s, n, m), m, extra);
  }

  lemma DuplicateSound(s: VHost, m: Message, extra: multiset<Message>)
    requires Sound(s, extra) && m in s.ledger.published
    ensures Sound(s.(ledger := s.ledger.(duplicated := s.ledger.duplicated + multiset{m})), extra + multiset{m})
  {
    var s' := s.(ledger := s.ledger.(duplicated := s.ledger.duplicated + multiset{m}));
    assert Total(s') == Total(s);
    assert Structure(s');
    hide Structure, Total;
    Doubled(Total(s), extra, s.ledger.published, s.ledger.duplicated, m);
  }

  lemma Doubled(total: multiset<Message>, extra: multiset<Message>, published: multiset<Message>,
                duplicated: multiset<Message>, m: Message)
    requires total + extra == published + duplicated
    ensures total + (extra + multiset{m}) == published + (duplicated + multiset{m})
  {
    forall x ensures (total + (extra + multiset{m}))[x] == (published + (duplicated + multiset{m}))[x] {
      assert (total + extra)[x] == (published + duplicated)[x];
    }
  }

  /** A message goes back as a nack would return it, whether it expires late or not. */
  lemma RequeueMessageSound(s: VHost, r: Record, late: bool, extra: multiset<Message>)
    requires Sound(s, extra + multiset{r.msg}) && RootedTo(s.queues, r) && !r.queueDeleted
    ensures var s' := RequeueMessage(s, r, late);
            Sound(s', extra) && SameFrame(s, s') && s'.channels == s.channels
  {
    if late { ExpireLateSound(s, r.queue, r.msg, extra); }
    var s1 := if late then ExpireLate(s, r.queue, r.msg) else s;
    hide Structure, BooksOk;
    PushBackSound(s1, r.queue, r.msg, extra);
  }

  lemma RecoverOneSound(s: VHost, key: ChannelKey, records: seq<Record>, requeue: bool, expired: set<Message>,
                        unsent: set<Message>, late: set<Message>, extra: multiset<Message>)
    requires records != [] && Sound(s, extra + multiset{records[0].msg}) && Room(s.reg, key, ChannelOf(s, key), records)
    requires Recoverable(s.queues, s.reg, key, records[0])
    ensures var s' := RecoverOne(s, key, records[0], requeue, expired, unsent, late);
            && Sound(s', extra) && SameFrame(s, s')
            && Room(s'.reg, key, ChannelOf(s', key), records[1..])
  {
    hide Structure, BooksOk, Room, RequeueMessage;
    var r, ch := records[0], ChannelOf(s, key);
    RoomLess(s.reg, key, ch, ch, records);
    match FateOf(s, key, r, requeue, expired, unsent)
    case Expires => ExpireSound(s, r.queue, r.msg, extra);
    case Requeued => RequeueMessageSound(s, r, r.msg in late, extra);
    case Bounced(c) =>
      FoundOwnerOf(s, key, r, extra);
      BumpSound(s, key, extra + multiset{r.msg});
      RequeueMessageSound(Deliver(s, c, r.msg, false), r, r.msg in late, extra);
      RoomLess(s.reg, key, ch, ch.(last := ch.last + 1), records);
    case Redelivered(c) =>
      FoundOwnerOf(s, key, r, extra);
      RedeliverSound(s, key, records, c, extra);
  }

  lemma FoundOwnerOf(s: VHost, key: ChannelKey, r: Record, extra: multiset<Message>)
    requires Sound(s, extra + multiset{r.msg}) && Recoverable(s.queues, s.reg, key, r) && !r.fromGet
             && !r.consumerCancelled
    ensures ByConsumer(r, r.consumerTag)
    ensures var target := FindConsumer(Get(s.reg.byChannel, key), r.consumerTag);
            target.Some? ==> var c := target.value;
              c in Members(s.reg) && HomeOf(c) == key && c.tag == r.consumerTag && c.queue == r.queue && !c.noAck
  {
    FoundOwner(s, key, r);
  }

  // ---------------------------------------------------------------- all of them

  lemma {:induction false} RecoverEachSound(s: VHost, key: ChannelKey, records: seq<Record>, requeue: bool,
                                            expired: set<Message>,
                                            unsent: set<Message>, late: set<Message>, extra: multiset<Message>)
    requires Sound(s, extra + MessagesOf(records)) && Room(s.reg, key, ChannelOf(s, key), records)
    requires forall r | r in records :: Recoverable(s.queues, s.reg, key, r)
    ensures Sound(RecoverEach(s, key, records, requeue, expired, unsent, late), extra)
    decreases |records|
  {
    hide Structure, BooksOk, Room, FateOf, RecoverOne;
    if records == [] {
      assert extra + multiset{} == extra;
    } else {
      var s' := RecoverOne(s, key, records[0], requeue, expired, unsent, late);
      var rest := MessagesOf(records[1..]);
      assert extra + MessagesOf(records) == extra + rest + multiset{records[0].msg};
      assert records[0] in records;
      RecoverOneSound(s, key, records, requeue, expired, unsent, late, extra + rest);
      forall r | r in records[1..]
        ensures Recoverable(s'.queues, s'.reg, key, r)
      {
        assert r in records;
      }
      RecoverEachSound(s', key, records[1..], requeue, expired, unsent, late, extra);
    }
  }

  /** What becomes of a record depends on the consumers and the names of the queues alone. */
  lemma SameFate(s: VHost, s': VHost, key: ChannelKey, r: Record, requeue: bool, expired: set<Message>,
                 unsent: set<Message>)
    requires s'.reg == s.reg && s'.queues.Keys == s.queues.Keys
    ensures FateOf(s', key, r, requeue, expired, unsent) == FateOf(s, key, r, requeue, expired, unsent)
  {
  }

  /** The records of a channel that recover takes: those of live queues and those of deleted ones. */
  lemma RecoverTakes(ch: Channel, popped: seq<Record>, dead: seq<Record>)
    requires Lists(popped, ch, Requeueable(ch)) && Lists(dead, ch, DeadTags(ch))
    ensures ChannelMessages(ch) == MessagesOf(dead) + MessagesOf(popped)
  {
    var ch1 := Without(ch, DeadTags(ch));
    WithoutMessages(ch, DeadTags(ch), dead);
    ListsLess(popped, ch, DeadTags(ch), Requeueable(ch));
    WithoutMessages(ch1, Requeueable(ch), popped);
    assert Without(ch1, Requeueable(ch)).records == map[];
    EmptyChannelMessages(Without(ch1, Requeueable(ch)));
  }

  lemma RecoverableRecords(s: VHost, key: ChannelKey, popped: seq<Record>)
    requires Structure(s) && key in s.channels && Lists(popped, s.channels[key], Requeueable(s.channels[key]))
    ensures forall r | r in popped :: Recoverable(s.queues, s.reg, key, r)
  {
    var ch := s.channels[key];
    assert WellFormed(ch) && LinkedIn(s.reg, key, ch) && RootedIn(s.queues, ch);
    forall r | r in popped ensures Recoverable(s.queues, s.reg, key, r) {
      assert r.tag in Requeueable(ch) && ch.records[r.tag] == r;
    }
  }

  /** The channel is emptied: its live records are in the handler's hand, the others are gone. */
  lemma EmptiedSound(s: VHost, key: ChannelKey, popped: seq<Record>, dead: seq<Record>)
    requires Sound(s, multiset{}) && key in s.channels
    requires Lists(popped, s.channels[key], Requeueable(s.channels[key]))
             && Lists(dead, s.channels[key], DeadTags(s.channels[key]))
    ensures Sound(s.(channels := s.channels[key := s.channels[key].(records := map[])],
                     ledger := s.ledger.(gone := s.ledger.gone + MessagesOf(dead))), multiset{} + MessagesOf(popped))
  {
    hide Structure, Total, Settled, Lists, ChannelMessages;
    var ch := s.channels[key];
    var s1 := s.(channels := s.channels[key := ch.(records := map[])]);
    assert Without(ch, ch.records.Keys).records == map[];
    assert Without(ch, ch.records.Keys) == ch.(records := map[]);
    PopStructure(s, key, ch.records.Keys);
    SetChannelTotal(s, s1, key, ch.(records := map[]));
    EmptyChannelMessages(ch.(records := map[]));
    RecoverTakes(ch, popped, dead);
    InHand(Total(s), Total(s1), ChannelMessages(ch), MessagesOf(dead), MessagesOf(popped), Account(s.ledger));
    assert Sound(s1, multiset{} + MessagesOf(popped) + MessagesOf(dead));
    GoneSound(s1, MessagesOf(dead), multiset{} + MessagesOf(popped));
  }

  lemma InHand(total: multiset<Message>, total': multiset<Message>, part: multiset<Message>, dead: multiset<Message>,
               live: multiset<Message>, account: multiset<Message>)
    requires total' + part == total + multiset{} && part == dead + live && total + multiset{} == account
    ensures total' + (multiset{} + live + dead) == account
  {
  }

  lemma GoneSound(s: VHost, ms: multiset<Message>, extra: multiset<Message>)
    requires Sound(s, extra + ms)
    ensures Sound(s.(ledger := s.ledger.(gone := s.ledger.gone + ms)), extra)
  {
    hide Structure, Total, Settled;
    Booked(s.ledger, ms);
    SettleSound(s, s.ledger.(gone := s.ledger.gone + ms), ms, extra);
  }

  /** The host once recover has taken the records of the channel off it. */
  function Emptied(s: VHost, key: ChannelKey, dead: seq<Record>): VHost
    requires key in s.channels
  {
    s.(channels := s.channels[key := s.channels[key].(records := map[])],
       ledger := s.ledger.(gone := s.ledger.gone + MessagesOf(dead)))
  }

  lemma RecoverSound(s: VHost, key: ChannelKey, requeue: bool, popped: seq<Record>, dead: seq<Record>,
                     expired: set<Message>, unsent: set<Message>, late: set<Message>)
    requires Sound(s, multiset{}) && key in s.channels
    requires Lists(popped, s.channels[key], Requeueable(s.channels[key]))
             && Lists(dead, s.channels[key], DeadTags(s.channels[key]))
    ensures Sound(Recover(s, key, requeue, popped, dead, expired, unsent, late), multiset{})
  {
    hide Structure, BooksOk, Lists, Room, FateOf;
    var s1 := Emptied(s, key, dead);
    EmptiedSound(s, key, popped, dead);
    RoomAtFirst(s, key, popped, Requeueable(s.channels[key]));
    RecoverableRecords(s, key, popped);
    RecoverEachSound(s1, key, popped, requeue, expired, unsent, late, multiset{});
  }

  // ---------------------------------------------------------------- messages that expire late

  /** The message expires between the two questions: it is dead-lettered, and pushed all the same. */
  predicate ExpiresLate(s: VHost, key: ChannelKey, r: Record, requeue: bool, expired: set<Message>,
                        unsent: set<Message>, late: set<Message>) {
    r.queue in s.queues && Returns(FateOf(s, key, r, requeue, expired, unsent)) && r.msg in late
  }

  function Late(s: VHost, key: ChannelKey, records: seq<Record>, requeue: bool, expired: set<Message>,
                unsent: set<Message>, late: set<Message>): multiset<Message> {
    if records == [] then multiset{}
    else
      (if ExpiresLate(s, key, records[0], requeue, expired, unsent, late) then multiset{records[0].msg} else multiset{})
      + Late(s, key, records[1..], requeue, expired, unsent, late)
  }

  /** The two hosts differ in what has expired and is there twice: ms more in the first. */
  ghost predicate Apart(a: VHost, b: VHost, ms: multiset<Message>) {
    a == b.(ledger := b.ledger.(expired := b.ledger.expired + ms, duplicated := b.ledger.duplicated + ms,
                                deadLetters := a.ledger.deadLetters))
  }

  lemma ExpireApart(a: VHost, b: VHost, ms: multiset<Message>, n: Name, m: Message)
    requires Apart(a, b, ms) && n in b.queues
    ensures Apart(Expire(a, n, m), Expire(b, n, m), ms)
    ensures Apart(ExpireLate(a, n, m), b, ms + multiset{m})
  {
    assert b.ledger.expired + ms + multiset{m} == b.ledger.expired + multiset{m} + ms;
    assert b.ledger.expired + ms + multiset{m} == b.ledger.expired + (ms + multiset{m});
    assert b.ledger.duplicated + ms + multiset{m} == b.ledger.duplicated + (ms + multiset{m});
  }

  lemma PushBackApart(a: VHost, b: VHost, ms: multiset<Message>, n: Name, m: Message)
    requires Apart(a, b, ms) && n in b.queues
    ensures Apart(PushBack(a, n, m), PushBack(b, n, m), ms)
  {
  }

  lemma DeliverApart(a: VHost, b: VHost, ms: multiset<Message>, c: Consumer, m: Message, sent: bool)
    requires Apart(a, b, ms)
    ensures Apart(Deliver(a, c, m, sent), Deliver(b, c, m, sent), ms)
  {
  }

  lemma RequeueApart(a: VHost, b: VHost, ms: multiset<Message>, r: Record, late: bool)
    requires Apart(a, b, ms)
    ensures Apart(RequeueMessage(a, r, late), RequeueMessage(b, r, false), ms + if late && r.queue in b.queues
                  then multiset{r.msg} else multiset{})
  {
    hide PushBack, Expire, ExpireLate;
    assert ms + multiset{} == ms;
    if r.queue in b.queues {
      if late {
        ExpireApart(a, b, ms, r.queue, r.msg);
        PushBackApart(ExpireLate(a, r.queue, r.msg), b, ms + multiset{r.msg}, r.queue, r.msg);
      } else {
        PushBackApart(a, b, ms, r.queue, r.msg);
      }
    }
  }

  lemma RecoverOneApart(a: VHost, b: VHost, ms: multiset<Message>, key: ChannelKey, r: Record, requeue: bool,
                        expired: set<Message>, unsent: set<Message>, late: set<Message>)
    requires Apart(a, b, ms)
    ensures Apart(RecoverOne(a, key, r, requeue, expired, unsent, late),
                  RecoverOne(b, key, r, requeue, expired, unsent, {}),
                  ms + if ExpiresLate(b, key, r, requeue, expired, unsent, late) then multiset{r.msg} else multiset{})
  {
    hide Expire, Deliver, RequeueMessage;
    SameFate(b, a, key, r, requeue, expired, unsent);
    assert ms + multiset{} == ms;
    match FateOf(b, key, r, requeue, expired, unsent)
    case Expires => ExpireApart(a, b, ms, r.queue, r.msg);
    case Requeued => RequeueApart(a, b, ms, r, r.msg in late);
    case Bounced(c) =>
      DeliverApart(a, b, ms, c, r.msg, false);
      DeliverKeeps(b, c, r.msg, false);
      RequeueApart(Deliver(a, c, r.msg, false), Deliver(b, c, r.msg, false), ms, r, r.msg in late);
    case Redelivered(c) => DeliverApart(a, b, ms, c, r.msg, true);
  }

  lemma {:induction false} SameLate(s: VHost, s': VHost, key: ChannelKey, records: seq<Record>, requeue: bool,
                                    expired: set<Message>, unsent: set<Message>, late: set<Message>)
    requires s'.reg == s.reg && s'.queues.Keys == s.queues.Keys
    ensures Late(s', key, records, requeue, expired, unsent, late)
            == Late(s, key, records, requeue, expired, unsent, late)
    decreases |records|
  {
    hide FateOf;
    if records != [] {
      SameFate(s, s', key, records[0], requeue, expired, unsent);
      SameLate(s, s', key, records[1..], requeue, expired, unsent, late);
    }
  }

  lemma PushKeeps(s: VHost, n: Name, m: Message)
    requires n in s.queues
    ensures var s' := Push(s, n, m); s'.reg == s.reg && s'.queues.Keys == s.queues.Keys && s'.channels == s.channels
  {
    assert Evict(s, n).queues.Keys == s.queues.Keys;
  }

  lemma RequeueKeeps(s: VHost, r: Record, late: bool)
    ensures var s' := RequeueMessage(s, r, late);
            s'.reg == s.reg && s'.queues.Keys == s.queues.Keys && s'.channels == s.channels
  {
    hide Push;
    if r.queue in s.queues {
      var s1 := if late then ExpireLate(s, r.queue, r.msg) else s;
      PushKeeps(s1.(redelivered := s1.redelivered + {r.msg.id}), r.queue, r.msg);
    }
  }

  lemma DeliverKeeps(s: VHost, c: Consumer, m: Message, sent: bool)
    ensures var s' := Deliver(s, c, m, sent); s'.reg == s.reg && s'.queues == s.queues
  {
  }

  /** Recovering a record leaves the consumers and the names of the queues. */
  lemma RecoverOneKeeps(s: VHost, key: ChannelKey, r: Record, requeue: bool, expired: set<Message>,
                        unsent: set<Message>, late: set<Message>)
    ensures var s' := RecoverOne(s, key, r, requeue, expired, unsent, late);
            s'.reg == s.reg && s'.queues.Keys == s.queues.Keys
  {
    hide RequeueMessage, Deliver;
    match FateOf(s, key, r, requeue, expired, unsent)
    case Expires =>
    case Requeued => RequeueKeeps(s, r, r.msg in late);
    case Bounced(c) => DeliverKeeps(s, c, r.msg, false); RequeueKeeps(Deliver(s, c, r.msg, false), r, r.msg in late);
    case Redelivered(c) => DeliverKeeps(s, c, r.msg, true);
  }

  lemma {:induction false} RecoverEachApart(a: VHost, b: VHost, ms: multiset<Message>, key: ChannelKey,
                                            records: seq<Record>, requeue: bool,
                                            expired: set<Message>, unsent: set<Message>, late: set<Message>)
    requires Apart(a, b, ms)
    ensures Apart(RecoverEach(a, key, records, requeue, expired, unsent, late),
                  RecoverEach(b, key, records, requeue, expired, unsent, {}),
                  ms + Late(b, key, records, requeue, expired, unsent, late))
    decreases |records|
  {
    hide Apart, RecoverOne, ExpiresLate;
    if records == [] {
      assert ms + multiset{} == ms;
    } else {
      var r := records[0];
      var one := if ExpiresLate(b, key, r, requeue, expired, unsent, late) then multiset{r.msg} else multiset{};
      var a', b' := RecoverOne(a, key, r, requeue, expired, unsent, late),
        RecoverOne(b, key, r, requeue, expired, unsent, {});
      RecoverOneApart(a, b, ms, key, r, requeue, expired, unsent, late);
      RecoverOneKeeps(b, key, r, requeue, expired, unsent, {});
      RecoverEachApart(a', b', ms + one, key, records[1..], requeue, expired, unsent, late);
      SameLate(b, b', key, records[1..], requeue, expired, unsent, late);
      assert ms + one + Late(b, key, records[1..], requeue, expired, unsent, late)
        == ms + (one + Late(b, key, records[1..], requeue, expired, unsent, late));
    }
  }

  lemma PushBooks(s: VHost, n: Name, m: Message)
    requires n in s.queues
    ensures var l := PushBack(s, n, m).ledger; l.published == s.ledger.published && l.duplicated == s.ledger.duplicated
  {
  }

  lemma DeliverBooks(s: VHost, c: Consumer, m: Message, sent: bool)
    ensures var l := Deliver(s, c, m, sent).ledger;
            l.published == s.ledger.published && l.duplicated == s.ledger.duplicated
  {
  }

  lemma RequeueBooks(s: VHost, r: Record, late: bool)
    ensures var l := RequeueMessage(s, r, late).ledger;
            && l.published == s.ledger.published
            && l.duplicated
              == s.ledger.duplicated + (if late && r.queue in s.queues then multiset{r.msg} else multiset{})
  {
    hide PushBack;
    if r.queue in s.queues { PushBooks(if late then ExpireLate(s, r.queue, r.msg) else s, r.queue, r.msg); }
  }

  lemma RecoverOneBooks(s: VHost, key: ChannelKey, r: Record, requeue: bool, expired: set<Message>,
                        unsent: set<Message>, late: set<Message>)
    ensures var l := RecoverOne(s, key, r, requeue, expired, unsent, late).ledger;
            && l.published == s.ledger.published
            && l.duplicated
              == s.ledger.duplicated
                + (if ExpiresLate(s, key, r, requeue, expired, unsent, late) then multiset{r.msg} else multiset{})
  {
    hide RequeueMessage, Deliver, FateOf;
    match FateOf(s, key, r, requeue, expired, unsent)
    case Expires =>
    case Requeued => RequeueBooks(s, r, r.msg in late);
    case Bounced(c) =>
      DeliverBooks(s, c, r.msg, false);
      DeliverKeeps(s, c, r.msg, false);
      RequeueBooks(Deliver(s, c, r.msg, false), r, r.msg in late);
    case Redelivered(c) => DeliverBooks(s, c, r.msg, true);
  }

  /** What recover duplicates. */
  lemma {:induction false} RecoverBooks(s: VHost, key: ChannelKey, records: seq<Record>, requeue: bool,
                                        expired: set<Message>, unsent: set<Message>, late: set<Message>)
    ensures var l := RecoverEach(s, key, records, requeue, expired, unsent, late).ledger;
            && l.published == s.ledger.published
            && l.duplicated == s.ledger.duplicated + Late(s, key, records, requeue, expired, unsent, late)
    decreases |records|
  {
    hide RecoverOne, ExpiresLate;
    if records != [] {
      var r := records[0];
      var s' := RecoverOne(s, key, r, requeue, expired, unsent, late);
      RecoverOneBooks(s, key, r, requeue, expired, unsent, late);
      RecoverOneKeeps(s, key, r, requeue, expired, unsent, late);
      RecoverBooks(s', key, records[1..], requeue, expired, unsent, late);
      SameLate(s, s', key, records[1..], requeue, expired, unsent, late);
    }
  }

  /** Nothing is late, exactly if recover is punctual. */
  lemma {:induction false} LateNone(s: VHost, key: ChannelKey, records: seq<Record>, requeue: bool,
                                    expired: set<Message>, unsent: set<Message>, late: set<Message>)
    requires forall r | r in records :: r.queue in s.queues
    ensures Late(s, key, records, requeue, expired, unsent, late) == multiset{} <==>
              Punctual(s, key, records, requeue, expired, unsent, late)
    decreases |records|
  {
    hide FateOf;
    if records != [] {
      var r, rest := records[0], records[1..];
      assert r in records && forall x | x in rest :: x in records;
      assert forall x | x in records :: x == r || x in rest by { assert records == [r] + rest; }
      LateNone(s, key, rest, requeue, expired, unsent, late);
      if ExpiresLate(s, key, r, requeue, expired, unsent, late) {
        assert r.msg in Late(s, key, records, requeue, expired, unsent, late);
      } else {
        assert multiset{} + Late(s, key, rest, requeue, expired, unsent, late)
          == Late(s, key, rest, requeue, expired, unsent, late);
      }
    }
  }

  /** A late message is both dead-lettered and in its queue again. So recover keeps the number of each
      message exactly if none that it requeues expires between the two questions; otherwise there are those
      too many. */
  lemma RecoverAccount(s: VHost, key: ChannelKey, requeue: bool, popped: seq<Record>, dead: seq<Record>,
                       expired: set<Message>, unsent: set<Message>, late: set<Message>)
    requires Sound(s, multiset{}) && key in s.channels
    requires Lists(popped, s.channels[key], Requeueable(s.channels[key]))
             && Lists(dead, s.channels[key], DeadTags(s.channels[key]))
    ensures var s' := Recover(s, key, requeue, popped, dead, expired, unsent, late);
            && Total(s') == Total(s) + Late(s, key, popped, requeue, expired, unsent, late)
            && s'.ledger.duplicated == s.ledger.duplicated + Late(s, key, popped, requeue, expired, unsent, late)
            && (Total(s') == Total(s) <==> Punctual(s, key, popped, requeue, expired, unsent, late))
  {
    hide Structure, BooksOk, Lists, RecoverEach, Punctual, Late, Total;
    var s1, s' := Emptied(s, key, dead), Recover(s, key, requeue, popped, dead, expired, unsent, late);
    var ms := Late(s, key, popped, requeue, expired, unsent, late);
    RecoverBooks(s1, key, popped, requeue, expired, unsent, late);
    SameLate(s, s1, key, popped, requeue, expired, unsent, late);
    RecoverSound(s, key, requeue, popped, dead, expired, unsent, late);
    BooksTotal(s);
    BooksTotal(s');
    RecoverableRecords(s, key, popped);
    LateNone(s, key, popped, requeue, expired, unsent, late);
    assert s.ledger.published + (s.ledger.duplicated + ms) == s.ledger.published + s.ledger.duplicated + ms;
    Surplus(Total(s), ms);
  }

  lemma Surplus(total: multiset<Message>, ms: multiset<Message>)
    ensures total + ms == total <==> ms == multiset{}
  {
    if ms != multiset{} {
      var m :| m in ms;
      assert (total + ms)[m] == total[m] + ms[m];
    }
  }

  lemma BooksTotal(s: VHost)
    requires Sound(s, multiset{})
    ensures Total(s) == Account(s.ledger)
  {
  }
}
