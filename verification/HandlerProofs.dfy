/**
 Every handler keeps the structural invariant and the account of messages. What a handler holds
 in hand while it works is the extra part of the account.
 */
module HandlerProofs {
  import opened Collections
  import opened ChannelDelivery
  import opened VHostState
  import opened RegistryProofs
  import opened StructureProofs
  import opened ConservationProofs

  /** A message is handed to the dead-letter path only through the queue it came from. */
  ghost predicate DeadLettersOk(l: Ledger) {
    forall d | d in l.deadLetters :: d.0.origin == d.1
  }

  /** Copies and generations are never used twice. */
  ghost predicate FreshOk(s: VHost) {
    && (forall m | m in s.ledger.published :: m.copy < s.nextCopy && s.ledger.published[m] == 1 && m.origin < s.nextGen)
    && (forall n | n in s.queues :: s.queues[n].gen < s.nextGen)
  }

  /** How many of each message there are to be. */
  ghost function Account(l: Ledger): multiset<Message> {
    l.published + l.duplicated
  }

  ghost predicate BooksOk(s: VHost, extra: multiset<Message>) {
    && Total(s) + extra == Account(s.ledger)
    && (forall m | m in s.ledger.duplicated :: m in s.ledger.published)
    && s.ledger.lost == multiset{}
    && DeadLettersOk(s.ledger)
    && FreshOk(s)
  }

  ghost predicate Sound(s: VHost, extra: multiset<Message>) {
    Structure(s) && BooksOk(s, extra)
  }

  /** Nothing but queue contents and the ledger changes. */
  ghost predicate SameFrame(s: VHost, s': VHost) {
    && SameQueues(s.queues, s'.queues) && s'.reg == s.reg && s'.nextGen == s.nextGen
    && s'.nextConsumer == s.nextConsumer && s'.nextCopy == s.nextCopy
    && s'.ledger.published == s.ledger.published
  }

  lemma Shift(total: multiset<Message>, total': multiset<Message>, extra: multiset<Message>, ms: multiset<Message>,
              account: multiset<Message>)
    requires total + (extra + ms) == account && total' == total + ms
    ensures total' + extra == account
  {
  }

  /** The books after a step that moved ms from the handler's hand into the state. */
  lemma Moved(s: VHost, s': VHost, extra: multiset<Message>, ms: multiset<Message>)
    requires BooksOk(s, extra + ms) && Total(s') == Total(s) + ms
    requires s'.ledger.published == s.ledger.published && s'.ledger.duplicated == s.ledger.duplicated
             && s'.ledger.lost == s.ledger.lost
    requires DeadLettersOk(s'.ledger) && s'.nextCopy == s.nextCopy && s'.nextGen >= s.nextGen
    requires forall n | n in s'.queues :: s'.queues[n].gen < s'.nextGen
    ensures BooksOk(s', extra)
  {
    hide Total;
    Shift(Total(s), Total(s'), extra, ms, Account(s.ledger));
  }

  // ---------------------------------------------------------------- pushing and expiring

  lemma LettersOrigin(q: Queue, k: nat)
    requires QueueOk(q) && k <= |q.ready|
    ensures forall d | d in LettersOf(q.ready[..k], q.gen) :: d.0.origin == d.1
  {
    assert forall m | m in q.ready[..k] :: m in q.ready;
  }

  lemma BothOrigin(l: Ledger, letters: set<(Message, nat)>, ms: multiset<Message>)
    requires DeadLettersOk(l) && forall d | d in letters :: d.0.origin == d.1
    ensures DeadLettersOk(l.(evicted := l.evicted + ms, deadLetters := l.deadLetters + letters))
  {
  }

  lemma EvictQueues(s: VHost, n: Name)
    requires QueuesOk(s.queues) && n in s.queues
    ensures var s' := Evict(s, n);
            && QueuesOk(s'.queues) && SameQueues(s.queues, s'.queues)
            && (s.queues[n].maxLength > 0 ==> |s'.queues[n].ready| < s.queues[n].maxLength)
  {
    var q := s.queues[n];
    assert QueueOk(q);
    assert QueueOk(q.(ready := q.ready[Excess(q)..]));
  }

  /** Eviction makes room for one more, and hands over only messages of the queue itself. */
  lemma EvictFrame(s: VHost, n: Name)
    requires QueuesOk(s.queues) && n in s.queues && DeadLettersOk(s.ledger)
    ensures var s' := Evict(s, n);
            && QueuesOk(s'.queues) && SameFrame(s, s') && s'.channels == s.channels && s'.redelivered == s.redelivered
            && s'.ledger.duplicated == s.ledger.duplicated && s'.ledger.lost == s.ledger.lost
            && DeadLettersOk(s'.ledger)
            && (s.queues[n].maxLength > 0 ==> |s'.queues[n].ready| < s.queues[n].maxLength)
  {
    var q := s.queues[n];
    var k := Excess(q);
    assert QueueOk(q);
    LettersOrigin(q, k);
    EvictQueues(s, n);
    hide LettersOf, DeadLettersOk, QueueOk, QueuesOk;
    BothOrigin(s.ledger, LettersOf(q.ready[..k], q.gen), multiset(q.ready[..k]));
  }

  lemma AppendFrame(s: VHost, n: Name, m: Message)
    requires QueuesOk(s.queues) && n in s.queues && s.queues[n].gen == m.origin
    requires s.queues[n].maxLength > 0 ==> |s.queues[n].ready| < s.queues[n].maxLength
    ensures var s' := Append(s, n, m);
            && QueuesOk(s'.queues) && SameFrame(s, s') && s'.channels == s.channels
            && s'.ledger.duplicated == s.ledger.duplicated && s'.ledger.lost == s.ledger.lost
            && s'.ledger.deadLetters == s.ledger.deadLetters
  {
    var q := s.queues[n];
    assert QueueOk(q);
    if |q.ready| < q.capacity { assert QueueOk(q.(ready := q.ready + [m])); }
  }

  lemma PushFrame(s: VHost, n: Name, m: Message)
    requires QueuesOk(s.queues) && n in s.queues && s.queues[n].gen == m.origin && DeadLettersOk(s.ledger)
    ensures var s' := Push(s, n, m);
            && QueuesOk(s'.queues) && SameFrame(s, s') && s'.channels == s.channels
            && s'.ledger.duplicated == s.ledger.duplicated && s'.ledger.lost == s.ledger.lost
            && DeadLettersOk(s'.ledger)
  {
    hide Evict, Append, QueueOk, QueuesOk;
    EvictFrame(s, n);
    AppendFrame(Evict(s, n), n, m);
  }

  lemma PushSound(s: VHost, n: Name, m: Message, extra: multiset<Message>)
    requires Sound(s, extra + multiset{m}) && n in s.queues && s.queues[n].gen == m.origin
    ensures Sound(Push(s, n, m), extra) && SameFrame(s, Push(s, n, m)) && Push(s, n, m).channels == s.channels
  {
    var s' := Push(s, n, m);
    PushFrame(s, n, m);
    hide Push, Total;
    assert Structure(s') by { SetQueues(s, s'.queues); }
    PushTotal(s, n, m);
    Moved(s, s', extra, multiset{m});
  }

  /** The marks of redelivery are outside the invariant. */
  lemma MarksSound(s: VHost, marks: set<nat>, extra: multiset<Message>)
    requires Sound(s, extra)
    ensures Sound(s.(redelivered := marks), extra)
  {
  }

  lemma PushBackSound(s: VHost, n: Name, m: Message, extra: multiset<Message>)
    requires Sound(s, extra + multiset{m}) && n in s.queues && s.queues[n].gen == m.origin
    ensures Sound(PushBack(s, n, m), extra) && SameFrame(s, PushBack(s, n, m))
            && PushBack(s, n, m).channels == s.channels
  {
    MarksSound(s, s.redelivered + {m.id}, extra + multiset{m});
    PushSound(s.(redelivered := s.redelivered + {m.id}), n, m, extra);
  }

  /** A ledger entry settles a message that was in hand. */
  lemma SettleSound(s: VHost, l: Ledger, ms: multiset<Message>, extra: multiset<Message>)
    requires Sound(s, extra + ms) && Settled(l) == Settled(s.ledger) + ms
    requires l.published == s.ledger.published && l.duplicated == s.ledger.duplicated && l.lost == s.ledger.lost
             && DeadLettersOk(l)
    ensures Sound(s.(ledger := l), extra)
  {
    hide Total, Settled;
    SettleTotal(s, s.(ledger := l), ms);
    Moved(s, s.(ledger := l), extra, ms);
  }

  lemma ExpireSound(s: VHost, n: Name, m: Message, extra: multiset<Message>)
    requires Sound(s, extra + multiset{m}) && n in s.queues && s.queues[n].gen == m.origin
    ensures Sound(Expire(s, n, m), extra) && SameFrame(s, Expire(s, n, m)) && Expire(s, n, m).channels == s.channels
  {
    hide Structure, Total, Settled;
    Booked(s.ledger, multiset{m});
    SettleSound(s, Expire(s, n, m).ledger, multiset{m}, extra);
  }

  // ---------------------------------------------------------------- nack

  lemma RequeueOneSound(s: VHost, r: Record, expired: set<Message>, extra: multiset<Message>)
    requires Sound(s, extra + multiset{r.msg}) && RootedTo(s.queues, r) && !r.queueDeleted
    ensures Sound(RequeueOne(s, r, expired), extra)
    ensures SameFrame(s, RequeueOne(s, r, expired)) && RequeueOne(s, r, expired).channels == s.channels
  {
    hide Structure, BooksOk;
    if r.msg in expired {
      ExpireSound(s, r.queue, r.msg, extra);
    } else {
      PushBackSound(s, r.queue, r.msg, extra);
    }
  }

  lemma NackOneSound(s: VHost, r: Record, requeue: bool, expired: set<Message>, extra: multiset<Message>)
    requires Sound(s, extra + multiset{r.msg}) && RootedTo(s.queues, r)
    ensures Sound(NackOne(s, r, requeue, expired), extra) && SameFrame(s, NackOne(s, r, requeue, expired))
  {
    hide Structure, Total, Settled;
    Booked(s.ledger, multiset{r.msg});
    if !r.queueDeleted && requeue {
      RequeueOneSound(s, r, expired, extra);
    } else {
      SettleSound(s, NackOne(s, r, requeue, expired).ledger, multiset{r.msg}, extra);
    }
  }

  lemma {:induction false} NackEachSound(s: VHost, records: seq<Record>, requeue: bool, expired: set<Message>,
                                         extra: multiset<Message>)
    requires Sound(s, extra + MessagesOf(records)) && forall r | r in records :: RootedTo(s.queues, r)
    ensures Sound(NackEach(s, records, requeue, expired), extra)
    decreases |records|
  {
    if records == [] {
      assert extra + multiset{} == extra;
    } else {
      var s' := NackOne(s, records[0], requeue, expired);
      var rest := MessagesOf(records[1..]);
      assert extra + MessagesOf(records) == extra + rest + multiset{records[0].msg};
      NackOneSound(s, records[0], requeue, expired, extra + rest);
      forall r | r in records[1..] ensures RootedTo(s'.queues, r) {
        assert r in records;
      }
      NackEachSound(s', records[1..], requeue, expired, extra);
    }
  }

  lemma PopStructure(s: VHost, key: ChannelKey, tags: set<nat>)
    requires Structure(s) && key in s.channels
    ensures Structure(s.(channels := s.channels[key := Without(s.channels[key], tags)]))
  {
    OldFits(s, key);
    SmallerFits(s, key, s.channels[key], Without(s.channels[key], tags));
    SetChannel(s, key, Without(s.channels[key], tags));
  }

  lemma PopTotal(s: VHost, key: ChannelKey, tags: set<nat>, records: seq<Record>)
    requires key in s.channels && Lists(records, s.channels[key], tags)
    ensures Total(s.(channels := s.channels[key := Without(s.channels[key], tags)])) + MessagesOf(records) == Total(s)
  {
    hide Total, ChannelMessages, Lists;
    var ch := s.channels[key];
    var ch' := Without(ch, tags);
    var s' := s.(channels := s.channels[key := ch']);
    SetChannelTotal(s, s', key, ch');
    WithoutMessages(ch, tags, records);
    LeftOver(Total(s), Total(s'), ChannelMessages(ch), ChannelMessages(ch'), MessagesOf(records));
  }

  lemma RootedRecords(s: VHost, key: ChannelKey, tags: set<nat>, records: seq<Record>)
    requires Structure(s) && key in s.channels && Lists(records, s.channels[key], tags)
    ensures forall r | r in records :: RootedTo(s.queues, r) && WellFormedRecord(r)
  {
    assert RootedIn(s.queues, s.channels[key]) && WellFormed(s.channels[key]);
  }

  predicate WellFormedRecord(r: Record) {
    r.consumerCancelled ==> !r.fromGet
  }

  /** Settled deliveries leave their channel for the handler's hand. */
  lemma PopSound(s: VHost, key: ChannelKey, tags: set<nat>, records: seq<Record>)
    requires Sound(s, multiset{}) && key in s.channels && Lists(records, s.channels[key], tags)
    ensures Sound(s.(channels := s.channels[key := Without(s.channels[key], tags)]), MessagesOf(records))
    ensures forall r | r in records :: RootedTo(s.queues, r)
  {
    hide Structure, Total;
    PopStructure(s, key, tags);
    PopTotal(s, key, tags, records);
    RootedRecords(s, key, tags, records);
  }

  lemma LeftOver(total: multiset<Message>, total': multiset<Message>, part: multiset<Message>,
                 part': multiset<Message>, ms: multiset<Message>)
    requires total' + part == total + part' && part == part' + ms
    ensures total' + ms == total
  {
    Gained(total', total, part', part, ms);
  }

  lemma AckSound(s: VHost, key: ChannelKey, tag: nat, multiple: bool, popped: seq<Record>)
    requires Sound(s, multiset{}) && key in s.channels && Settles(s.channels[key], tag, multiple).Some?
    requires Lists(popped, s.channels[key], Settles(s.channels[key], tag, multiple).value)
    ensures Sound(Ack(s, key, tag, multiple, popped), multiset{})
  {
    hide Structure, Total, Settled, Lists;
    var tags := Settles(s.channels[key], tag, multiple).value;
    var s' := s.(channels := s.channels[key := Without(s.channels[key], tags)]);
    PopSound(s, key, tags, popped);
    Booked(s.ledger, MessagesOf(popped));
    assert multiset{} + MessagesOf(popped) == MessagesOf(popped);
    SettleSound(s', Ack(s, key, tag, multiple, popped).ledger, MessagesOf(popped), multiset{});
  }

  lemma NackSound(s: VHost, key: ChannelKey, tag: nat, multiple: bool, requeue: bool, popped: seq<Record>,
                  expired: set<Message>)
    requires Sound(s, multiset{}) && key in s.channels && Settles(s.channels[key], tag, multiple).Some?
    requires Lists(popped, s.channels[key], Settles(s.channels[key], tag, multiple).value)
    ensures Sound(Nack(s, key, tag, multiple, requeue, popped, expired), multiset{})
  {
    hide Structure, BooksOk, Lists;
    var tags := Settles(s.channels[key], tag, multiple).value;
    PopSound(s, key, tags, popped);
    assert multiset{} + MessagesOf(popped) == MessagesOf(popped);
    NackEachSound(s.(channels := s.channels[key := Without(s.channels[key], tags)]), popped, requeue, expired,
                  multiset{});
  }
}
