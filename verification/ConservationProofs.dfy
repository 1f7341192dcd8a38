/**
 The account of messages: everything ever published is in a queue, on a channel, or in the
 ledger, and nothing is in two of them. Each lemma says what one change of the state does to
 the total; the handlers' proofs add these up.
 */
module ConservationProofs {
  import opened Collections
  import opened ChannelDelivery
  import opened VHostState

  ghost function QueueMessages(q: Queue): multiset<Message> {
    multiset(Held(q))
  }

  ghost function RecordMessage(r: Record): multiset<Message> {
    multiset{r.msg}
  }

  ghost function ChannelMessages(ch: Channel): multiset<Message> {
    Sum(ch.records, RecordMessage)
  }

  ghost function Settled(l: Ledger): multiset<Message> {
    l.acked + l.autoAcked + l.expired + l.rejected + l.gone + l.overflow + l.evicted + l.purged + l.lost
  }

  /** Every copy of a message, wherever it is. */
  ghost function Total(s: VHost): multiset<Message> {
    Sum(s.queues, QueueMessages) + Sum(s.channels, ChannelMessages) + Settled(s.ledger)
  }

  // ---------------------------------------------------------------- sums

  /** What is added to one side of an account is what the other side gained. */
  lemma Gained(total: multiset<Message>, total': multiset<Message>, part: multiset<Message>, part': multiset<Message>,
               ms: multiset<Message>)
    requires total' + part == total + part' && part' == part + ms
    ensures total' == total + ms
  {
    forall m ensures total'[m] == (total + ms)[m] {
      assert (total' + part)[m] == (total + part')[m];
    }
  }

  /** The same for an unchanged part. */
  lemma Kept(total: multiset<Message>, total': multiset<Message>, part: multiset<Message>, part': multiset<Message>)
    requires total' + part == total + part' && part' == part
    ensures total' == total
  {
    assert part' == part + multiset{};
    Gained(total, total', part, part', multiset{});
  }

  lemma Framed(before: multiset<Message>, after: multiset<Message>, part: multiset<Message>, part': multiset<Message>,
               rest: multiset<Message>)
    requires after + part == before + part'
    ensures after + rest + part == before + rest + part'
  {
    forall m ensures (after + rest + part)[m] == (before + rest + part')[m] {
      assert (after + part)[m] == (before + part')[m];
    }
  }

  // ---------------------------------------------------------------- channels

  lemma EmptyChannelMessages(ch: Channel)
    requires ch.records == map[]
    ensures ChannelMessages(ch) == multiset{}
  {
  }

  /** Giving a channel a new value moves exactly the difference of what it holds. */
  lemma SetChannelTotal(s: VHost, s': VHost, k: ChannelKey, ch: Channel)
    requires s'.channels == s.channels[k := ch] && s'.queues == s.queues && Settled(s'.ledger) == Settled(s.ledger)
    ensures Total(s') + ChannelMessages(ChannelOf(s, k)) == Total(s) + ChannelMessages(ch)
  {
    hide Settled, ChannelMessages, QueueMessages;
    var before, after := Sum(s.channels, ChannelMessages), Sum(s'.channels, ChannelMessages);
    if k in s.channels {
      SumReplace(s.channels, ChannelMessages, k, ch);
    } else {
      SumInsert(s.channels, ChannelMessages, k, ch);
      EmptyChannelMessages(EMPTY_CHANNEL);
      assert before + multiset{} == before;
    }
    assert after + ChannelMessages(ChannelOf(s, k)) == before + ChannelMessages(ch);
    var queued, settled := Sum(s.queues, QueueMessages), Settled(s.ledger);
    Framed(before, after, ChannelMessages(ChannelOf(s, k)), ChannelMessages(ch), queued + settled);
    Between(queued, before, settled);
    Between(queued, after, settled);
  }

  lemma Between(a: multiset<Message>, b: multiset<Message>, c: multiset<Message>)
    ensures a + b + c == b + (a + c)
  {
  }

  lemma TrackedMessages(ch: Channel, ch': Channel, r: Record)
    requires r.tag !in ch.records && ch'.records == ch.records[r.tag := r]
    ensures ChannelMessages(ch') == ChannelMessages(ch) + multiset{r.msg}
  {
    SumInsert(ch.records, RecordMessage, r.tag, r);
  }

  /** A list of a channel's records, each once, carries exactly their messages. */
  lemma {:induction false} ListedMessages(records: seq<Record>, ch: Channel, tags: set<nat>)
    requires Lists(records, ch, tags)
    ensures MessagesOf(records) == Sum(Only(ch.records, tags), RecordMessage)
    decreases |records|
  {
    if records == [] {
      assert tags == {} by {
        assert forall t | t in tags :: t in TagsOf(records);
      }
      assert Only(ch.records, tags) == map[];
    } else {
      var r := records[0];
      ListsTail(records, ch, tags);
      ListedMessages(records[1..], ch, tags - {r.tag});
      SumPick(Only(ch.records, tags), RecordMessage, r.tag);
      assert Only(ch.records, tags) - {r.tag} == Only(ch.records, tags - {r.tag});
    }
  }

  lemma ListsTail(records: seq<Record>, ch: Channel, tags: set<nat>)
    requires Lists(records, ch, tags) && records != []
    ensures records[0].tag in tags && records[0].tag in ch.records && ch.records[records[0].tag] == records[0]
    ensures Lists(records[1..], ch, tags - {records[0].tag})
  {
    var rest := records[1..];
    assert forall i | 0 <= i < |rest| :: rest[i] == records[i + 1];
    forall t | t in tags - {records[0].tag} ensures t in TagsOf(rest) {
      assert t in TagsOf(records);
      var r :| r in records && r.tag == t;
      assert r in rest;
    }
  }

  /** Taking the listed records out of a channel. */
  lemma WithoutMessages(ch: Channel, tags: set<nat>, records: seq<Record>)
    requires Lists(records, ch, tags)
    ensures ChannelMessages(ch) == ChannelMessages(Without(ch, tags)) + MessagesOf(records)
  {
    SumSplit(ch.records, RecordMessage, tags);
    ListedMessages(records, ch, tags);
  }

  /** Marking records does not change the messages they hold. */
  lemma MarkedMessages(ch: Channel, ch': Channel)
    requires ch.records.Keys == ch'.records.Keys
    requires forall t | t in ch.records :: ch.records[t].msg == ch'.records[t].msg
    ensures ChannelMessages(ch) == ChannelMessages(ch')
  {
    SumSame(ch.records, ch'.records, RecordMessage);
  }

  // ---------------------------------------------------------------- queues

  lemma SetQueueTotal(s: VHost, s': VHost, n: Name, q: Queue)
    requires n in s.queues && s'.queues == s.queues[n := q] && s'.channels == s.channels
             && Settled(s'.ledger) == Settled(s.ledger)
    ensures Total(s') + QueueMessages(s.queues[n]) == Total(s) + QueueMessages(q)
  {
    SumReplace(s.queues, QueueMessages, n, q);
    var before, after := Sum(s.queues, QueueMessages), Sum(s'.queues, QueueMessages);
    assert after + QueueMessages(s.queues[n]) == before + QueueMessages(q);
    var rest := Sum(s.channels, ChannelMessages) + Settled(s.ledger);
    Framed(before, after, QueueMessages(s.queues[n]), QueueMessages(q), rest);
    assert Total(s) == before + rest && Total(s') == after + rest;
  }

  /** Adding to one column of the ledger adds to what is settled. */
  lemma Booked(l: Ledger, ms: multiset<Message>)
    ensures Settled(l.(acked := l.acked + ms)) == Settled(l) + ms
    ensures Settled(l.(autoAcked := l.autoAcked + ms)) == Settled(l) + ms
    ensures Settled(l.(expired := l.expired + ms)) == Settled(l) + ms
    ensures Settled(l.(rejected := l.rejected + ms)) == Settled(l) + ms
    ensures Settled(l.(gone := l.gone + ms)) == Settled(l) + ms
    ensures Settled(l.(overflow := l.overflow + ms)) == Settled(l) + ms
    ensures Settled(l.(purged := l.purged + ms)) == Settled(l) + ms
    ensures Settled(l.(lost := l.lost + ms)) == Settled(l) + ms
    ensures forall dl :: Settled(l.(expired := l.expired + ms, deadLetters := dl)) == Settled(l) + ms
    ensures forall dl :: Settled(l.(rejected := l.rejected + ms, deadLetters := dl)) == Settled(l) + ms
    ensures forall dl :: Settled(l.(evicted := l.evicted + ms, deadLetters := dl)) == Settled(l) + ms
  {
  }

  lemma SettleTotal(s: VHost, s': VHost, ms: multiset<Message>)
    requires s'.queues == s.queues && s'.channels == s.channels && Settled(s'.ledger) == Settled(s.ledger) + ms
    ensures Total(s') == Total(s) + ms
  {
  }

  lemma AppendTotal(s: VHost, n: Name, m: Message)
    requires n in s.queues
    ensures Total(Append(s, n, m)) == Total(s) + multiset{m}
  {
    var q := s.queues[n];
    if |q.ready| < q.capacity {
      var q' := q.(ready := q.ready + [m]);
      SetQueueTotal(s, Append(s, n, m), n, q');
      assert QueueMessages(q') == QueueMessages(q) + multiset{m};
      Gained(Total(s), Total(Append(s, n, m)), QueueMessages(q), QueueMessages(q'), multiset{m});
    } else {
      Booked(s.ledger, multiset{m});
      SettleTotal(s, Append(s, n, m), multiset{m});
    }
  }

  /** The oldest messages of a queue, taken out of it. */
  lemma FrontMessages(q: Queue, k: nat)
    requires k <= |q.ready|
    ensures QueueMessages(q) == QueueMessages(q.(ready := q.ready[k..])) + multiset(q.ready[..k])
  {
    assert q.ready == q.ready[..k] + q.ready[k..];
  }

  /** Evicted messages move from the queue to the ledger. */
  lemma EvictTotal(s: VHost, n: Name)
    requires n in s.queues
    ensures n in Evict(s, n).queues && Total(Evict(s, n)) == Total(s)
  {
    hide Total, Settled, QueueMessages;
    var q, k := s.queues[n], Excess(s.queues[n]);
    if k != 0 {
      var q', out := q.(ready := q.ready[k..]), multiset(q.ready[..k]);
      var s1 := s.(queues := s.queues[n := q']);
      FrontMessages(q, k);
      SetQueueTotal(s, s1, n, q');
      Gained(Total(s1), Total(s), QueueMessages(q'), QueueMessages(q), out);
      Booked(s.ledger, out);
      SettleTotal(s1, Evict(s, n), out);
    }
  }

  lemma PushTotal(s: VHost, n: Name, m: Message)
    requires n in s.queues
    ensures Total(Push(s, n, m)) == Total(s) + multiset{m}
  {
    hide Total, Evict, Append;
    EvictTotal(s, n);
    AppendTotal(Evict(s, n), n, m);
  }

  /** Removing the head of a queue, to the loop's hand or altogether. */
  lemma HeadMessages(q: Queue)
    requires q.ready != []
    ensures QueueMessages(q) == QueueMessages(q.(ready := q.ready[1..])) + multiset{q.ready[0]}
    ensures q.hand == None ==> QueueMessages(q) == QueueMessages(q.(ready := q.ready[1..], hand := Some(q.ready[0])))
  {
    assert q.ready == [q.ready[0]] + q.ready[1..];
  }

  lemma HandMessages(q: Queue)
    requires q.hand.Some?
    ensures QueueMessages(q) == QueueMessages(q.(hand := None)) + multiset{q.hand.value}
  {
    assert q.(hand := None).ready + [] == q.ready;
  }

  // ---------------------------------------------------------------- deliveries

  /** A delivery that is sent puts the message on the channel or settles it at once; one that
      fails leaves the account as it was. */
  lemma DeliverTotal(s: VHost, c: Consumer, m: Message, sent: bool)
    requires WellFormed(ChannelOf(s, HomeOf(c)))
    ensures Total(Deliver(s, c, m, sent)) == Total(s) + if sent then multiset{m} else multiset{}
  {
    hide Total, Settled;
    var k := HomeOf(c);
    var ch := ChannelOf(s, k);
    if sent && !c.noAck {
      TrackTotal(s, c, m);
    } else {
      var s1 := s.(channels := s.channels[k := ch.(last := ch.last + 1)]);
      BumpTotal(s, k);
      if sent {
        Booked(s1.ledger, multiset{m});
        SettleTotal(s1, Deliver(s, c, m, sent), multiset{m});
      }
    }
  }

  lemma BumpTotal(s: VHost, k: ChannelKey)
    ensures Total(s.(channels := s.channels[k := ChannelOf(s, k).(last := ChannelOf(s, k).last + 1)])) == Total(s)
  {
    var ch := ChannelOf(s, k);
    var ch' := ch.(last := ch.last + 1);
    var s' := s.(channels := s.channels[k := ch']);
    SetChannelTotal(s, s', k, ch');
    Kept(Total(s), Total(s'), ChannelMessages(ch), ChannelMessages(ch'));
  }

  lemma TrackTotal(s: VHost, c: Consumer, m: Message)
    requires WellFormed(ChannelOf(s, HomeOf(c))) && !c.noAck
    ensures Total(Deliver(s, c, m, true)) == Total(s) + multiset{m}
  {
    var ch := ChannelOf(s, HomeOf(c));
    var ch' := TrackConsumer(ch, c.tag, c.queue, m, c.id);
    SetChannelTotal(s, Deliver(s, c, m, true), HomeOf(c), ch');
    TrackedMessages(ch, ch', Record(ch.last + 1, c.tag, false, c.queue, m, c.id, false, false));
    Gained(Total(s), Total(Deliver(s, c, m, true)), ChannelMessages(ch), ChannelMessages(ch'), multiset{m});
  }

  // ---------------------------------------------------------------- consumers and queues leave

  lemma DetachTotal(s: VHost, c: Consumer, reg': Registry)
    ensures Total(s.(reg := reg', channels := Detach(s.channels, c))) == Total(s)
  {
    if HomeOf(c) in s.channels {
      var ch := s.channels[HomeOf(c)];
      SetChannelTotal(s, s.(reg := reg', channels := Detach(s.channels, c)), HomeOf(c), DetachConsumer(ch, c.tag));
      MarkedMessages(ch, DetachConsumer(ch, c.tag));
      Kept(Total(s), Total(s.(reg := reg', channels := Detach(s.channels, c))),
           ChannelMessages(ch), ChannelMessages(DetachConsumer(ch, c.tag)));
    }
  }

  lemma DetachQueueMessages(channels: map<ChannelKey, Channel>, channels': map<ChannelKey, Channel>, n: Name)
    requires channels.Keys == channels'.Keys
    requires forall k | k in channels :: channels'[k] == DetachQueue(channels[k], n)
    ensures Sum(channels, ChannelMessages) == Sum(channels', ChannelMessages)
  {
    forall k | k in channels ensures ChannelMessages(channels[k]) == ChannelMessages(channels'[k]) {
      MarkedMessages(channels[k], channels'[k]);
    }
    SumSame(channels, channels', ChannelMessages);
  }

  lemma DeleteQueueTotal(s: VHost, n: Name)
    requires n in s.queues
    ensures Total(DeleteQueue(s, n)) == Total(s)
  {
    hide ChannelMessages;
    SumPick(s.queues, QueueMessages, n);
    DetachQueueMessages(s.channels, DeleteQueue(s, n).channels, n);
  }

  /** A list of records still lists them after others are taken out. */
  lemma ListsLess(records: seq<Record>, ch: Channel, out: set<nat>, tags: set<nat>)
    requires Lists(records, ch, tags) && tags !! out
    ensures Lists(records, Without(ch, out), tags)
  {
  }

  /** The three lists of a taken channel carry all of its messages. */
  lemma TakenMessages(s: VHost, ch: Channel, work: seq<Record>, dead: seq<Record>, stranded: seq<Record>)
    requires Lists(work, ch, LiveTags(s, ch)) && Lists(dead, ch, DeadTags(ch))
    requires Lists(stranded, ch, Requeueable(ch) - LiveTags(s, ch))
    ensures ChannelMessages(ch) == MessagesOf(dead) + MessagesOf(stranded) + MessagesOf(work)
  {
    var d, live := DeadTags(ch), LiveTags(s, ch);
    var rest := Requeueable(ch) - live;
    var ch1 := Without(ch, d);
    var ch2 := Without(ch1, rest);
    WithoutMessages(ch, d, dead);
    ListsLess(stranded, ch, d, rest);
    WithoutMessages(ch1, rest, stranded);
    ListsLess(work, ch, d, live);
    ListsLess(work, ch1, rest, live);
    WithoutMessages(ch2, live, work);
    assert Without(ch2, live).records == map[];
    EmptyChannelMessages(Without(ch2, live));
  }

  /** A channel's state goes with its dead and stranded records; the live ones are in hand. */
  lemma DropChannelTotal(s: VHost, k: ChannelKey, t: Taking)
    requires k in s.channels && Takes(s, k, t)
    ensures Total(s) == Total(DropChannel(s, k, t.dead, t.stranded)) + MessagesOf(AllRecords(t.work))
  {
    TakenMessages(s, s.channels[k], AllRecords(t.work), t.dead, t.stranded);
    SumPick(s.channels, ChannelMessages, k);
  }
}
