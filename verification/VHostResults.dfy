/**
 What holds in every state a virtual host can reach, said without the invariant that proves it.
 */
module VHostResults {
  import opened Collections
  import opened ChannelDelivery
  import opened VHostState
  import opened RegistryProofs
  import opened StructureProofs
  import opened ConservationProofs
  import opened HandlerProofs
  import opened VHostRuns

  // ---------------------------------------------------------------- one place for every message

  datatype Column = Acked | AutoAcked | Expired | Rejected | Gone | Overflow | Evicted | Purged

  function ColumnOf(l: Ledger, c: Column): multiset<Message> {
    match c
    case Acked => l.acked
    case AutoAcked => l.autoAcked
    case Expired => l.expired
    case Rejected => l.rejected
    case Gone => l.gone
    case Overflow => l.overflow
    case Evicted => l.evicted
    case Purged => l.purged
  }

  /** A place for one message: a position in a queue (what the delivery loop holds comes last),
      an unacked delivery of a channel, or one way of being settled. */
  datatype Place = Queued(queue: Name, i: nat) | Unacked(key: ChannelKey, tag: nat) | Done(column: Column)

  ghost predicate At(s: VHost, p: Place, m: Message) {
    match p
    case Queued(n, i) => n in s.queues && i < |Held(s.queues[n])| && Held(s.queues[n])[i] == m
    case Unacked(k, t) => k in s.channels && t in s.channels[k].records && s.channels[k].records[t].msg == m
    case Done(c) => m in ColumnOf(s.ledger, c)
  }

  lemma QueuedCounts(queues: map<Name, Queue>, n: Name, i: nat, n': Name, j: nat, m: Message)
    requires n in queues && i < |Held(queues[n])| && Held(queues[n])[i] == m
    requires n' in queues && j < |Held(queues[n'])| && Held(queues[n'])[j] == m
    ensures Sum(queues, QueueMessages)[m] >= 1
    ensures (n != n' || i != j) ==> Sum(queues, QueueMessages)[m] >= 2
  {
    hide Held;
    SumParts(queues, QueueMessages, n, n');
    assert m in QueueMessages(queues[n]) && m in QueueMessages(queues[n']);
    if n == n' && i != j {
      CountedTwice(Held(queues[n]), if i < j then i else j, if i < j then j else i);
    }
  }

  lemma RecordCounts(records: map<nat, Record>, t: nat, u: nat, m: Message)
    requires t in records && records[t].msg == m && u in records && records[u].msg == m
    ensures Sum(records, RecordMessage)[m] >= 1
    ensures t != u ==> Sum(records, RecordMessage)[m] >= 2
  {
    SumParts(records, RecordMessage, t, u);
  }

  lemma UnackedCounts(channels: map<ChannelKey, Channel>, k: ChannelKey, t: nat, k': ChannelKey, u: nat, m: Message)
    requires k in channels && t in channels[k].records && channels[k].records[t].msg == m
    requires k' in channels && u in channels[k'].records && channels[k'].records[u].msg == m
    ensures Sum(channels, ChannelMessages)[m] >= 1
    ensures (k != k' || t != u) ==> Sum(channels, ChannelMessages)[m] >= 2
  {
    SumParts(channels, ChannelMessages, k, k');
    RecordCounts(channels[k].records, t, t, m);
    RecordCounts(channels[k'].records, u, u, m);
    if k == k' { RecordCounts(channels[k].records, t, u, m); }
  }

  lemma DoneCounts(l: Ledger, c: Column, d: Column, m: Message)
    requires m in ColumnOf(l, c) && m in ColumnOf(l, d)
    ensures Settled(l)[m] >= 1
    ensures c != d ==> Settled(l)[m] >= 2
  {
  }

  lemma TotalAt(s: VHost, m: Message)
    ensures Total(s)[m] == Sum(s.queues, QueueMessages)[m] + Sum(s.channels, ChannelMessages)[m] + Settled(s.ledger)[m]
  {
    hide Settled;
  }

  lemma PlaceCounts(s: VHost, p: Place, q: Place, m: Message)
    requires At(s, p, m) && At(s, q, m)
    ensures Total(s)[m] >= 1
    ensures p != q ==> Total(s)[m] >= 2
  {
    hide Total, Settled, QueueMessages, ChannelMessages, Held, ColumnOf;
    TotalAt(s, m);
    PlacePart(s, p, m);
    PlacePart(s, q, m);
    match (p, q)
    case (Queued(n, i), Queued(n', j)) => QueuedCounts(s.queues, n, i, n', j, m);
    case (Unacked(k, t), Unacked(k', u)) => UnackedCounts(s.channels, k, t, k', u, m);
    case (Done(c), Done(d)) => DoneCounts(s.ledger, c, d, m);
    case _ =>
  }

  lemma PlacePart(s: VHost, p: Place, m: Message)
    requires At(s, p, m)
    ensures p.Queued? ==> Sum(s.queues, QueueMessages)[m] >= 1
    ensures p.Unacked? ==> Sum(s.channels, ChannelMessages)[m] >= 1
    ensures p.Done? ==> Settled(s.ledger)[m] >= 1
  {
    hide Settled, QueueMessages, ChannelMessages, Held, ColumnOf;
    match p
    case Queued(n, i) => QueuedCounts(s.queues, n, i, n, i, m);
    case Unacked(k, t) => UnackedCounts(s.channels, k, t, k, t, m);
    case Done(c) => DoneCounts(s.ledger, c, c, m);
  }

  lemma PlaceOf(s: VHost, m: Message) returns (p: Place)
    requires m in Total(s) && s.ledger.lost == multiset{}
    ensures At(s, p, m)
  {
    TotalAt(s, m);
    hide Total;
    if m in Sum(s.queues, QueueMessages) {
      var n := SumFrom(s.queues, QueueMessages, m);
      var i :| 0 <= i < |Held(s.queues[n])| && Held(s.queues[n])[i] == m;
      p := Queued(n, i);
    } else if m in Sum(s.channels, ChannelMessages) {
      var k := SumFrom(s.channels, ChannelMessages, m);
      var t := SumFrom(s.channels[k].records, RecordMessage, m);
      p := Unacked(k, t);
    } else {
      p := Done(if m in s.ledger.acked then Acked else if m in s.ledger.autoAcked then AutoAcked
                else if m in s.ledger.expired then Expired else if m in s.ledger.rejected then Rejected
                else if m in s.ledger.gone then Gone else if m in s.ledger.overflow then Overflow
                else if m in s.ledger.evicted then Evicted else Purged);
    }
  }

  /** Conservation. After any run, what was published to a queue is somewhere, and what is anywhere was
      published; and, all places counted, each copy of a message is there once, and once more for each time
      that a recover duplicated it. So a copy that none did is in exactly one place, and settled once if it
      is settled. */
  lemma Conservation(ops: seq<Op>, s: VHost, m: Message)
    requires Run(INIT, ops, s)
    ensures m in s.ledger.published <==> exists p :: At(s, p, m)
    ensures Total(s)[m] == if m in s.ledger.published then 1 + s.ledger.duplicated[m] else 0
    ensures m !in s.ledger.duplicated ==> forall p, q :: At(s, p, m) && At(s, q, m) ==> p == q
    ensures m !in s.ledger.duplicated ==> forall c :: ColumnOf(s.ledger, c)[m] <= 1
    ensures s.ledger.lost == multiset{}
  {
    hide Run, Structure, Total, At, ColumnOf;
    Reached(ops, s);
    OnceEach(s, m);
    if m in s.ledger.published {
      var p := PlaceOf(s, m);
      assert At(s, p, m);
    }
    forall p, q | At(s, p, m) && At(s, q, m) ensures m in s.ledger.published && (m !in s.ledger.duplicated ==> p == q) {
      PlaceCounts(s, p, q, m);
    }
    forall c ensures ColumnOf(s.ledger, c)[m] <= Total(s)[m] {
      ColumnCounts(s, c, m);
    }
  }

  lemma OnceEach(s: VHost, m: Message)
    requires BooksOk(s, multiset{})
    ensures Total(s)[m] == if m in s.ledger.published then 1 + s.ledger.duplicated[m] else 0
  {
    hide Total;
    assert Total(s)[m] == (Total(s) + multiset{})[m];
  }

  lemma ColumnCounts(s: VHost, c: Column, m: Message)
    ensures ColumnOf(s.ledger, c)[m] <= Total(s)[m]
  {
    hide QueueMessages, ChannelMessages;
  }

  // ---------------------------------------------------------------- generations

  /** Generation safety. After any run, a queue holds, and has handed to the dead-letter path, only
      messages that were published to that very queue, not to an earlier one of its name; and a
      delivery whose queue is gone is marked. */
  lemma GenerationSafety(ops: seq<Op>, s: VHost)
    requires Run(INIT, ops, s)
    ensures forall n, i | n in s.queues && 0 <= i < |Held(s.queues[n])| ::
              Held(s.queues[n])[i].origin == s.queues[n].gen
    ensures forall d | d in s.ledger.deadLetters :: d.0.origin == d.1
    ensures forall k, t | k in s.channels && t in s.channels[k].records && !s.channels[k].records[t].queueDeleted ::
              var r := s.channels[k].records[t];
              r.queue in s.queues && s.queues[r.queue].gen == r.msg.origin
  {
    hide Run;
    Reached(ops, s);
    hide BooksOk, RegistryOk, Linked, Bounded, ConsumersOk, ChannelsOk;
    forall n, i | n in s.queues && 0 <= i < |Held(s.queues[n])| ensures Held(s.queues[n])[i].origin == s.queues[n].gen {
      assert QueueOk(s.queues[n]);
    }
    forall k, t | k in s.channels && t in s.channels[k].records && !s.channels[k].records[t].queueDeleted
      ensures var r := s.channels[k].records[t]; r.queue in s.queues && s.queues[r.queue].gen == r.msg.origin
    {
      assert RootedIn(s.queues, s.channels[k]) && RootedTo(s.queues, s.channels[k].records[t]);
    }
    DeadLettersOwn(s);
  }

  lemma DeadLettersOwn(s: VHost)
    requires Sound(s, multiset{})
    ensures forall d | d in s.ledger.deadLetters :: d.0.origin == d.1
  {
  }

  /** The marks of deliveries. After any run, a delivery is marked deleted exactly if the queue it came from is
      gone; and one that is not, and was not fetched with basic.get, is marked cancelled exactly if the
      consumer it was delivered to is. */
  lemma MarksTrue(ops: seq<Op>, s: VHost, k: ChannelKey, t: nat)
    requires Run(INIT, ops, s) && k in s.channels && t in s.channels[k].records
    ensures var r := s.channels[k].records[t];
            && (r.queueDeleted <==> forall n | n in s.queues :: s.queues[n].gen != r.msg.origin)
            && (!r.queueDeleted && !r.fromGet ==> (r.consumerCancelled <==> r.owner !in s.reg.active))
            && (r.fromGet ==> !r.consumerCancelled)
  {
    hide Run;
    Reached(ops, s);
    hide BooksOk, RegistryOk, Bounded, ConsumersOk, QueuesOk, DistinctGens;
    var r := s.channels[k].records[t];
    assert RootedIn(s.queues, s.channels[k]) && RootedTo(s.queues, r) && WellFormed(s.channels[k]);
    assert LinkedIn(s.reg, k, s.channels[k]) && LeftIn(s.reg, s.nextConsumer, s.channels[k]);
    hide Rooted, Linked, Left, ChannelsOk;
    if Counted(r) {
      assert LinkedTo(s.reg, k, r);
      OwnerActive(s, k, r);
    }
  }

  lemma OwnerActive(s: VHost, k: ChannelKey, r: Record)
    requires Sound(s, multiset{}) && LinkedTo(s.reg, k, r)
    ensures r.owner in s.reg.active
  {
    hide BooksOk, Bounded, ConsumersOk, QueuesOk, DistinctGens, Rooted, Linked, Left, ChannelsOk, Indexes;
    var c := s.reg.consumers[ConsumerKey(k.channel, r.consumerTag)];
    assert c in Members(s.reg);
  }

  /** Lengths. After any run, no queue holds more ready messages than its buffer takes, or than its
      x-max-length allows. */
  lemma LengthBound(ops: seq<Op>, s: VHost, n: Name)
    requires Run(INIT, ops, s) && n in s.queues
    ensures var q := s.queues[n];
            |q.ready| <= q.capacity && (q.maxLength > 0 ==> |q.ready| <= q.maxLength)
  {
    hide Run;
    Reached(ops, s);
    hide BooksOk, RegistryOk, Linked, Bounded, ConsumersOk, ChannelsOk, Rooted;
    assert QueueOk(s.queues[n]);
  }

  // ---------------------------------------------------------------- consumers

  /** c is listed once, under key k, and nowhere else. */
  ghost predicate ListedOnce<K>(idx: map<K, seq<Consumer>>, k: K, c: Consumer) {
    && k in idx && c in idx[k] && NoDup(idx[k])
    && forall j | j in idx && c in idx[j] :: j == k
  }

  /** The registry after any run: the three indexes list the same consumers, each once, and these
      are the active ones; an exclusive consumer is alone on its queue; only the owner of an
      exclusive queue consumes from it. */
  lemma RegistryAgrees(ops: seq<Op>, s: VHost, c: Consumer)
    requires Run(INIT, ops, s)
    ensures var registered := c.Key() in s.reg.consumers && s.reg.consumers[c.Key()] == c;
            && (registered <==> c in Get(s.reg.byQueue, c.queue))
            && (registered <==> c in Get(s.reg.byChannel, HomeOf(c)))
            && (registered ==> c.id in s.reg.active)
            && (registered ==> ListedOnce(s.reg.byQueue, c.queue, c) && ListedOnce(s.reg.byChannel, HomeOf(c), c))
            && (registered ==>
                c.queue in s.queues && (s.queues[c.queue].exclusive ==> s.queues[c.queue].owner == Some(c.conn)))
            && (registered && c.exclusive ==> Get(s.reg.byQueue, c.queue) == [c])
  {
    hide Run;
    Reached(ops, s);
    hide BooksOk, Linked, Bounded, ChannelsOk, Rooted, QueuesOk;
    MemberIff(s.reg, c);
    IndexAgrees(s.reg.byQueue, Members(s.reg), QueueOf, c);
    IndexAgrees(s.reg.byChannel, Members(s.reg), HomeOf, c);
    if c in Members(s.reg) && c.exclusive {
      AloneOn(s.reg, c);
    }
  }

  lemma IndexAgrees<K>(idx: map<K, seq<Consumer>>, members: set<Consumer>, key: Consumer -> K, c: Consumer)
    requires Indexes(idx, members, key)
    ensures c in members <==> c in Get(idx, key(c))
    ensures c in members ==> ListedOnce(idx, key(c), c)
  {
  }

  lemma AloneOn(reg: Registry, c: Consumer)
    requires RegistryOk(reg) && c in Members(reg) && c.exclusive
    ensures Get(reg.byQueue, c.queue) == [c]
  {
    var xs := Get(reg.byQueue, QueueOf(c));
    assert c in xs;
    forall i | 0 <= i < |xs| ensures xs[i] == c {
      assert xs[i] in reg.byQueue[c.queue];
      assert xs[i] in Members(reg) && QueueOf(xs[i]) == c.queue;
    }
    OnlyOne(xs, c);
  }

  lemma OnlyOne<T>(xs: seq<T>, x: T)
    requires NoDup(xs) && x in xs && forall i | 0 <= i < |xs| :: xs[i] == x
    ensures xs == [x]
  {
    var i :| 0 <= i < |xs| && xs[i] == x;
    assert xs[0] == x && xs[|xs| - 1] == x;
    assert i == 0 && i == |xs| - 1;
  }

  /** Every active consumer is registered. */
  lemma ActiveRegistered(ops: seq<Op>, s: VHost)
    requires Run(INIT, ops, s)
    ensures forall id | id in s.reg.active :: exists k :: k in s.reg.consumers && s.reg.consumers[k].id == id
  {
    hide Run;
    Reached(ops, s);
    hide BooksOk, Linked, Bounded, ChannelsOk, Rooted, QueuesOk, ConsumersOk;
    forall id | id in s.reg.active ensures exists k :: k in s.reg.consumers && s.reg.consumers[k].id == id {
      var c :| c in Members(s.reg) && c.id == id;
      MemberIff(s.reg, c);
    }
  }

  // ---------------------------------------------------------------- deliveries and their consumers

  /** After any run, what counts against a consumer tag was delivered to the very consumer that is
      now registered under it, from the queue it consumes; so a tag that is used again starts with
      nothing counted. */
  lemma CountedAreOwn(ops: seq<Op>, s: VHost, k: ChannelKey, tag: Name)
    requires Run(INIT, ops, s) && k in s.channels
    ensures forall t | t in OfConsumer(s.channels[k], tag) ::
              var key := ConsumerKey(k.channel, tag);
              && key in s.reg.consumers
              && s.reg.consumers[key].conn == k.conn
              && s.channels[k].records[t].owner == s.reg.consumers[key].id
              && s.channels[k].records[t].queue == s.reg.consumers[key].queue
  {
    hide Run;
    Reached(ops, s);
    hide BooksOk, RegistryOk, Bounded, ChannelsOk, Rooted, QueuesOk, ConsumersOk;
    assert LinkedIn(s.reg, k, s.channels[k]);
    forall t | t in OfConsumer(s.channels[k], tag) ensures LinkedTo(s.reg, k, s.channels[k].records[t]) {
      assert Counted(s.channels[k].records[t]);
    }
  }

  /** The prefetch limit after any run. */
  lemma PrefetchBound(ops: seq<Op>, s: VHost, key: ConsumerKey)
    requires Run(INIT, ops, s) && key in s.reg.consumers
    ensures var c := s.reg.consumers[key];
            HomeOf(c) in s.channels && c.prefetch > 0 && !s.channels[HomeOf(c)].qos.prefetchGlobal ==>
              |OfConsumer(s.channels[HomeOf(c)], c.tag)| <= c.prefetch
  {
    hide Run;
    Reached(ops, s);
    hide BooksOk, RegistryOk, Linked, ChannelsOk, Rooted, QueuesOk, ConsumersOk;
    var c := s.reg.consumers[key];
    assert c in Members(s.reg);
    if HomeOf(c) in s.channels { assert WithinPrefetch(c, s.channels[HomeOf(c)]); }
  }
}
