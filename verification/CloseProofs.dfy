/**
 Closing a channel or a connection keeps the invariant and the account of messages, removes
 exactly the consumers and channels it should, and leaves nothing of a closed connection behind.
 */
module CloseProofs {
  import opened Collections
  import opened ChannelDelivery
  import opened VHostState
  import opened RegistryProofs
  import opened StructureProofs
  import opened ConservationProofs
  import opened HandlerProofs
  import opened DeliveryProofs
  import opened RecoverProofs

  // ---------------------------------------------------------------- the consumers of a channel

  /** The listed consumers of the channel's connection that are still registered are cancelled. */
  lemma {:induction false} CancelListedSound(s: VHost, key: ChannelKey, cs: seq<Consumer>, extra: multiset<Message>)
    requires Sound(s, extra)
    ensures Sound(CancelListed(s, key, cs), extra)
    ensures Members(CancelListed(s, key, cs).reg) == Members(s.reg) - (set c | c in cs && c.conn == key.conn)
    decreases |cs|
  {
    hide Structure, BooksOk, CancelLocked;
    if cs == [] {
      assert Members(s.reg) - {} == Members(s.reg);
    } else {
      var c := cs[0];
      RegisteredIff(s, c, extra);
      var cancel := c.conn == key.conn && c in Members(s.reg);
      var s' := if cancel then CancelLocked(s, c) else s;
      if cancel { CancelSound(s, c, extra); }
      CancelListedSound(s', key, cs[1..], extra);
      assert forall d :: d in cs <==> d == c || d in cs[1..] by { assert cs == [c] + cs[1..]; }
    }
  }

  lemma RegisteredIff(s: VHost, c: Consumer, extra: multiset<Message>)
    requires Sound(s, extra)
    ensures c in Members(s.reg) <==> c.Key() in s.reg.consumers && s.reg.consumers[c.Key()] == c
  {
    MemberIff(s.reg, c);
  }

  lemma ListedHere(s: VHost, key: ChannelKey)
    requires RegistryOk(s.reg)
    ensures Members(s.reg) - (set c | c in Get(s.reg.byChannel, key) && c.conn == key.conn)
         == set c | c in Members(s.reg) && HomeOf(c) != key
  {
    forall c | c in Members(s.reg) ensures c in Get(s.reg.byChannel, key) && c.conn == key.conn <==> HomeOf(c) == key {
      assert c in Get(s.reg.byChannel, HomeOf(c));
    }
  }

  /** The channel's own entry of the index is dropped; no consumer was left in it. */
  lemma DropHome(s: VHost, key: ChannelKey)
    requires Structure(s) && forall c | c in Members(s.reg) :: HomeOf(c) != key
    ensures Structure(s.(reg := s.reg.(byChannel := s.reg.byChannel - {key})))
  {
    hide Rooted, QueuesOk, ChannelsOk, Exclusive;
    var idx := s.reg.byChannel;
    assert Indexes(idx - {key}, Members(s.reg), HomeOf) by {
      forall c | c in Members(s.reg) ensures c in Get(idx - {key}, HomeOf(c)) {
        assert c in Get(idx, HomeOf(c));
      }
    }
  }

  lemma CancelChannelSound(s: VHost, key: ChannelKey, extra: multiset<Message>)
    requires Sound(s, extra)
    ensures Sound(CancelChannelConsumers(s, key), extra)
    ensures Members(CancelChannelConsumers(s, key).reg) == set c | c in Members(s.reg) && HomeOf(c) != key
  {
    hide Structure, Total, CancelListed;
    var cs := Get(s.reg.byChannel, key);
    var s1 := CancelListed(s, key, cs);
    CancelListedSound(s, key, cs, extra);
    RegistryOf(s, extra);
    ListedHere(s, key);
    DropHome(s1, key);
    SameTotal(s1, CancelChannelConsumers(s, key));
    Unmoved(s1, CancelChannelConsumers(s, key), extra);
  }

  lemma SameTotal(s: VHost, s': VHost)
    requires s'.queues == s.queues && s'.channels == s.channels && s'.ledger == s.ledger
    ensures Total(s') == Total(s)
  {
  }

  lemma RegistryOf(s: VHost, extra: multiset<Message>)
    requires Sound(s, extra)
    ensures RegistryOk(s.reg)
  {
  }

  // ---------------------------------------------------------------- the deliveries of a channel

  /** Every record of the work comes from the queue its item was made for. */
  ghost predicate WorkOk(work: seq<Work>) {
    forall i, j | 0 <= i < |work| && 0 <= j < |work[i].records| :: work[i].records[j].msg.origin == work[i].gen
  }

  /** No live record is without its queue, so closing strands nothing. */
  lemma NothingStranded(s: VHost, key: ChannelKey, t: Taking)
    requires Structure(s) && key in s.channels && Takes(s, key, t)
    ensures t.stranded == []
  {
    var ch := s.channels[key];
    assert RootedIn(s.queues, ch);
    assert forall t | t in Requeueable(ch) :: t in LiveTags(s, ch);
    assert Requeueable(ch) - LiveTags(s, ch) == {};
    ListedMessages(t.stranded, ch, {});
    assert Only(ch.records, {}) == map[];
  }

  lemma {:induction false} ItemOf(work: seq<Work>, i: nat, r: Record)
    requires i < |work| && r in work[i].records
    ensures r in AllRecords(work)
  {
    if i > 0 { ItemOf(work[1..], i - 1, r); }
  }

  lemma TakenWorkOk(s: VHost, key: ChannelKey, t: Taking)
    requires Structure(s) && key in s.channels && Takes(s, key, t)
    ensures WorkOk(t.work)
  {
    var ch := s.channels[key];
    assert RootedIn(s.queues, ch);
    hide Structure;
    forall i, j | 0 <= i < |t.work| && 0 <= j < |t.work[i].records|
      ensures t.work[i].records[j].msg.origin == t.work[i].gen {
      var r := t.work[i].records[j];
      ItemOf(t.work, i, r);
      var k :| 0 <= k < |AllRecords(t.work)| && AllRecords(t.work)[k] == r;
      assert RootedTo(s.queues, ch.records[r.tag]);
    }
  }

  lemma DropChannelStructure(s: VHost, key: ChannelKey)
    requires Structure(s)
    ensures Structure(s.(channels := s.channels - {key}))
  {
    hide RegistryOk, WellFormed, LinkedIn, RootedIn, WithinPrefetch;
  }

  lemma DropChannelSound(s: VHost, key: ChannelKey, t: Taking, extra: multiset<Message>)
    requires Sound(s, extra) && key in s.channels && Takes(s, key, t)
    ensures Sound(DropChannel(s, key, t.dead, t.stranded), extra + MessagesOf(AllRecords(t.work)))
    ensures WorkOk(t.work)
  {
    hide Structure, Total, Takes;
    var s1 := DropChannel(s, key, t.dead, t.stranded);
    NothingStranded(s, key, t);
    TakenWorkOk(s, key, t);
    DropChannelStructure(s, key);
    SameStructure(s.(channels := s.channels - {key}), s1);
    DropChannelTotal(s, key, t);
    Taken(Total(s), Total(s1), MessagesOf(AllRecords(t.work)), extra, Account(s.ledger));
    assert s1.ledger.lost == s.ledger.lost + multiset{};
  }

  lemma Taken(total: multiset<Message>, total': multiset<Message>, ms: multiset<Message>, extra: multiset<Message>,
              account: multiset<Message>)
    requires total == total' + ms && total + extra == account
    ensures total' + (extra + ms) == account
  {
  }

  // ---------------------------------------------------------------- requeueing

  lemma {:induction false} RequeueEachSound(s: VHost, n: Name, records: seq<Record>, extra: multiset<Message>)
    requires Sound(s, extra + MessagesOf(records)) && n in s.queues
    requires forall r | r in records :: r.msg.origin == s.queues[n].gen
    ensures Sound(RequeueEach(s, n, records), extra) && RequeueEach(s, n, records).reg == s.reg
    ensures RequeueEach(s, n, records).channels == s.channels && SameQueues(s.queues, RequeueEach(s, n, records).queues)
    decreases |records|
  {
    hide Structure, BooksOk;
    if records == [] {
      assert extra + multiset{} == extra;
    } else {
      var rest := MessagesOf(records[1..]);
      assert extra + MessagesOf(records) == extra + rest + multiset{records[0].msg};
      PushBackSound(s, n, records[0].msg, extra + rest);
      assert forall r | r in records[1..] :: r in records;
      RequeueEachSound(PushBack(s, n, records[0].msg), n, records[1..], extra);
    }
  }

  lemma {:induction false} MessagesSplit(a: seq<Record>, b: seq<Record>)
    ensures MessagesOf(a + b) == MessagesOf(a) + MessagesOf(b)
    decreases |a|
  {
    if a == [] {
      assert a + b == b;
    } else {
      assert (a + b)[1..] == a[1..] + b;
      MessagesSplit(a[1..], b);
    }
  }

  lemma ItemInHand(work: seq<Work>, extra: multiset<Message>)
    requires work != []
    ensures extra + MessagesOf(AllRecords(work))
            == extra + MessagesOf(AllRecords(work[1..])) + MessagesOf(work[0].records)
  {
    MessagesSplit(work[0].records, AllRecords(work[1..]));
  }

  /** Each item goes back to its queue, unless that queue has been deleted since. */
  lemma {:induction false} RequeueWorkSound(s: VHost, work: seq<Work>, extra: multiset<Message>)
    requires Sound(s, extra + MessagesOf(AllRecords(work))) && WorkOk(work)
    ensures Sound(RequeueWork(s, work), extra)
    ensures RequeueWork(s, work).reg == s.reg && RequeueWork(s, work).channels == s.channels
    ensures SameQueues(s.queues, RequeueWork(s, work).queues)
    decreases |work|
  {
    hide Sound, MessagesOf, AllRecords;
    if work == [] {
      NothingInHand(extra);
    } else {
      var w, rest := work[0], MessagesOf(AllRecords(work[1..]));
      ItemInHand(work, extra);
      if w.queue in s.queues && s.queues[w.queue].gen == w.gen {
        RequeueEachSound(s, w.queue, w.records, extra + rest);
        RequeueWorkSound(RequeueEach(s, w.queue, w.records), work[1..], extra);
      } else {
        GoneSound(s, MessagesOf(w.records), extra + rest);
        RequeueWorkSound(s.(ledger := s.ledger.(gone := s.ledger.gone + MessagesOf(w.records))), work[1..], extra);
      }
    }
  }

  // ---------------------------------------------------------------- closing a channel

  lemma CloseChannelSound(s: VHost, key: ChannelKey, t: Taking)
    requires Sound(s, multiset{})
    requires key in CancelChannelConsumers(s, key).channels ==> Takes(CancelChannelConsumers(s, key), key, t)
    ensures Sound(CloseChannel(s, key, t), multiset{})
    ensures Members(CloseChannel(s, key, t).reg) == set c | c in Members(s.reg) && HomeOf(c) != key
    ensures key !in CloseChannel(s, key, t).channels
  {
    hide Structure, BooksOk, CancelChannelConsumers, Takes;
    var s1 := CancelChannelConsumers(s, key);
    CancelChannelSound(s, key, multiset{});
    if key in s1.channels {
      DropChannelSound(s1, key, t, multiset{});
      RequeueWorkSound(DropChannel(s1, key, t.dead, t.stranded), t.work, multiset{});
    }
  }

  // ---------------------------------------------------------------- closing a connection

  lemma TakeChannelSound(s: VHost, key: ChannelKey, t: Taking, extra: multiset<Message>)
    requires Sound(s, extra)
    requires var s1 := CancelChannelConsumers(s, key); if key in s1.channels then Takes(s1, key, t) else t.work == []
    ensures Sound(TakeChannel(s, key, t), extra + MessagesOf(AllRecords(t.work))) && WorkOk(t.work)
    ensures Members(TakeChannel(s, key, t).reg) == set c | c in Members(s.reg) && HomeOf(c) != key
  {
    hide Structure, BooksOk, CancelChannelConsumers, Takes;
    var s1 := CancelChannelConsumers(s, key);
    CancelChannelSound(s, key, extra);
    if key in s1.channels {
      DropChannelSound(s1, key, t, extra);
    } else {
      assert extra + multiset{} == extra;
    }
  }

  lemma {:induction false} AllRecordsSplit(a: seq<Work>, b: seq<Work>)
    ensures AllRecords(a + b) == AllRecords(a) + AllRecords(b)
    decreases |a|
  {
    if a == [] {
      assert a + b == b;
    } else {
      assert (a + b)[1..] == a[1..] + b;
      AllRecordsSplit(a[1..], b);
    }
  }

  /** No channel of the plan is the consumer's. */
  ghost predicate Untouched(c: Consumer, plan: seq<(ChannelKey, Taking)>)
    decreases |plan|
  {
    plan == [] || (HomeOf(c) != plan[0].0 && Untouched(c, plan[1..]))
  }

  /** The channel loop: what the channels held is in the hands of the connection's cleanup. */
  lemma {:induction false} TakeChannelsSound(s: VHost, plan: seq<(ChannelKey, Taking)>, extra: multiset<Message>)
    requires Sound(s, extra) && PlanOk(s, plan)
    ensures Sound(TakeChannels(s, plan), extra + MessagesOf(AllRecords(Collected(plan)))) && WorkOk(Collected(plan))
    ensures Members(TakeChannels(s, plan).reg) == set c | c in Members(s.reg) && Untouched(c, plan)
    decreases |plan|
  {
    hide Sound, TakeChannel, Takes, CancelChannelConsumers, MessagesOf, AllRecords, WorkOk;
    if plan == [] {
      NothingInHand(extra);
    } else {
      var key, t := plan[0].0, plan[0].1;
      TakeChannelSound(s, key, t, extra);
      TakeChannelsSound(TakeChannel(s, key, t), plan[1..], extra + MessagesOf(AllRecords(t.work)));
      WorkInHand(t.work, Collected(plan[1..]), extra);
    }
  }

  lemma NothingInHand(extra: multiset<Message>)
    ensures extra + MessagesOf(AllRecords([])) == extra && WorkOk([])
  {
  }

  lemma WorkInHand(a: seq<Work>, b: seq<Work>, extra: multiset<Message>)
    requires WorkOk(a) && WorkOk(b)
    ensures WorkOk(a + b)
    ensures extra + MessagesOf(AllRecords(a + b)) == extra + MessagesOf(AllRecords(a)) + MessagesOf(AllRecords(b))
  {
    AllRecordsSplit(a, b);
    MessagesSplit(AllRecords(a), AllRecords(b));
    SumInHand(extra, MessagesOf(AllRecords(a)), MessagesOf(AllRecords(b)));
  }

  lemma SumInHand(extra: multiset<Message>, a: multiset<Message>, b: multiset<Message>)
    ensures extra + a + b == extra + (a + b)
  {
  }

  lemma {:induction false} CancelEachSound(s: VHost, cs: seq<Consumer>, extra: multiset<Message>)
    requires Sound(s, extra) && NoDup(cs) && forall c | c in cs :: c in Members(s.reg)
    ensures Sound(CancelEach(s, cs), extra)
    ensures Members(CancelEach(s, cs).reg) == Members(s.reg) - Listed(cs)
    decreases |cs|
  {
    hide Structure, BooksOk, CancelLocked;
    if cs == [] {
      assert Members(s.reg) - {} == Members(s.reg);
    } else {
      CancelSound(s, cs[0], extra);
      ListedTail(cs, Members(s.reg));
      CancelEachSound(CancelLocked(s, cs[0]), cs[1..], extra);
    }
  }

  /** Giving up the ownership of shared queues changes no queue that consumers depend on. */
  lemma DisownSound(s: VHost, conn: Name, extra: multiset<Message>)
    requires Sound(s, extra)
    ensures Sound(Disown(s, conn), extra)
  {
    hide Structure, Total;
    DisownStructure(s, conn);
    DisownTotal(s, conn);
    Unmoved(s, Disown(s, conn), extra);
  }

  lemma DisownStructure(s: VHost, conn: Name)
    requires Structure(s)
    ensures Structure(Disown(s, conn))
  {
    hide RegistryOk, Linked, Bounded, ChannelsOk, RootedIn, Left;
    var s' := Disown(s, conn);
    forall k | k in s.channels ensures RootedIn(s'.queues, s.channels[k]) {
      assert RootedIn(s.queues, s.channels[k]);
      SameRoots(s.queues, s'.queues, s.channels[k]);
    }
    forall n | n in s'.queues ensures QueueOk(s'.queues[n]) {
      assert QueueOk(s.queues[n]);
    }
  }

  lemma SameRoots(queues: map<Name, Queue>, queues': map<Name, Queue>, ch: Channel)
    requires RootedIn(queues, ch) && queues'.Keys == queues.Keys
    requires forall n | n in queues :: queues'[n].gen == queues[n].gen
    ensures RootedIn(queues', ch)
  {
    forall t | t in ch.records ensures RootedTo(queues', ch.records[t]) {
      assert RootedTo(queues, ch.records[t]);
    }
  }

  lemma DisownTotal(s: VHost, conn: Name)
    ensures Total(Disown(s, conn)) == Total(s)
  {
    SumSame(s.queues, Disown(s, conn).queues, QueueMessages);
  }

  lemma {:induction false} DeleteEachSound(s: VHost, names: seq<Name>, extra: multiset<Message>)
    requires Sound(s, extra)
    ensures Sound(DeleteEach(s, names), extra)
    ensures DeleteEach(s, names).queues == s.queues - (set n | n in names)
    ensures DeleteEach(s, names).channels.Keys == s.channels.Keys
    ensures Members(DeleteEach(s, names).reg) == set c | c in Members(s.reg) && c.queue !in names
    decreases |names|
  {
    hide Structure, BooksOk;
    if names != [] {
      var n := names[0];
      assert names == [n] + names[1..];
      assert forall x :: x in names <==> x == n || x in names[1..];
      QueueKnown(s, extra);
      if n in s.queues {
        DeleteQueueSound(s, n, extra);
        DeleteEachSound(DeleteQueue(s, n), names[1..], extra);
      } else {
        DeleteEachSound(s, names[1..], extra);
      }
    }
  }

  lemma QueueKnown(s: VHost, extra: multiset<Message>)
    requires Sound(s, extra)
    ensures forall c | c in Members(s.reg) :: c.queue in s.queues && OwnedBy(s.queues[c.queue], c.conn)
  {
  }

  lemma CloseConnectionSound(s: VHost, conn: Name, plan: seq<(ChannelKey, Taking)>, rest: seq<Consumer>,
                             doomed: seq<Name>)
    requires Sound(s, multiset{}) && ConnectionOrder(s, conn, plan, rest, doomed)
    ensures Sound(CloseConnection(s, conn, plan, rest, doomed), multiset{})
  {
    hide Structure, BooksOk, PlanOk, TakeChannels, CancelEach, Disown, DeleteEach, RequeueWork;
    var s1 := TakeChannels(s, plan);
    var extra := multiset{} + MessagesOf(AllRecords(Collected(plan)));
    TakeChannelsSound(s, plan, multiset{});
    RestListed(s1, conn, rest);
    CancelEachSound(s1, rest, extra);
    DisownSound(CancelEach(s1, rest), conn, extra);
    DeleteEachSound(Disown(CancelEach(s1, rest), conn), doomed, extra);
    RequeueWorkSound(DeleteEach(Disown(CancelEach(s1, rest), conn), doomed), Collected(plan), multiset{});
  }

  lemma RestListed(s: VHost, conn: Name, rest: seq<Consumer>)
    requires forall c :: c in rest <==> c in s.reg.consumers.Values && c.conn == conn
    ensures Listed(rest) == set c | c in Members(s.reg) && c.conn == conn
    ensures forall c | c in rest :: c in Members(s.reg)
  {
  }

  // ---------------------------------------------------------------- what a closed connection leaves

  /** Which channels have state, and which have an entry in the consumer index. */
  ghost predicate SameHomes(s: VHost, s': VHost) {
    s'.channels.Keys == s.channels.Keys && s'.reg.byChannel.Keys == s.reg.byChannel.Keys
  }

  lemma {:induction false} DropConsumersHomes(reg: Registry, cs: seq<Consumer>)
    ensures DropConsumers(reg, cs).byChannel.Keys == reg.byChannel.Keys
    decreases |cs|
  {
    if cs != [] {
      assert DropConsumer(reg, cs[0]).byChannel.Keys == reg.byChannel.Keys;
      var reg' := DropConsumer(reg, cs[0]);
      DropConsumersHomes(reg', cs[1..]);
      assert DropConsumers(reg', cs[1..]).byChannel.Keys == reg.byChannel.Keys;
    }
  }

  lemma CancelHomes(s: VHost, c: Consumer)
    ensures SameHomes(s, CancelLocked(s, c))
  {
    CancelInTwoSteps(s, c);
    var reg' := Unregister(s.reg, c);
    DropConsumersHomes(reg', Get(reg'.byQueue, c.queue));
  }

  lemma {:induction false} CancelListedHomes(s: VHost, key: ChannelKey, cs: seq<Consumer>)
    ensures SameHomes(s, CancelListed(s, key, cs))
    decreases |cs|
  {
    hide CancelLocked;
    if cs != [] {
      CancelHomes(s, cs[0]);
      var c := cs[0];
      var cancel := c.conn == key.conn && c.Key() in s.reg.consumers && s.reg.consumers[c.Key()] == c;
      CancelListedHomes(if cancel then CancelLocked(s, c) else s, key, cs[1..]);
    }
  }

  /** A channel that is taken is gone from both maps; the others stay. */
  lemma TakeChannelHomes(s: VHost, key: ChannelKey, t: Taking)
    ensures TakeChannel(s, key, t).channels.Keys == s.channels.Keys - {key}
    ensures TakeChannel(s, key, t).reg.byChannel.Keys == s.reg.byChannel.Keys - {key}
  {
    hide CancelListed;
    CancelListedHomes(s, key, Get(s.reg.byChannel, key));
  }

  lemma {:induction false} TakeChannelsHomes(s: VHost, plan: seq<(ChannelKey, Taking)>)
    ensures TakeChannels(s, plan).channels.Keys == s.channels.Keys - (set i | 0 <= i < |plan| :: plan[i].0)
    ensures TakeChannels(s, plan).reg.byChannel.Keys == s.reg.byChannel.Keys - (set i | 0 <= i < |plan| :: plan[i].0)
    decreases |plan|
  {
    hide TakeChannel;
    if plan != [] {
      var s1 := TakeChannel(s, plan[0].0, plan[0].1);
      TakeChannelHomes(s, plan[0].0, plan[0].1);
      TakeChannelsHomes(s1, plan[1..]);
      PlanKeys(plan);
    }
  }

  lemma PlanKeys(plan: seq<(ChannelKey, Taking)>)
    requires plan != []
    ensures (set i | 0 <= i < |plan| :: plan[i].0) == {plan[0].0} + set i | 0 <= i < |plan[1..]| :: plan[1..][i].0
  {
    var all, tail := set i | 0 <= i < |plan| :: plan[i].0, set i | 0 <= i < |plan[1..]| :: plan[1..][i].0;
    assert forall i | 0 < i < |plan| :: plan[i] == plan[1..][i - 1] && plan[1..][i - 1].0 in tail;
    assert forall i | 0 <= i < |plan[1..]| :: plan[1..][i] == plan[i + 1] && plan[i + 1].0 in all;
    assert plan[0].0 in all;
  }

  lemma {:induction false} CancelEachHomes(s: VHost, cs: seq<Consumer>)
    ensures SameHomes(s, CancelEach(s, cs))
    decreases |cs|
  {
    hide CancelLocked;
    if cs != [] {
      CancelHomes(s, cs[0]);
      CancelEachHomes(CancelLocked(s, cs[0]), cs[1..]);
    }
  }

  lemma {:induction false} DeleteEachHomes(s: VHost, names: seq<Name>)
    ensures SameHomes(s, DeleteEach(s, names))
    decreases |names|
  {
    if names != [] {
      if names[0] in s.queues {
        DropConsumersHomes(s.reg, Get(s.reg.byQueue, names[0]));
        assert SameHomes(s, DeleteQueue(s, names[0]));
        hide DeleteQueue;
        DeleteEachHomes(DeleteQueue(s, names[0]), names[1..]);
      } else {
        DeleteEachHomes(s, names[1..]);
      }
    }
  }

  lemma {:induction false} OtherConnections(c: Consumer, conn: Name, plan: seq<(ChannelKey, Taking)>)
    requires c.conn != conn && forall i | 0 <= i < |plan| :: plan[i].0.conn == conn
    ensures Untouched(c, plan)
    decreases |plan|
  {
    if plan != [] {
      assert plan[0].0.conn == conn;
      forall i | 0 <= i < |plan[1..]| ensures plan[1..][i].0.conn == conn { assert plan[1..][i] == plan[i + 1]; }
      OtherConnections(c, conn, plan[1..]);
    }
  }

  /** The members left by the two cancelling loops are those of other connections. */
  lemma LeftMembers(members: set<Consumer>, conn: Name, plan: seq<(ChannelKey, Taking)>)
    requires forall i | 0 <= i < |plan| :: plan[i].0.conn == conn
    ensures var left := set c | c in members && Untouched(c, plan);
            left - (set c | c in left && c.conn == conn) == set c | c in members && c.conn != conn
  {
    forall c: Consumer | c.conn != conn ensures Untouched(c, plan) {
      OtherConnections(c, conn, plan);
    }
  }

  /** An exclusive queue of the connection has no consumer of another one. */
  lemma NoOtherOwner(s: VHost, conn: Name, doomed: seq<Name>, extra: multiset<Message>)
    requires Sound(s, extra) && forall n | n in doomed :: n in Owned(s, conn)
    requires forall c | c in Members(s.reg) :: c.conn != conn
    ensures (set c | c in Members(s.reg) && c.queue !in doomed) == Members(s.reg)
  {
    hide BooksOk;
    QueueKnown(s, extra);
    hide Structure;
    forall n | n in doomed ensures n in s.queues && s.queues[n].owner == Some(conn) && s.queues[n].exclusive {
      assert n in Owned(s, conn);
    }
  }

  /** Closing a connection removes its consumers and no other connection's. */
  lemma CloseConnectionMembers(s: VHost, conn: Name, plan: seq<(ChannelKey, Taking)>, rest: seq<Consumer>,
                               doomed: seq<Name>)
    requires Sound(s, multiset{}) && ConnectionOrder(s, conn, plan, rest, doomed)
    ensures Members(CloseConnection(s, conn, plan, rest, doomed).reg) == set c | c in Members(s.reg) && c.conn != conn
  {
    hide Structure, BooksOk, PlanOk, TakeChannels, CancelEach, DeleteEach, RequeueWork;
    var s1 := TakeChannels(s, plan);
    var extra := multiset{} + MessagesOf(AllRecords(Collected(plan)));
    TakeChannelsSound(s, plan, multiset{});
    RestListed(s1, conn, rest);
    CancelEachSound(s1, rest, extra);
    var s2 := CancelEach(s1, rest);
    LeftMembers(Members(s.reg), conn, plan);
    assert Members(s2.reg) == set c | c in Members(s.reg) && c.conn != conn;
    NoOtherOwner(s2, conn, doomed, extra);
    DisownSound(s2, conn, extra);
    DeleteEachSound(Disown(s2, conn), doomed, extra);
    RequeueWorkSound(DeleteEach(Disown(s2, conn), doomed), Collected(plan), multiset{});
  }

  /** Nothing of the connection is left: no channel state, no index entry, no owned queue. */
  lemma CloseConnectionClean(s: VHost, conn: Name, plan: seq<(ChannelKey, Taking)>, rest: seq<Consumer>,
                             doomed: seq<Name>)
    requires Sound(s, multiset{}) && ConnectionOrder(s, conn, plan, rest, doomed)
    ensures var s' := CloseConnection(s, conn, plan, rest, doomed);
            && (forall k :: k in s'.channels <==> k in s.channels && k.conn != conn)
            && (forall k | k in s'.reg.byChannel :: k.conn != conn)
            && (forall n | n in s'.queues :: s'.queues[n].owner != Some(conn))
  {
    hide Structure, BooksOk, PlanOk, TakeChannels, CancelEach, DeleteEach, RequeueWork;
    var s1 := TakeChannels(s, plan);
    var s2 := CancelEach(s1, rest);
    var s3 := Disown(s2, conn);
    var s4 := DeleteEach(s3, doomed);
    var extra := multiset{} + MessagesOf(AllRecords(Collected(plan)));
    TakeChannelsSound(s, plan, multiset{});
    RestListed(s1, conn, rest);
    CancelEachSound(s1, rest, extra);
    DisownSound(s2, conn, extra);
    DeleteEachSound(s3, doomed, extra);
    RequeueWorkSound(s4, Collected(plan), multiset{});
    TakeChannelsHomes(s, plan);
    CancelEachHomes(s1, rest);
    DeleteEachHomes(s3, doomed);
    NoOwnedLeft(s2, conn, doomed, s4.queues);
    ClosedKeys(s, conn, plan);
  }

  lemma NoOwnedLeft(s: VHost, conn: Name, doomed: seq<Name>, queues: map<Name, Queue>)
    requires (forall n | n in Owned(s, conn) :: n in doomed) && queues == Disown(s, conn).queues - (set n | n in doomed)
    ensures forall n | n in queues :: queues[n].owner != Some(conn)
  {
  }

  lemma ClosedKeys(s: VHost, conn: Name, plan: seq<(ChannelKey, Taking)>)
    requires forall i | 0 <= i < |plan| :: plan[i].0.conn == conn
    requires ChannelsOfConnection(s, conn) <= (set i | 0 <= i < |plan| :: plan[i].0)
    ensures var keys := set i | 0 <= i < |plan| :: plan[i].0;
            && (forall k | k in s.channels :: k in keys <==> k.conn == conn)
            && (forall k | k in s.reg.byChannel && k !in keys :: k.conn != conn)
  {
    forall k: ChannelKey | k.conn == conn && (k in s.channels || k in s.reg.byChannel)
      ensures k in ChannelsOfConnection(s, conn) {
    }
  }
}
