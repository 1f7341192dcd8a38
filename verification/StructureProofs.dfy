/**
 The invariant that ties records, consumers and queues together, and what each primitive change
 of the state does to it:

 - an attached consumer delivery belongs to the consumer now registered under its tag;
 - a delivery not marked queueDeleted comes from the queue that now has its queue's name, and one so marked
   from a queue that is gone;
 - a delivery marked consumerCancelled belongs to a consumer that is gone;
 - a queue holds only messages published to that very queue, and no more of them than its length;
 - a consumer with a prefetch limit never has more deliveries counted than its limit.
 */
module StructureProofs {
  import opened Collections
  import opened ChannelDelivery
  import opened VHostState
  import opened RegistryProofs

  ghost predicate ConsumersOk(queues: map<Name, Queue>, reg: Registry, nextConsumer: nat) {
    forall c | c in Members(reg) :: c.id < nextConsumer && c.queue in queues && OwnedBy(queues[c.queue], c.conn)
  }

  ghost predicate ChannelsOk(channels: map<ChannelKey, Channel>) {
    forall k | k in channels :: WellFormed(channels[k])
  }

  predicate Counted(r: Record) {
    !r.fromGet && r.Attached()
  }

  /** The record is a delivery of the consumer registered under its tag on this channel. */
  ghost predicate LinkedTo(reg: Registry, k: ChannelKey, r: Record) {
    var key := ConsumerKey(k.channel, r.consumerTag);
    && key in reg.consumers
    && var c := reg.consumers[key];
       c.conn == k.conn && c.id == r.owner && c.queue == r.queue && !c.noAck
  }

  ghost predicate LinkedIn(reg: Registry, k: ChannelKey, ch: Channel) {
    forall t | t in ch.records && Counted(ch.records[t]) :: LinkedTo(reg, k, ch.records[t])
  }

  ghost predicate Linked(channels: map<ChannelKey, Channel>, reg: Registry) {
    forall k | k in channels :: LinkedIn(reg, k, channels[k])
  }

  /** No queue has the identity gen. */
  ghost predicate Absent(queues: map<Name, Queue>, gen: nat) {
    forall n | n in queues :: queues[n].gen != gen
  }

  /** The queue the record's message came from has its name, or is marked deleted and is gone. */
  ghost predicate RootedTo(queues: map<Name, Queue>, r: Record) {
    if r.queueDeleted then Absent(queues, r.msg.origin) else r.queue in queues && queues[r.queue].gen == r.msg.origin
  }

  ghost predicate RootedIn(queues: map<Name, Queue>, ch: Channel) {
    forall t | t in ch.records :: RootedTo(queues, ch.records[t])
  }

  ghost predicate Rooted(queues: map<Name, Queue>, channels: map<ChannelKey, Channel>) {
    forall k | k in channels :: RootedIn(queues, channels[k])
  }

  ghost predicate DistinctGens(queues: map<Name, Queue>) {
    forall n, n' | n in queues && n' in queues && queues[n].gen == queues[n'].gen :: n == n'
  }

  /** What is marked cancelled was delivered to a consumer that has left; its identity is not used again. */
  ghost predicate LeftIn(reg: Registry, nextConsumer: nat, ch: Channel) {
    forall t | t in ch.records && ch.records[t].consumerCancelled ::
      ch.records[t].owner !in reg.active && ch.records[t].owner < nextConsumer
  }

  ghost predicate Left(channels: map<ChannelKey, Channel>, reg: Registry, nextConsumer: nat) {
    forall k | k in channels :: LeftIn(reg, nextConsumer, channels[k])
  }

  ghost predicate QueueOk(q: Queue) {
    && (forall m | m in q.ready :: m.origin == q.gen)
    && (q.hand.Some? ==> q.hand.value.origin == q.gen)
    && LengthOk(q)
  }

  ghost predicate QueuesOk(queues: map<Name, Queue>) {
    forall n | n in queues :: QueueOk(queues[n])
  }

  ghost predicate WithinPrefetch(c: Consumer, ch: Channel) {
    c.prefetch > 0 && !ch.qos.prefetchGlobal ==> |OfConsumer(ch, c.tag)| <= c.prefetch
  }

  ghost predicate Bounded(channels: map<ChannelKey, Channel>, reg: Registry) {
    forall c | c in Members(reg) && HomeOf(c) in channels :: WithinPrefetch(c, channels[HomeOf(c)])
  }

  ghost predicate Structure(s: VHost) {
    && RegistryOk(s.reg)
    && ConsumersOk(s.queues, s.reg, s.nextConsumer)
    && ChannelsOk(s.channels)
    && Linked(s.channels, s.reg)
    && Rooted(s.queues, s.channels)
    && QueuesOk(s.queues)
    && Bounded(s.channels, s.reg)
    && DistinctGens(s.queues)
    && Left(s.channels, s.reg, s.nextConsumer)
  }

  // ---------------------------------------------------------------- one channel changes

  /** What a channel's new value must satisfy. */
  ghost predicate Fits(s: VHost, k: ChannelKey, ch: Channel) {
    && WellFormed(ch) && LinkedIn(s.reg, k, ch) && RootedIn(s.queues, ch) && LeftIn(s.reg, s.nextConsumer, ch)
    && forall c | c in Members(s.reg) && HomeOf(c) == k :: WithinPrefetch(c, ch)
  }

  lemma SetChannel(s: VHost, k: ChannelKey, ch: Channel)
    requires Structure(s) && Fits(s, k, ch)
    ensures Structure(s.(channels := s.channels[k := ch]))
  {
  }

  /** Every channel fits, one that has no state yet too. */
  lemma OldFits(s: VHost, k: ChannelKey)
    requires Structure(s)
    ensures Fits(s, k, ChannelOf(s, k))
  {
    if k !in s.channels {
      assert forall c: Consumer :: OfConsumer(EMPTY_CHANNEL, c.tag) == {};
    }
  }

  lemma SmallerFits(s: VHost, k: ChannelKey, ch: Channel, ch': Channel)
    requires Fits(s, k, ch) && ch'.last >= ch.last && ch'.qos == ch.qos
    requires forall t | t in ch'.records :: t in ch.records && ch'.records[t] == ch.records[t]
    ensures Fits(s, k, ch')
  {
    forall c | c in Members(s.reg) && HomeOf(c) == k ensures WithinPrefetch(c, ch') {
      FewerCount(ch, ch', c.tag);
    }
  }

  lemma FewerCount(ch: Channel, ch': Channel, tag: Name)
    requires forall t | t in ch'.records :: t in ch.records && ch'.records[t] == ch.records[t]
    ensures |OfConsumer(ch', tag)| <= |OfConsumer(ch, tag)|
  {
    SubsetSize(OfConsumer(ch', tag), OfConsumer(ch, tag));
  }

  lemma {:induction false} SubsetSize(a: set<nat>, b: set<nat>)
    requires a <= b
    ensures |a| <= |b|
    decreases |a|
  {
    if a != {} {
      var x :| x in a;
      SubsetSize(a - {x}, b - {x});
    }
  }

  /** A tracked consumer delivery. */
  lemma TrackedFits(s: VHost, c: Consumer, m: Message)
    requires Structure(s) && c in Members(s.reg) && !c.noAck
    requires s.queues[c.queue].gen == m.origin
    requires var ch := ChannelOf(s, HomeOf(c));
             c.prefetch > 0 && !ch.qos.prefetchGlobal ==> |OfConsumer(ch, c.tag)| < c.prefetch
    ensures Fits(s, HomeOf(c), TrackConsumer(ChannelOf(s, HomeOf(c)), c.tag, c.queue, m, c.id))
  {
    var k := HomeOf(c);
    var ch := ChannelOf(s, k);
    var ch' := TrackConsumer(ch, c.tag, c.queue, m, c.id);
    OldFits(s, k);
    MemberIff(s.reg, c);
    forall d | d in Members(s.reg) && HomeOf(d) == k ensures WithinPrefetch(d, ch') {
      TrackedCount(ch, c.tag, c.queue, m, c.id, d.tag);
      MemberIff(s.reg, d);
    }
  }

  lemma TrackedSet(ch: Channel, ch': Channel, r: Record, tag: Name)
    requires r.tag !in ch.records && ch'.records == ch.records[r.tag := r]
    ensures OfConsumer(ch', tag) == if ByConsumer(r, tag) then OfConsumer(ch, tag) + {r.tag} else OfConsumer(ch, tag)
    ensures r.tag !in OfConsumer(ch, tag)
  {
    forall t ensures t in OfConsumer(ch', tag) <==> t in OfConsumer(ch, tag) || (t == r.tag && ByConsumer(r, tag)) {
    }
  }

  lemma TrackedCount(ch: Channel, tag: Name, queue: Name, m: Message, owner: nat, other: Name)
    requires WellFormed(ch)
    ensures |OfConsumer(TrackConsumer(ch, tag, queue, m, owner), other)|
         == |OfConsumer(ch, other)| + if other == tag then 1 else 0
  {
    TrackedSet(ch, TrackConsumer(ch, tag, queue, m, owner),
               Record(ch.last + 1, tag, false, queue, m, owner, false, false), other);
  }

  lemma GotFits(s: VHost, k: ChannelKey, queue: Name, m: Message)
    requires Structure(s) && queue in s.queues && s.queues[queue].gen == m.origin
    ensures Fits(s, k, TrackGet(ChannelOf(s, k), queue, m))
  {
    hide Structure;
    OldFits(s, k);
    GotStillFits(s, k, ChannelOf(s, k), queue, m);
  }

  lemma GotStillFits(s: VHost, k: ChannelKey, ch: Channel, queue: Name, m: Message)
    requires Fits(s, k, ch) && queue in s.queues && s.queues[queue].gen == m.origin
    ensures Fits(s, k, TrackGet(ch, queue, m))
  {
    var ch' := TrackGet(ch, queue, m);
    forall c | c in Members(s.reg) && HomeOf(c) == k ensures WithinPrefetch(c, ch') {
      TrackedSet(ch, ch', Record(ch.last + 1, Name(""), true, queue, m, 0, false, false), c.tag);
    }
    forall t | t in ch'.records
      ensures Counted(ch'.records[t]) ==> LinkedTo(s.reg, k, ch'.records[t])
      ensures RootedTo(s.queues, ch'.records[t])
    {
      hide LinkedTo, RootedTo;
      if t in ch.records { assert ch'.records[t] == ch.records[t]; } else { GotRoot(s, k, ch, queue, m); }
    }
  }

  lemma GotRoot(s: VHost, k: ChannelKey, ch: Channel, queue: Name, m: Message)
    requires queue in s.queues && s.queues[queue].gen == m.origin
    ensures !Counted(TrackGet(ch, queue, m).records[ch.last + 1])
            && RootedTo(s.queues, TrackGet(ch, queue, m).records[ch.last + 1])
  {
  }

  // ---------------------------------------------------------------- queues change their contents

  /** The same queues, by name and identity, whatever they hold. */
  ghost predicate SameQueues(queues: map<Name, Queue>, queues': map<Name, Queue>) {
    && queues.Keys == queues'.Keys
    && forall n | n in queues ::
         && queues'[n].gen == queues[n].gen && queues'[n].autoDelete == queues[n].autoDelete
         && queues'[n].exclusive == queues[n].exclusive && queues'[n].owner == queues[n].owner
         && queues'[n].capacity == queues[n].capacity && queues'[n].maxLength == queues[n].maxLength
  }

  lemma SetQueues(s: VHost, queues': map<Name, Queue>)
    requires Structure(s) && SameQueues(s.queues, queues') && QueuesOk(queues')
    ensures Structure(s.(queues := queues'))
  {
    hide RegistryOk, Linked, Bounded, ChannelsOk;
    var s' := s.(queues := queues');
    assert Rooted(s'.queues, s'.channels) by {
      forall k | k in s.channels ensures RootedIn(queues', s.channels[k]) {
        assert RootedIn(s.queues, s.channels[k]);
      }
    }
  }

  // ---------------------------------------------------------------- a consumer leaves

  /** A consumer leaves the registry and its deliveries are detached. */
  lemma UnregisterStructure(s: VHost, c: Consumer)
    requires Structure(s) && c in Members(s.reg)
    ensures Structure(s.(reg := Unregister(s.reg, c), channels := Detach(s.channels, c)))
  {
    UnregisterOk(s.reg, c);
    hide RegistryOk, WellFormed, LinkedIn, RootedIn, LeftIn, FewerCounted, WithinPrefetch, QueueOk, DetachConsumer;
    forall k | k in s.channels
      ensures var ch' := Detach(s.channels, c)[k];
              WellFormed(ch') && LinkedIn(Unregister(s.reg, c), k, ch') && RootedIn(s.queues, ch')
              && LeftIn(Unregister(s.reg, c), s.nextConsumer, ch') && FewerCounted(s.channels[k], ch')
    {
      hide Unregister;
      DetachedChannel(s, c, k);
    }
    FewerBounded(s.channels, Detach(s.channels, c), s.reg, Unregister(s.reg, c));
  }

  lemma DetachedChannel(s: VHost, c: Consumer, k: ChannelKey)
    requires Structure(s) && c in Members(s.reg) && k in s.channels
    ensures var ch' := Detach(s.channels, c)[k];
            WellFormed(ch') && LinkedIn(Unregister(s.reg, c), k, ch') && RootedIn(s.queues, ch')
            && LeftIn(Unregister(s.reg, c), s.nextConsumer, ch') && FewerCounted(s.channels[k], ch')
  {
    var ch, ch' := s.channels[k], Detach(s.channels, c)[k];
    MemberIff(s.reg, c);
    assert LinkedIn(s.reg, k, ch) && RootedIn(s.queues, ch) && LeftIn(s.reg, s.nextConsumer, ch);
    assert c.id < s.nextConsumer;
    hide Structure;
    DetachedLinks(s.reg, Unregister(s.reg, c), k, ch, ch', c);
    DetachedLeft(s.reg, Unregister(s.reg, c), s.nextConsumer, k, ch, ch', c);
    DetachedRoots(s.queues, ch, c.tag);
  }

  lemma DetachedRoots(queues: map<Name, Queue>, ch: Channel, tag: Name)
    requires RootedIn(queues, ch)
    ensures RootedIn(queues, DetachConsumer(ch, tag))
  {
    hide Absent;
    var ch' := DetachConsumer(ch, tag);
    forall t | t in ch'.records ensures RootedTo(queues, ch'.records[t]) {
      assert RootedTo(queues, ch.records[t]);
    }
  }

  /** What is marked by a cancel was delivered to the consumer that leaves. */
  lemma DetachedLeft(reg: Registry, reg': Registry, nextConsumer: nat, k: ChannelKey, ch: Channel, ch': Channel,
                     c: Consumer)
    requires LinkedIn(reg, k, ch) && LeftIn(reg, nextConsumer, ch) && c.id < nextConsumer
    requires c.Key() in reg.consumers && reg.consumers[c.Key()] == c && reg'.active == reg.active - {c.id}
    requires ch' == if k == HomeOf(c) then DetachConsumer(ch, c.tag) else ch
    ensures LeftIn(reg', nextConsumer, ch')
  {
    forall t | t in ch'.records && ch'.records[t].consumerCancelled
      ensures ch'.records[t].owner !in reg'.active && ch'.records[t].owner < nextConsumer
    {
      if !ch.records[t].consumerCancelled { assert LinkedTo(reg, k, ch.records[t]); }
    }
  }

  ghost predicate FewerCounted(ch: Channel, ch': Channel) {
    ch'.qos == ch.qos && forall tag :: OfConsumer(ch', tag) <= OfConsumer(ch, tag)
  }

  /** With fewer consumers and fewer deliveries counted, the limits still hold. */
  lemma FewerBounded(channels: map<ChannelKey, Channel>, channels': map<ChannelKey, Channel>, reg: Registry,
                     reg': Registry)
    requires Bounded(channels, reg) && Members(reg') <= Members(reg) && channels'.Keys == channels.Keys
    requires forall k | k in channels :: FewerCounted(channels[k], channels'[k])
    ensures Bounded(channels', reg')
  {
    forall d | d in Members(reg') && HomeOf(d) in channels' ensures WithinPrefetch(d, channels'[HomeOf(d)]) {
      assert WithinPrefetch(d, channels[HomeOf(d)]);
      SubsetSize(OfConsumer(channels'[HomeOf(d)], d.tag), OfConsumer(channels[HomeOf(d)], d.tag));
    }
  }

  lemma DetachedLinks(reg: Registry, reg': Registry, k: ChannelKey, ch: Channel, ch': Channel, c: Consumer)
    requires WellFormed(ch) && LinkedIn(reg, k, ch)
    requires c.Key() in reg.consumers && reg.consumers[c.Key()] == c
    requires reg'.consumers == reg.consumers - {c.Key()}
    requires ch' == if k == HomeOf(c) then DetachConsumer(ch, c.tag) else ch
    ensures WellFormed(ch') && LinkedIn(reg', k, ch') && FewerCounted(ch, ch')
  {
    forall t | t in ch'.records && Counted(ch'.records[t]) ensures LinkedTo(reg', k, ch'.records[t]) {
      assert LinkedTo(reg, k, ch.records[t]);
    }
  }

  // ---------------------------------------------------------------- a queue is deleted

  lemma DeleteQueueStructure(s: VHost, queue: Name)
    requires Structure(s) && queue in s.queues
    ensures Structure(DeleteQueue(s, queue))
    ensures Members(DeleteQueue(s, queue).reg) == set c | c in Members(s.reg) && c.queue != queue
  {
    hide RemoveQueueConsumers, Held, Indexes, RegistryOk;
    var s' := DeleteQueue(s, queue);
    RemoveQueueConsumersOk(s.reg, queue);
    hide WellFormed, LinkedIn, RootedIn, LeftIn, FewerCounted, WithinPrefetch, QueueOk;
    forall k | k in s'.channels
      ensures WellFormed(s'.channels[k]) && LinkedIn(s'.reg, k, s'.channels[k]) && RootedIn(s'.queues, s'.channels[k])
      ensures LeftIn(s'.reg, s'.nextConsumer, s'.channels[k]) && FewerCounted(s.channels[k], s'.channels[k])
    {
      assert RootedIn(s.queues, s.channels[k]) && LeftIn(s.reg, s.nextConsumer, s.channels[k]);
      DeletedLinks(s, s', k, s.channels[k], queue);
      DeletedRoots(s.queues, s.channels[k], queue);
      DeletedLeft(s, s', s.channels[k], queue);
    }
    FewerBounded(s.channels, s'.channels, s.reg, s'.reg);
  }

  lemma DeletedLeft(s: VHost, s': VHost, ch: Channel, queue: Name)
    requires LeftIn(s.reg, s.nextConsumer, ch) && RegistryOk(s.reg) && RegistryOk(s'.reg)
    requires Members(s'.reg) <= Members(s.reg)
    ensures LeftIn(s'.reg, s.nextConsumer, DetachQueue(ch, queue))
  {
    var ch' := DetachQueue(ch, queue);
    assert s'.reg.active <= s.reg.active;
    hide RegistryOk;
    forall t | t in ch'.records && ch'.records[t].consumerCancelled
      ensures ch'.records[t].owner !in s'.reg.active && ch'.records[t].owner < s.nextConsumer
    {
      assert ch.records[t].consumerCancelled;
    }
  }

  /** The deliveries that come from the deleted queue are the ones that are marked. */
  lemma DeletedRoots(queues: map<Name, Queue>, ch: Channel, queue: Name)
    requires RootedIn(queues, ch) && DistinctGens(queues) && queue in queues
    ensures RootedIn(queues - {queue}, DetachQueue(ch, queue))
  {
    var ch' := DetachQueue(ch, queue);
    forall t | t in ch'.records ensures RootedTo(queues - {queue}, ch'.records[t]) {
      assert RootedTo(queues, ch.records[t]);
    }
  }

  lemma DeletedLinks(s: VHost, s': VHost, k: ChannelKey, ch: Channel, queue: Name)
    requires WellFormed(ch) && LinkedIn(s.reg, k, ch)
    requires RegistryOk(s.reg) && RegistryOk(s'.reg)
    requires Members(s'.reg) == set c | c in Members(s.reg) && c.queue != queue
    ensures var ch' := DetachQueue(ch, queue);
            WellFormed(ch') && LinkedIn(s'.reg, k, ch') && FewerCounted(ch, ch')
  {
    var ch' := DetachQueue(ch, queue);
    forall t | t in ch'.records && Counted(ch'.records[t]) ensures LinkedTo(s'.reg, k, ch'.records[t]) {
      assert LinkedTo(s.reg, k, ch.records[t]);
      var c := s.reg.consumers[ConsumerKey(k.channel, ch.records[t].consumerTag)];
      MemberIff(s.reg, c);
      MemberIff(s'.reg, c);
    }
  }

  // ---------------------------------------------------------------- cancelling

  /** The code deletes an auto-delete queue before the consumer leaves the channel index; the
      result is the same as removing the consumer first. */
  lemma CancelInTwoSteps(s: VHost, c: Consumer)
    ensures CancelLocked(s, c) ==
            var s' := s.(reg := Unregister(s.reg, c), channels := Detach(s.channels, c));
            if AutoDeletes(s', c.queue) then DeleteQueue(s', c.queue) else s'
  {
    var reg1 := s.reg.(active := s.reg.active - {c.id}, consumers := s.reg.consumers - {c.Key()});
    var reg2 := reg1.(byQueue := RemoveFrom(reg1.byQueue, c.queue, c));
    if Get(reg2.byQueue, c.queue) == [] {
      assert DropConsumers(reg2, []) == reg2;
    }
  }

  lemma CancelStructure(s: VHost, c: Consumer)
    requires Structure(s) && c in Members(s.reg)
    ensures Structure(CancelLocked(s, c))
    ensures Members(CancelLocked(s, c).reg) == Members(s.reg) - {c}
  {
    CancelInTwoSteps(s, c);
    var s' := s.(reg := Unregister(s.reg, c), channels := Detach(s.channels, c));
    UnregisterStructure(s, c);
    UnregisterOk(s.reg, c);
    if AutoDeletes(s', c.queue) {
      DeleteQueueStructure(s', c.queue);
      NoConsumersLeft(s'.reg, c.queue);
    }
  }

  lemma NoConsumersLeft(reg: Registry, queue: Name)
    requires RegistryOk(reg) && Get(reg.byQueue, queue) == []
    ensures (set c | c in Members(reg) && c.queue != queue) == Members(reg)
  {
    forall c | c in Members(reg) ensures c.queue != queue {
      assert c in Get(reg.byQueue, QueueOf(c));
    }
  }

  /** A new consumer starts with no delivery counted against it, even if its tag was used before. */
  lemma NewConsumerBounded(s: VHost, c: Consumer)
    requires Linked(s.channels, s.reg) && Bounded(s.channels, s.reg) && c.Key() !in s.reg.consumers
    requires Members(Register(s.reg, c)) == Members(s.reg) + {c}
    ensures Bounded(s.channels, Register(s.reg, c))
  {
    if HomeOf(c) in s.channels {
      assert LinkedIn(s.reg, HomeOf(c), s.channels[HomeOf(c)]);
      assert OfConsumer(s.channels[HomeOf(c)], c.tag) == {};
    }
  }

  lemma NewConsumerLinked(s: VHost, c: Consumer)
    requires Linked(s.channels, s.reg) && c.Key() !in s.reg.consumers
    ensures Linked(s.channels, Register(s.reg, c))
  {
    forall k | k in s.channels ensures LinkedIn(Register(s.reg, c), k, s.channels[k]) {
      assert LinkedIn(s.reg, k, s.channels[k]);
    }
  }

  lemma NewConsumerStructure(s: VHost, c: Consumer)
    requires Structure(s) && c.Key() !in s.reg.consumers
    requires RegistryOk(Register(s.reg, c)) && Members(Register(s.reg, c)) == Members(s.reg) + {c}
    requires c.id == s.nextConsumer && c.queue in s.queues && OwnedBy(s.queues[c.queue], c.conn)
    ensures Structure(s.(reg := Register(s.reg, c), nextConsumer := s.nextConsumer + 1))
  {
    hide RegistryOk, Linked, Bounded, ChannelsOk, Rooted, QueuesOk;
    NewConsumerLinked(s, c);
    NewConsumerBounded(s, c);
  }

  lemma ConsumeStructure(s: VHost, conn: Name, channel: nat, tag: Name, generated: Name, queue: Name, noAck: bool,
                         exclusive: bool)
    requires Structure(s)
    ensures Structure(Consume(s, conn, channel, tag, generated, queue, noAck, exclusive))
  {
    var s' := Consume(s, conn, channel, tag, generated, queue, noAck, exclusive);
    if s' != s {
      var c := NewConsumer(s, conn, channel, tag, generated, queue, noAck, exclusive);
      RegisterOk(s.reg, c);
      NewConsumerStructure(s, c);
    }
  }
}
