/**
 The consumer registry: its three indexes list the same active consumers, an exclusive consumer
 is alone on its queue, and an exclusive queue is consumed only by its owner. Every way of
 adding or removing consumers keeps this.
 */
module RegistryProofs {
  import opened Collections
  import opened ChannelDelivery
  import opened VHostState

  ghost function Members(reg: Registry): set<Consumer> {
    reg.consumers.Values
  }

  ghost predicate KeysOk(reg: Registry) {
    forall k | k in reg.consumers :: reg.consumers[k].Key() == k
  }

  ghost predicate Exclusive(members: set<Consumer>) {
    forall c, d | c in members && d in members && c.queue == d.queue && c.exclusive :: c == d
  }

  ghost predicate DistinctIds(members: set<Consumer>) {
    forall c, d | c in members && d in members && c.id == d.id :: c == d
  }

  ghost function Ids(members: set<Consumer>): set<nat> {
    set c | c in members :: c.id
  }

  /** The registry invariant. */
  ghost predicate RegistryOk(reg: Registry) {
    && KeysOk(reg)
    && Indexes(reg.byQueue, Members(reg), QueueOf)
    && Indexes(reg.byChannel, Members(reg), HomeOf)
    && reg.active == Ids(Members(reg))
    && DistinctIds(Members(reg))
    && Exclusive(Members(reg))
  }

  lemma MemberIff(reg: Registry, c: Consumer)
    requires KeysOk(reg)
    ensures c in Members(reg) <==> c.Key() in reg.consumers && reg.consumers[c.Key()] == c
  {
  }

  lemma DropMember(reg: Registry, c: Consumer)
    requires KeysOk(reg) && c in Members(reg)
    ensures (reg.consumers - {c.Key()}).Values == Members(reg) - {c}
    ensures KeysOk(reg.(consumers := reg.consumers - {c.Key()}))
  {
    var reg' := reg.(consumers := reg.consumers - {c.Key()});
    forall d ensures d in Members(reg') <==> d in Members(reg) - {c} {
      MemberIff(reg, d);
      MemberIff(reg, c);
      MemberIff(reg', d);
    }
  }

  lemma IdsWithout(members: set<Consumer>, c: Consumer)
    requires DistinctIds(members) && c in members
    ensures Ids(members - {c}) == Ids(members) - {c.id}
  {
  }

  /** A consumer leaves all of the indexes. */
  function Unregister(reg: Registry, c: Consumer): Registry {
    Registry(reg.consumers - {c.Key()}, reg.active - {c.id},
             RemoveFrom(reg.byQueue, c.queue, c), RemoveFrom(reg.byChannel, HomeOf(c), c))
  }

  lemma UnregisterOk(reg: Registry, c: Consumer)
    requires RegistryOk(reg) && c in Members(reg)
    ensures RegistryOk(Unregister(reg, c))
    ensures Members(Unregister(reg, c)) == Members(reg) - {c}
  {
    DropMember(reg, c);
    IdsWithout(Members(reg), c);
    RemoveFromIndexes(reg.byQueue, Members(reg), QueueOf, c);
    RemoveFromIndexes(reg.byChannel, Members(reg), HomeOf, c);
  }

  lemma AddMember(reg: Registry, c: Consumer)
    requires KeysOk(reg) && c.Key() !in reg.consumers
    ensures c !in Members(reg) && reg.consumers[c.Key() := c].Values == Members(reg) + {c}
    ensures KeysOk(reg.(consumers := reg.consumers[c.Key() := c]))
  {
    var reg' := reg.(consumers := reg.consumers[c.Key() := c]);
    MemberIff(reg, c);
    forall d ensures d in Members(reg') <==> d in Members(reg) + {c} {
      MemberIff(reg, d);
      MemberIff(reg', d);
    }
  }

  lemma IdsWith(members: set<Consumer>, c: Consumer)
    requires DistinctIds(members) && forall d | d in members :: d.id != c.id
    ensures DistinctIds(members + {c}) && Ids(members + {c}) == Ids(members) + {c.id}
  {
  }

  lemma ExclusiveWith(byQueue: map<Name, seq<Consumer>>, members: set<Consumer>, c: Consumer)
    requires Indexes(byQueue, members, QueueOf) && Exclusive(members)
    requires forall d | d in Get(byQueue, c.queue) :: !d.exclusive
    requires c.exclusive ==> Get(byQueue, c.queue) == []
    ensures Exclusive(members + {c})
  {
    forall d | d in members && d.queue == c.queue ensures !d.exclusive && !c.exclusive {
      assert d in Get(byQueue, QueueOf(d));
    }
  }

  lemma RegisterOk(reg: Registry, c: Consumer)
    requires RegistryOk(reg) && c.Key() !in reg.consumers
    requires forall d | d in Members(reg) :: d.id != c.id
    requires forall d | d in Get(reg.byQueue, c.queue) :: !d.exclusive
    requires c.exclusive ==> Get(reg.byQueue, c.queue) == []
    ensures RegistryOk(Register(reg, c)) && Members(Register(reg, c)) == Members(reg) + {c}
  {
    AddMember(reg, c);
    IdsWith(Members(reg), c);
    ExclusiveWith(reg.byQueue, Members(reg), c);
    AddToIndexes(reg.byQueue, Members(reg), QueueOf, c);
    AddToIndexes(reg.byChannel, Members(reg), HomeOf, c);
  }

  /** What is left of the registry, its queue index aside, once the listed consumers are gone. */
  ghost predicate LeftWith(reg: Registry, members: set<Consumer>) {
    && KeysOk(reg) && Members(reg) == members
    && Indexes(reg.byChannel, members, HomeOf)
    && reg.active == Ids(members) && DistinctIds(members)
  }

  lemma DropConsumerOk(reg: Registry, c: Consumer, members: set<Consumer>)
    requires LeftWith(reg, members) && c in members
    ensures LeftWith(DropConsumer(reg, c), members - {c}) && DropConsumer(reg, c).byQueue == reg.byQueue
  {
    MemberIff(reg, c);
    DropMember(reg, c);
    IdsWithout(members, c);
    RemoveFromIndexes(reg.byChannel, members, HomeOf, c);
  }

  lemma {:induction false} DropConsumersOk(reg: Registry, cs: seq<Consumer>, members: set<Consumer>)
    requires LeftWith(reg, members) && NoDup(cs) && forall c | c in cs :: c in members
    ensures LeftWith(DropConsumers(reg, cs), members - Listed(cs))
    ensures DropConsumers(reg, cs).byQueue == reg.byQueue
    decreases |cs|
  {
    if cs == [] {
      assert members - Listed(cs) == members;
    } else {
      DropConsumerOk(reg, cs[0], members);
      ListedTail(cs, members);
      DropConsumersOk(DropConsumer(reg, cs[0]), cs[1..], members - {cs[0]});
    }
  }

  lemma ListedTail(cs: seq<Consumer>, members: set<Consumer>)
    requires cs != [] && NoDup(cs) && forall c | c in cs :: c in members
    ensures NoDup(cs[1..]) && cs[0] in members && forall c | c in cs[1..] :: c in members - {cs[0]}
    ensures members - Listed(cs) == members - {cs[0]} - Listed(cs[1..])
  {
    assert cs == [cs[0]] + cs[1..];
    assert forall c :: c in cs <==> c == cs[0] || c in cs[1..];
  }

  function Listed(cs: seq<Consumer>): set<Consumer> {
    set c | c in cs
  }

  lemma IndexWithout(byQueue: map<Name, seq<Consumer>>, members: set<Consumer>, queue: Name)
    requires Indexes(byQueue, members, QueueOf)
    ensures members - Listed(Get(byQueue, queue)) == set c | c in members && c.queue != queue
    ensures Indexes(byQueue - {queue}, members - Listed(Get(byQueue, queue)), QueueOf)
  {
    var left := set c | c in members && c.queue != queue;
    forall c | c in members ensures c in left <==> c !in Get(byQueue, queue) {
      assert c in Get(byQueue, QueueOf(c));
    }
    assert members - Listed(Get(byQueue, queue)) == left;
    forall c | c in left ensures c in Get(byQueue - {queue}, QueueOf(c)) {
      assert c in Get(byQueue, QueueOf(c));
    }
    forall k, c | k in byQueue - {queue} && c in (byQueue - {queue})[k] ensures c in left && QueueOf(c) == k {
      assert k in byQueue && c in byQueue[k];
      assert c in members && QueueOf(c) == k;
    }
  }

  /** Deleting a queue removes exactly its consumers. */
  lemma RemoveQueueConsumersOk(reg: Registry, queue: Name)
    requires RegistryOk(reg)
    ensures RegistryOk(RemoveQueueConsumers(reg, queue))
    ensures Members(RemoveQueueConsumers(reg, queue)) == set c | c in Members(reg) && c.queue != queue
  {
    var cs := Get(reg.byQueue, queue);
    assert forall c | c in cs :: c in Members(reg);
    DropConsumersOk(reg, cs, Members(reg));
    IndexWithout(reg.byQueue, Members(reg), queue);
  }
}
