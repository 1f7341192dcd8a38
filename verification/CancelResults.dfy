/**
 What goes with consumers that are cancelled, one by one or with their channel: the auto-delete queues that
 lose their last consumer, and no other queue; and what becomes of the deliveries.
 */
module CancelResults {
  import opened Collections
  import opened ChannelDelivery
  import opened VHostState
  import opened RegistryProofs
  import opened StructureProofs
  import opened HandlerProofs
  import opened DeliveryProofs
  import opened CloseProofs

  // ---------------------------------------------------------------- the queues that go

  /** The auto-delete queues that had a consumer and have none any more. */
  ghost function Orphans(queues: map<Name, Queue>, members: set<Consumer>, members': set<Consumer>): set<Name> {
    set n | n in queues && queues[n].autoDelete
            && (exists c :: c in members && c.queue == n) && (forall c | c in members' :: c.queue != n)
  }

  lemma NoOrphans(queues: map<Name, Queue>, members: set<Consumer>)
    ensures Orphans(queues, members, members) == {} && queues - {} == queues
  {
  }

  lemma OrphansTwice(queues: map<Name, Queue>, a: set<Consumer>, b: set<Consumer>, c: set<Consumer>)
    requires c <= b <= a
    ensures var first := Orphans(queues, a, b);
            && Orphans(queues, a, c) == first + Orphans(queues - first, b, c)
            && queues - first - Orphans(queues - first, b, c) == queues - Orphans(queues, a, c)
  {
    var first := Orphans(queues, a, b);
    var second := Orphans(queues - first, b, c);
    forall n ensures n in Orphans(queues, a, c) <==> n in first || n in second {
      if d :| d in b && d.queue == n { assert d in a; }
    }
  }

  lemma LastOf(reg: Registry, c: Consumer)
    requires RegistryOk(reg) && c in Members(reg)
    ensures Get(Unregister(reg, c).byQueue, c.queue) == [] <==>
            forall d | d in Members(reg) - {c} :: d.queue != c.queue
  {
    UnregisterOk(reg, c);
    var reg' := Unregister(reg, c);
    var left := Get(reg'.byQueue, c.queue);
    if left != [] {
      assert left[0] in left && QueueOf(left[0]) == c.queue;
    }
    if d :| d in Members(reg') && d.queue == c.queue { assert d in Get(reg'.byQueue, QueueOf(d)); }
  }

  // ---------------------------------------------------------------- the deliveries that stay

  /** The deliveries of a channel once the queues in lost are gone: theirs are marked deleted, and nothing
      else changes but marks of cancelled consumers. */
  ghost predicate Aged(ch: Channel, ch': Channel, lost: set<Name>) {
    && ch' == ch.(records := ch'.records) && ch'.records.Keys == ch.records.Keys
    && forall t | t in ch.records ::
         ch'.records[t] == ch.records[t].(queueDeleted := ch.records[t].queueDeleted || ch.records[t].queue in lost,
                                          consumerCancelled := ch'.records[t].consumerCancelled)
  }

  /** Channels may go, and what is left of them has aged; of the ledger only what is gone may grow. */
  ghost predicate Shrinks(s: VHost, s': VHost, lost: set<Name>) {
    && s'.redelivered == s.redelivered && s'.ledger == s.ledger.(gone := s'.ledger.gone)
    && s'.nextGen == s.nextGen && s'.nextConsumer == s.nextConsumer && s'.nextCopy == s.nextCopy
    && forall k | k in s'.channels :: k in s.channels && Aged(s.channels[k], s'.channels[k], lost)
  }

  lemma ShrinksNot(s: VHost)
    ensures Shrinks(s, s, {})
  {
  }

  lemma AgedAgain(a: Channel, b: Channel, c: Channel, lost: set<Name>, lost': set<Name>)
    requires Aged(a, b, lost) && Aged(b, c, lost')
    ensures Aged(a, c, lost + lost')
  {
  }

  lemma ShrinksAgain(a: VHost, b: VHost, c: VHost, lost: set<Name>, lost': set<Name>)
    requires Shrinks(a, b, lost) && Shrinks(b, c, lost')
    ensures Shrinks(a, c, lost + lost')
  {
    hide Aged;
    forall k | k in c.channels ensures k in a.channels && Aged(a.channels[k], c.channels[k], lost + lost') {
      AgedAgain(a.channels[k], b.channels[k], c.channels[k], lost, lost');
    }
  }

  lemma DetachShrinks(s: VHost, c: Consumer, reg: Registry)
    ensures Shrinks(s, s.(reg := reg, channels := Detach(s.channels, c)), {})
  {
  }

  lemma DeleteQueueShrinks(s: VHost, n: Name)
    requires n in s.queues
    ensures Shrinks(s, DeleteQueue(s, n), {n}) && DeleteQueue(s, n).queues == s.queues - {n}
            && DeleteQueue(s, n).channels.Keys == s.channels.Keys
  {
    hide RemoveQueueConsumers, Held;
  }

  // ---------------------------------------------------------------- one consumer

  lemma OrphansOfOne(queues: map<Name, Queue>, members: set<Consumer>, c: Consumer)
    requires c.queue in queues && c in members
    ensures Orphans(queues, members, members - {c})
            == if queues[c.queue].autoDelete && forall d | d in members && d != c :: d.queue != c.queue
               then {c.queue} else {}
  {
    var lost := Orphans(queues, members, members - {c});
    assert forall n | n in lost :: n == c.queue;
    assert forall d :: d in members - {c} <==> d in members && d != c;
  }

  /** The host without the consumer; its queue may still have to go. */
  function LeftBy(s: VHost, c: Consumer): VHost {
    s.(reg := Unregister(s.reg, c), channels := Detach(s.channels, c))
  }

  lemma AutoDeletesIff(s: VHost, c: Consumer)
    requires RegistryOk(s.reg) && c in Members(s.reg) && c.queue in s.queues
    ensures AutoDeletes(LeftBy(s, c), c.queue) <==>
            c.queue in Orphans(s.queues, Members(s.reg), Members(s.reg) - {c})
  {
    LastOf(s.reg, c);
    hide RegistryOk, Get, Members, Detach;
    OrphansOfOne(s.queues, Members(s.reg), c);
  }

  /** A cancel removes the consumer, and a queue only if it is auto-delete and loses its last consumer. */
  lemma CancelShrinks(s: VHost, c: Consumer)
    requires Structure(s) && c in Members(s.reg)
    ensures var s' := CancelLocked(s, c);
            var lost := Orphans(s.queues, Members(s.reg), Members(s.reg) - {c});
            && s'.queues == s.queues - lost && Shrinks(s, s', lost) && s'.channels.Keys == s.channels.Keys
  {
    assert c.queue in s.queues && RegistryOk(s.reg);
    hide Structure, RegistryOk, Unregister, Detach, Members;
    AutoDeletesIff(s, c);
    OrphansOfOne(s.queues, Members(s.reg), c);
    CancelHomes(s, c);
    CancelInTwoSteps(s, c);
    hide CancelLocked, DeleteQueue, Shrinks, Orphans, AutoDeletes;
    var s1 := LeftBy(s, c);
    DetachShrinks(s, c, Unregister(s.reg, c));
    if AutoDeletes(s1, c.queue) {
      DeleteQueueShrinks(s1, c.queue);
      ShrinksAgain(s, s1, DeleteQueue(s1, c.queue), {}, {c.queue});
      assert {} + {c.queue} == {c.queue};
    } else {
      assert s.queues - {} == s.queues;
    }
  }

  /** basic.cancel, and the cancel of a failed consumer: every queue stays as it is, but for one that is
      declared auto-delete and had no other consumer; that one goes. */
  lemma CancelKeepsQueues(s: VHost, c: Consumer)
    requires Structure(s) && c in Members(s.reg)
    ensures c.queue in s.queues
    ensures CancelLocked(s, c).queues
            == if s.queues[c.queue].autoDelete && forall d | d in Members(s.reg) && d != c :: d.queue != c.queue
               then s.queues - {c.queue} else s.queues
  {
    CancelShrinks(s, c);
    assert c.queue in s.queues;
    hide Structure, CancelLocked, Shrinks, Members;
    OrphansOfOne(s.queues, Members(s.reg), c);
    hide Orphans;
    assert s.queues - {} == s.queues;
  }

  // ---------------------------------------------------------------- the consumers of a channel

  lemma {:induction false} CancelListedShrinks(s: VHost, key: ChannelKey, cs: seq<Consumer>, extra: multiset<Message>)
    requires Sound(s, extra)
    ensures var s' := CancelListed(s, key, cs);
            var lost := Orphans(s.queues, Members(s.reg), Members(s'.reg));
            && Members(s'.reg) <= Members(s.reg)
            && s'.queues == s.queues - lost && Shrinks(s, s', lost) && s'.channels.Keys == s.channels.Keys
    decreases |cs|
  {
    hide Structure, BooksOk, CancelLocked, Shrinks, Orphans;
    if cs == [] {
      NoOrphans(s.queues, Members(s.reg));
      ShrinksNot(s);
    } else {
      var c := cs[0];
      RegisteredIff(s, c, extra);
      if c.conn == key.conn && c in Members(s.reg) {
        var s1 := CancelLocked(s, c);
        CancelSound(s, c, extra);
        CancelShrinks(s, c);
        CancelListedShrinks(s1, key, cs[1..], extra);
        var s' := CancelListed(s1, key, cs[1..]);
        OrphansTwice(s.queues, Members(s.reg), Members(s1.reg), Members(s'.reg));
        ShrinksAgain(s, s1, s', Orphans(s.queues, Members(s.reg), Members(s1.reg)),
                     Orphans(s1.queues, Members(s1.reg), Members(s'.reg)));
      } else {
        CancelListedShrinks(s, key, cs[1..], extra);
      }
    }
  }

  lemma CancelChannelShrinks(s: VHost, key: ChannelKey, extra: multiset<Message>)
    requires Sound(s, extra)
    ensures var s' := CancelChannelConsumers(s, key);
            var lost := Orphans(s.queues, Members(s.reg), Members(s'.reg));
            && Members(s'.reg) <= Members(s.reg)
            && s'.queues == s.queues - lost && Shrinks(s, s', lost) && s'.channels.Keys == s.channels.Keys
  {
    hide Sound, CancelListed, Orphans;
    var s1 := CancelListed(s, key, Get(s.reg.byChannel, key));
    CancelListedShrinks(s, key, Get(s.reg.byChannel, key), extra);
    assert Members(CancelChannelConsumers(s, key).reg) == Members(s1.reg);
  }

  /** The channel's consumers leave, and a queue goes exactly if it is declared auto-delete and its consumers,
      at least one, were all of this channel; every other one stays as it is. */
  lemma ChannelKeepsQueues(s: VHost, key: ChannelKey, n: Name)
    requires Sound(s, multiset{}) && n in s.queues
    ensures var s' := CancelChannelConsumers(s, key);
            && (n !in s'.queues <==>
                && s.queues[n].autoDelete
                && (exists c :: c in Members(s.reg) && c.queue == n)
                && (forall c | c in Members(s.reg) && c.queue == n :: HomeOf(c) == key))
            && (n in s'.queues ==> s'.queues[n] == s.queues[n])
  {
    hide Sound, CancelChannelConsumers, Shrinks, Members;
    CancelChannelShrinks(s, key, multiset{});
    CancelChannelSound(s, key, multiset{});
    OrphanHere(s.queues, Members(s.reg), key, n);
    hide Orphans;
  }

  lemma OrphanHere(queues: map<Name, Queue>, members: set<Consumer>, key: ChannelKey, n: Name)
    requires n in queues
    ensures n in Orphans(queues, members, set c | c in members && HomeOf(c) != key) <==>
            && queues[n].autoDelete && (exists c :: c in members && c.queue == n)
            && (forall c | c in members && c.queue == n :: HomeOf(c) == key)
  {
    var left := set c | c in members && HomeOf(c) != key;
    if c :| c in members && c.queue == n && HomeOf(c) != key { assert c in left; }
  }
}
