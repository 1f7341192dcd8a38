/**
 The two levels put together: what the loops over a channel's indexes hand to the handlers is what the
 steps of a run are allowed to be given, so that each handler, run on the delivery state of its channel,
 is a step of VHostRuns. And every request has such a step in every reachable state.
 */
module HandlerRuns {
  import opened Collections
  import opened ChannelDelivery
  import opened VHostState
  import opened RegistryProofs
  import opened StructureProofs
  import opened HandlerProofs
  import opened ReturnResults
  import opened RecoverProofs
  import opened RecoverResults
  import opened CloseProofs
  import opened TagProofs
  import opened VHostRuns
  import opened RequeueOrder
  import opened HostMethods

  // ---------------------------------------------------------------- every request has a step

  lemma {:induction false} ListExists(ch: Channel, tags: set<nat>) returns (records: seq<Record>)
    requires WellFormed(ch) && tags <= ch.records.Keys
    ensures Lists(records, ch, tags)
    decreases |tags|
  {
    if tags == {} {
      records := [];
    } else {
      var t :| t in tags;
      records := ListExists(ch, tags - {t});
      ListsAppend(records, ch, tags - {t}, ch.records[t]);
      records := records + [ch.records[t]];
      assert tags - {t} + {t} == tags;
    }
  }

  /** One item for each of the queues, as grouping and sorting make it. */
  ghost predicate ItemsFor(queues: map<Name, Queue>, records: seq<Record>, names: set<Name>, work: seq<Work>) {
    && (forall i, j | 0 <= i < j < |work| :: work[i].queue != work[j].queue)
    && (forall i | 0 <= i < |work| ::
        work[i].queue in names && work[i].queue in queues && work[i].gen == queues[work[i].queue].gen)
    && (forall i | 0 <= i < |work| :: work[i].records == SortByTag(Named(records, work[i].queue)))
    && (forall n | n in names :: HasItem(work, n))
  }

  lemma {:induction false} ItemsExist(queues: map<Name, Queue>, records: seq<Record>, names: set<Name>)
    returns (work: seq<Work>)
    requires names <= queues.Keys
    ensures ItemsFor(queues, records, names, work)
    decreases |names|
  {
    hide SortByTag, Named;
    if names == {} {
      work := [];
    } else {
      var n :| n in names;
      var rest := ItemsExist(queues, records, names - {n});
      work := rest + [Work(n, queues[n].gen, SortByTag(Named(records, n)))];
      forall m | m in names ensures HasItem(work, m) {
        if m == n { assert work[|rest|].queue == n; } else {
          assert HasItem(rest, m);
          var i :| 0 <= i < |rest| && rest[i].queue == m;
          assert work[i].queue == m;
        }
      }
    }
  }

  lemma TakingExists(s: VHost, key: ChannelKey) returns (t: Taking)
    requires WellFormed(ChannelOf(s, key))
    ensures Takes(s, key, t)
  {
    var ch := ChannelOf(s, key);
    var records := ListExists(ch, Requeueable(ch));
    var names := set i | 0 <= i < |records| && records[i].queue in s.queues :: records[i].queue;
    var work := ItemsExist(s.queues, records, names);
    assert Ordered(s.queues, records, work);
    hide Ordered, ItemsFor, Lists;
    OrderedIsWork(s, ch, records, work);
    hide IsWork;
    var dead := ListExists(ch, DeadTags(ch));
    var stranded := ListExists(ch, Requeueable(ch) - LiveTags(s, ch));
    t := Taking(work, dead, stranded);
  }

  lemma ClosePossible(s: VHost, key: ChannelKey, extra: multiset<Message>) returns (t: Taking)
    requires Sound(s, extra)
    ensures var s1 := CancelChannelConsumers(s, key); if key in s1.channels then Takes(s1, key, t) else t.work == []
  {
    var s1 := CancelChannelConsumers(s, key);
    CancelChannelSound(s, key, extra);
    assert key in s1.channels ==> WellFormed(s1.channels[key]);
    hide Sound, CancelChannelConsumers, Takes, WellFormed;
    if key in s1.channels {
      t := TakingExists(s1, key);
    } else {
      t := Taking([], [], []);
    }
  }

  lemma {:induction false} PlanExists(s: VHost, keys: seq<ChannelKey>, extra: multiset<Message>)
    returns (plan: seq<(ChannelKey, Taking)>)
    requires Sound(s, extra)
    ensures PlanOk(s, plan) && |plan| == |keys| && forall i | 0 <= i < |keys| :: plan[i].0 == keys[i]
    decreases |keys|
  {
    hide Sound, CancelChannelConsumers, Takes, TakeChannel;
    if keys == [] {
      plan := [];
    } else {
      var t := ClosePossible(s, keys[0], extra);
      TakeChannelSound(s, keys[0], t, extra);
      var rest := PlanExists(TakeChannel(s, keys[0], t), keys[1..], extra + MessagesOf(AllRecords(t.work)));
      plan := [(keys[0], t)] + rest;
      assert plan[1..] == rest;
    }
  }

  lemma {:induction false} Elements<T>(xs: set<T>) returns (out: seq<T>)
    ensures NoDup(out) && forall x :: x in out <==> x in xs
    decreases |xs|
  {
    if xs == {} {
      out := [];
    } else {
      var x :| x in xs;
      var rest := Elements(xs - {x});
      out := rest + [x];
    }
  }

  lemma PlanCovers(keys: seq<ChannelKey>, plan: seq<(ChannelKey, Taking)>, all: set<ChannelKey>)
    requires |plan| == |keys| && (forall i | 0 <= i < |keys| :: plan[i].0 == keys[i])
    requires forall k :: k in keys <==> k in all
    ensures all <= set i | 0 <= i < |plan| :: plan[i].0
    ensures forall i | 0 <= i < |plan| :: plan[i].0 in all
  {
    forall k | k in all ensures k in (set i | 0 <= i < |plan| :: plan[i].0) {
      var i :| 0 <= i < |keys| && keys[i] == k;
      assert plan[i].0 == k;
    }
  }

  lemma CloseConnectionPossible(s: VHost, conn: Name)
    returns (plan: seq<(ChannelKey, Taking)>, rest: seq<Consumer>, doomed: seq<Name>)
    requires Sound(s, multiset{})
    ensures ConnectionOrder(s, conn, plan, rest, doomed)
  {
    assert forall k | k in ChannelsOfConnection(s, conn) :: k.conn == conn;
    hide Sound, PlanOk, Takes, TakeChannels, CancelEach, ChannelsOfConnection, Owned, NoDup;
    var keys := Elements(ChannelsOfConnection(s, conn));
    plan := PlanExists(s, keys, multiset{});
    PlanCovers(keys, plan, ChannelsOfConnection(s, conn));
    rest := RestExists(TakeChannels(s, plan), conn);
    doomed := Elements(Owned(CancelEach(TakeChannels(s, plan), rest), conn));
  }

  lemma RestExists(s: VHost, conn: Name) returns (rest: seq<Consumer>)
    ensures NoDup(rest) && forall c :: c in rest <==> c in s.reg.consumers.Values && c.conn == conn
  {
    rest := Elements(set c | c in s.reg.consumers.Values && c.conn == conn);
  }

  /** The same request: only the orders in which the code comes across the state may differ. */
  ghost predicate SameRequest(a: Op, b: Op) {
    match a
    case AckOp(key, tag, multiple, popped) => b.AckOp? && b == AckOp(key, tag, multiple, b.popped)
    case NackOp(key, tag, multiple, requeue, popped, expired) =>
      b.NackOp? && b == NackOp(key, tag, multiple, requeue, b.popped, expired)
    case RecoverOp(key, requeue, popped, dead, expired, unsent, late) =>
      b.RecoverOp? && b == RecoverOp(key, requeue, b.popped, b.dead, expired, unsent, late)
    case CloseChannelOp(key, taking) => b.CloseChannelOp? && b.key == key
    case CloseConnectionOp(conn, plan, rest, doomed) => b.CloseConnectionOp? && b.conn == conn
    case _ => b == a
  }

  lemma SettlePossible(s: VHost, key: ChannelKey, tag: nat, multiple: bool) returns (popped: seq<Record>)
    requires Sound(s, multiset{})
    ensures Pops(s, key, tag, multiple, popped)
  {
    popped := [];
    if key in s.channels && Settles(s.channels[key], tag, multiple).Some? {
      var tags := Settles(s.channels[key], tag, multiple).value;
      popped := ListExists(s.channels[key], tags);
    }
  }

  lemma RecoverPossible(s: VHost, key: ChannelKey) returns (popped: seq<Record>, dead: seq<Record>)
    requires Sound(s, multiset{})
    ensures key in s.channels ==> Lists(popped, s.channels[key], Requeueable(s.channels[key]))
    ensures key in s.channels ==> Lists(dead, s.channels[key], DeadTags(s.channels[key]))
  {
    popped, dead := [], [];
    if key in s.channels {
      popped := ListExists(s.channels[key], Requeueable(s.channels[key]));
      dead := ListExists(s.channels[key], DeadTags(s.channels[key]));
    }
  }

  /** What a step of a run is allowed to be leaves out no request: in every reachable state, each has a step. */
  lemma AlwaysPossible(s: VHost, op: Op) returns (op': Op)
    requires Sound(s, multiset{})
    ensures SameRequest(op, op') && Allowed(s, op')
  {
    hide Sound, Lists, Takes, ConnectionOrder, CancelChannelConsumers, Pops;
    match op
    case AckOp(key, tag, multiple, _) =>
      var popped := SettlePossible(s, key, tag, multiple);
      op' := AckOp(key, tag, multiple, popped);
    case NackOp(key, tag, multiple, requeue, _, expired) =>
      var popped := SettlePossible(s, key, tag, multiple);
      op' := NackOp(key, tag, multiple, requeue, popped, expired);
    case RecoverOp(key, requeue, _, _, expired, unsent, late) =>
      var popped, dead := RecoverPossible(s, key);
      op' := RecoverOp(key, requeue, popped, dead, expired, unsent, late);
    case CloseChannelOp(key, _) =>
      var t := ClosePossible(s, key, multiset{});
      op' := CloseChannelOp(key, t);
    case CloseConnectionOp(conn, _, _, _) =>
      var plan, rest, doomed := CloseConnectionPossible(s, conn);
      op' := CloseConnectionOp(conn, plan, rest, doomed);
    case _ => op' := op;
  }

  // ---------------------------------------------------------------- the handlers on a channel's state

  /** A step that a run may take. */
  ghost predicate IsStep(s: VHost, op: Op, s': VHost) {
    Allowed(s, op) && s' == Step(s, op)
  }

  /** state is the delivery state that the host keeps for the channel. */
  ghost predicate Keeps(host: Host, key: ChannelKey, state: ChannelDeliveryState)
    reads host, state
  {
    state.Valid() && key in host.channels && host.channels[key] == state.View()
  }

  /** The records of the tags, as the account of what leaves with a channel's state needs them. */
  method ListRecords(ch: Channel, tags: set<nat>) returns (records: seq<Record>)
    requires WellFormed(ch) && tags <= ch.records.Keys
    ensures Lists(records, ch, tags)
  {
    records := [];
    var todo := tags;
    while todo != {}
      invariant todo <= tags && Lists(records, ch, tags - todo)
    {
      var t: nat :| t in todo;
      ListsAppend(records, ch, tags - todo, ch.records[t]);
      assert tags - todo + {t} == tags - (todo - {t});
      records := records + [ch.records[t]];
      todo := todo - {t};
    }
    assert tags - todo == tags;
  }

  lemma AckIsStep(s: VHost, key: ChannelKey, tag: nat, multiple: bool, popped: seq<Record>)
    requires key in s.channels
    requires Settles(s.channels[key], tag, multiple).Some? ==>
               Lists(popped, s.channels[key], Settles(s.channels[key], tag, multiple).value)
    ensures IsStep(s, AckOp(key, tag, multiple, popped), Ack(s, key, tag, multiple, popped))
    ensures Ack(s, key, tag, multiple, popped).channels
            == s.channels[key := AfterSettling(s.channels[key], tag, multiple)]
  {
    hide Settles, Without, Lists;
  }

  lemma NackIsStep(s: VHost, key: ChannelKey, tag: nat, multiple: bool, requeue: bool, popped: seq<Record>,
                   expired: set<Message>)
    requires key in s.channels
    requires Settles(s.channels[key], tag, multiple).Some? ==>
               Lists(popped, s.channels[key], Settles(s.channels[key], tag, multiple).value)
    ensures IsStep(s, NackOp(key, tag, multiple, requeue, popped, expired),
                   Nack(s, key, tag, multiple, requeue, popped, expired))
    ensures Nack(s, key, tag, multiple, requeue, popped, expired).channels
            == s.channels[key := AfterSettling(s.channels[key], tag, multiple)]
  {
    hide Settles, Without, Lists, NackEach;
    if Settles(s.channels[key], tag, multiple).Some? {
      var rest := Without(s.channels[key], Settles(s.channels[key], tag, multiple).value);
      NackEachChannels(s.(channels := s.channels[key := rest]), popped, requeue, expired);
    }
  }

  /** The channel without what the tag settles. */
  function AfterSettling(ch: Channel, tag: nat, multiple: bool): Channel {
    match Settles(ch, tag, multiple)
    case None => ch
    case Some(tags) => Without(ch, tags)
  }

  /** HandleBasicAck with popUnackedRecords on the state. */
  method AckOn(host: Host, state: ChannelDeliveryState, key: ChannelKey, tag: nat, multiple: bool)
    returns (ok: bool, popped: seq<Record>)
    requires Keeps(host, key, state)
    modifies host, state
    ensures Keeps(host, key, state) && IsStep(old(host.View()), AckOp(key, tag, multiple, popped), host.View())
    ensures ok == Settles(old(state.View()), tag, multiple).Some?
  {
    ghost var s := host.View();
    hide Lists, Settles, Without, IsStep, Ack, Indexed, WellFormed;
    var removed := state.PopUnackedRecords(tag, multiple);
    popped := if removed.Some? then removed.value else [];
    AckIsStep(s, key, tag, multiple, popped);
    ok := host.HandleBasicAck(key, tag, multiple, popped);
  }

  /** HandleBasicNack, the same. */
  method NackOn(host: Host, state: ChannelDeliveryState, key: ChannelKey, tag: nat, multiple: bool, requeue: bool,
                expired: set<Message>)
    returns (ok: bool, popped: seq<Record>)
    requires Keeps(host, key, state)
    modifies host, state
    ensures Keeps(host, key, state)
            && IsStep(old(host.View()), NackOp(key, tag, multiple, requeue, popped, expired), host.View())
    ensures ok == Settles(old(state.View()), tag, multiple).Some?
  {
    ghost var s := host.View();
    hide Lists, Settles, Without, IsStep, Nack, Indexed, WellFormed;
    var removed := state.PopUnackedRecords(tag, multiple);
    popped := if removed.Some? then removed.value else [];
    NackIsStep(s, key, tag, multiple, requeue, popped, expired);
    ok := host.HandleBasicNack(key, tag, multiple, requeue, popped, expired);
  }

  /** What deliverToConsumer tracks on the state while recover goes through the records. s is the host once
      they are taken. */
  method TrackRecovered(s: VHost, state: ChannelDeliveryState, key: ChannelKey, records: seq<Record>, requeue: bool,
                        expired: set<Message>, unsent: set<Message>, late: set<Message>)
    requires state.Valid() && key in s.channels && s.channels[key] == state.View()
    requires RegistryOk(s.reg) && forall r | r in records :: Recoverable(s.queues, s.reg, key, r)
    modifies state
    ensures state.Valid()
            && state.View() == ChannelOf(RecoverEach(s, key, records, requeue, expired, unsent, late), key)
  {
    hide RegistryOk, Recoverable, RecoverOne, FateOf;
    ghost var cur := s;
    for i := 0 to |records|
      invariant state.Valid() && key in cur.channels && cur.channels[key] == state.View()
      invariant cur.reg == s.reg && cur.queues.Keys == s.queues.Keys
      invariant forall r | r in records[i..] :: Recoverable(cur.queues, cur.reg, key, r)
      invariant RecoverEach(cur, key, records[i..], requeue, expired, unsent, late)
                == RecoverEach(s, key, records, requeue, expired, unsent, late)
    {
      var r := records[i];
      assert records[i..][0] == r && records[i..][1..] == records[i + 1..] && r in records[i..];
      StateWellFormed(state);
      RecoverOneChannel(cur, key, r, requeue, expired, unsent, late);
      RecoverOneKeeps(cur, key, r, requeue, expired, unsent, late);
      RootsKept(cur, key, records[i..], requeue, expired, unsent, late);
      TargetOf(cur, key, r, requeue, expired, unsent);
      SameFate(s, cur, key, r, requeue, expired, unsent);
      TrackFate(state, FateOf(s, key, r, requeue, expired, unsent), r);
      cur := RecoverOne(cur, key, r, requeue, expired, unsent, late);
    }
  }

  /** One record: tracked under the next tag, or tracked and deleted again when the send fails. */
  method TrackFate(state: ChannelDeliveryState, fate: Fate, r: Record)
    requires state.Valid()
    requires fate.Redelivered? ==>
               fate.c.tag == r.consumerTag && fate.c.id == r.owner && fate.c.queue == r.queue && !r.fromGet
               && !r.consumerCancelled
    modifies state
    ensures state.Valid()
    ensures state.View() == match fate
                            case Redelivered(c) => Retagged(old(state.View()), r)
                            case Bounced(c) => old(state.View()).(last := old(state.View()).last + 1)
                            case _ => old(state.View())
  {
    StateWellFormed(state);
    hide Indexed;
    match fate
    case Redelivered(c) =>
      var tag := state.TrackConsumerDelivery(c.tag, c.queue, r.msg, c.id);
    case Bounced(c) =>
      Host.FreshTag(state.View(), c, r.msg);
      var tag := state.TrackConsumerDelivery(c.tag, c.queue, r.msg, c.id);
      state.DeleteUnackedDelivery(state.unackedByTag[tag]);
    case _ =>
  }

  lemma TagsHeld(ch: Channel)
    ensures DeadTags(ch) <= ch.records.Keys && Requeueable(ch) <= ch.records.Keys
  {
  }

  lemma HostWellFormed(s: VHost)
    requires Sound(s, multiset{})
    ensures ChannelsOk(s.channels)
  {
  }

  /** HandleBasicRecover with its locked part on the state, which it leaves empty. */
  method TakeAndRecover(host: Host, state: ChannelDeliveryState, key: ChannelKey, requeue: bool,
                        expired: set<Message>, unsent: set<Message>, late: set<Message>)
    returns (popped: seq<Record>, dead: seq<Record>)
    requires Keeps(host, key, state) && ChannelsOk(host.channels)
    modifies host, state
    ensures Lists(popped, old(state.View()), Requeueable(old(state.View())))
            && Lists(dead, old(state.View()), DeadTags(old(state.View())))
    ensures state.Valid() && state.View() == old(state.View()).(records := map[])
    ensures host.View() == Recover(old(host.View()), key, requeue, popped, dead, expired, unsent, late)
  {
    StateWellFormed(state);
    TagsHeld(state.View());
    hide WellFormed, ChannelsOk, Lists, Recover, Indexed, DeadTags, Requeueable;
    dead := ListRecords(state.View(), DeadTags(state.View()));
    popped := state.TakeForRecover();
    var ok := host.HandleBasicRecover(key, requeue, popped, dead, expired, unsent, late);
  }

  /** And then with what it delivers again tracked there. */
  method RecoverOn(host: Host, state: ChannelDeliveryState, key: ChannelKey, requeue: bool, expired: set<Message>,
                   unsent: set<Message>, late: set<Message>)
    returns (popped: seq<Record>, dead: seq<Record>)
    requires Keeps(host, key, state) && Sound(host.View(), multiset{})
    modifies host, state
    ensures Keeps(host, key, state)
    ensures IsStep(old(host.View()), RecoverOp(key, requeue, popped, dead, expired, unsent, late), host.View())
  {
    HostWellFormed(host.View());
    hide WellFormed, ChannelsOk, Sound, Lists, Recover, Indexed, IsStep, RegistryOk, Recoverable, RecoverEach,
      MessagesOf;
    var s := host.View();
    popped, dead := TakeAndRecover(host, state, key, requeue, expired, unsent, late);
    RecoverIsStep(s, key, requeue, popped, dead, expired, unsent, late);
    TrackRecovered(Emptied(s, key, dead), state, key, popped, requeue, expired, unsent, late);
  }

  lemma RecoverIsStep(s: VHost, key: ChannelKey, requeue: bool, popped: seq<Record>, dead: seq<Record>,
                      expired: set<Message>, unsent: set<Message>, late: set<Message>)
    requires Sound(s, multiset{}) && key in s.channels
    requires Lists(popped, s.channels[key], Requeueable(s.channels[key]))
             && Lists(dead, s.channels[key], DeadTags(s.channels[key]))
    ensures IsStep(s, RecoverOp(key, requeue, popped, dead, expired, unsent, late),
                   Recover(s, key, requeue, popped, dead, expired, unsent, late))
    ensures RegistryOk(s.reg) && forall r | r in popped :: Recoverable(s.queues, s.reg, key, r)
    ensures var s' := Recover(s, key, requeue, popped, dead, expired, unsent, late);
            key in s'.channels
            && s'.channels[key]
              == ChannelOf(RecoverEach(Emptied(s, key, dead), key, popped, requeue, expired, unsent, late), key)
  {
    RecoverableRecords(s, key, popped);
    hide Recoverable;
    assert RegistryOk(s.reg);
    hide Sound, RegistryOk;
    assert Allowed(s, RecoverOp(key, requeue, popped, dead, expired, unsent, late));
    hide Lists, RecoverEach, Grows, Allowed;
    RecoverAllGrows(s, key, requeue, popped, dead, expired, unsent, late);
    GrowsHas(s.channels, Recover(s, key, requeue, popped, dead, expired, unsent, late).channels, key);
  }

  lemma GrowsHas(a: map<ChannelKey, Channel>, b: map<ChannelKey, Channel>, k: ChannelKey)
    requires Grows(a, b) && k in a
    ensures k in b
  {
  }

  lemma CancelledChannel(s: VHost, key: ChannelKey, c: Consumer)
    requires key in s.channels
    ensures var s' := CancelLocked(s, c);
            var ch := if HomeOf(c) == key then DetachConsumer(s.channels[key], c.tag) else s.channels[key];
            && key in s'.channels
            && s'.channels[key] == if c.queue in s.queues && c.queue !in s'.queues then DetachQueue(ch, c.queue) else ch
  {
    CancelInTwoSteps(s, c);
    hide CancelLocked, Unregister, DetachConsumer, DetachQueue, RemoveQueueConsumers, Get, Held;
    var s1 := s.(reg := Unregister(s.reg, c), channels := Detach(s.channels, c));
    assert key in s1.channels && s1.channels[key] == if HomeOf(c) == key then DetachConsumer(s.channels[key], c.tag)
      else s.channels[key];
    assert CancelLocked(s, c) == if AutoDeletes(s1, c.queue) then DeleteQueue(s1, c.queue) else s1;
  }

  /** cancelConsumerLocked with what it detaches on the state. */
  method CancelOn(host: Host, state: ChannelDeliveryState, key: ChannelKey, c: Consumer)
    requires Keeps(host, key, state)
    modifies host, state
    ensures Keeps(host, key, state) && host.View() == CancelLocked(old(host.View()), c)
  {
    hide Indexed, CancelLocked, DetachConsumer, DetachQueue;
    CancelledChannel(host.View(), key, c);
    var known := c.queue in host.queues;
    host.CancelConsumerLocked(c);
    if HomeOf(c) == key { state.DetachConsumerDeliveries(c.tag); }
    if known && c.queue !in host.queues { state.DetachQueueDeliveries(c.queue); }
  }

  /** cancelChannelConsumersLocked, the same. */
  method CancelChannelOn(host: Host, state: ChannelDeliveryState, key: ChannelKey)
    requires Keeps(host, key, state)
    modifies host, state
    ensures Keeps(host, key, state) && host.View() == CancelChannelConsumers(old(host.View()), key)
  {
    hide CancelLocked, Indexed;
    var copy := if key in host.byChannel then host.byChannel[key] else [];
    ghost var was := host.View();
    for i := 0 to |copy|
      invariant Keeps(host, key, state) && CancelListed(host.View(), key, copy[i..]) == CancelListed(was, key, copy)
    {
      var c := copy[i];
      assert copy[i..] == [c] + copy[i + 1..];
      if c.conn == key.conn && c.Key() in host.consumers && host.consumers[c.Key()] == c {
        CancelOn(host, state, key, c);
      }
    }
    host.byChannel := host.byChannel - {key};
  }

  /** ReleaseChannelDeliveries: the cancel, and then takeChannelDeliveriesLocked on the state as it left it. */
  method ReleaseOn(host: Host, state: ChannelDeliveryState, key: ChannelKey) returns (t: Taking)
    requires Keeps(host, key, state)
    modifies host, state
    ensures IsStep(old(host.View()), CloseChannelOp(key, t), host.View())
  {
    hide CancelChannelConsumers, IsStep;
    CancelChannelOn(host, state, key);
    var s := host.View();
    t := TakingOf(s, state, key);
    ReleaseIsStep(old(host.View()), key, t);
    hide RequeueWork, DropChannel, Takes;
    var more := host.TakeDeliveries(key, t);
    host.Requeue(more);
  }

  /** What is taken of the state, with what its disappearance leaves to be accounted for. */
  method TakingOf(s: VHost, state: ChannelDeliveryState, key: ChannelKey) returns (t: Taking)
    requires state.Valid() && key in s.channels && s.channels[key] == state.View()
    ensures Takes(s, key, t)
  {
    StateWellFormed(state);
    TagsHeld(state.View());
    hide IsWork, Lists, WellFormed, Indexed, DeadTags, Requeueable, LiveTags;
    var ch := state.View();
    var work := TakeChannelDeliveries(s, state);
    var dead := ListRecords(ch, DeadTags(ch));
    var stranded := ListRecords(ch, Requeueable(ch) - LiveTags(s, ch));
    t := Taking(work, dead, stranded);
  }

  lemma ReleaseIsStep(s: VHost, key: ChannelKey, t: Taking)
    requires var s1 := CancelChannelConsumers(s, key); key in s1.channels && Takes(s1, key, t)
    ensures var s1 := CancelChannelConsumers(s, key);
            IsStep(s, CloseChannelOp(key, t), RequeueWork(DropChannel(s1, key, t.dead, t.stranded), t.work))
  {
    hide CancelChannelConsumers, RequeueWork, DropChannel, Takes;
  }
}
