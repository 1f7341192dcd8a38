/**
 Limits: what an attempt of the delivery loop does and when it does nothing; a paused channel and the limit
 on a whole channel, over runs; and which limit a new consumer gets.
 */
module LimitResults {
  import opened Collections
  import opened ChannelDelivery
  import opened VHostState
  import opened RegistryProofs
  import opened StructureProofs
  import opened HandlerProofs
  import opened DeliveryProofs
  import opened RecoverProofs
  import opened CloseProofs
  import opened RecoverResults
  import opened CancelResults
  import opened CloseResults
  import opened TagProofs
  import opened VHostRuns

  // ---------------------------------------------------------------- one attempt

  /** An attempt. The consumer must be active and its channel must let it through: flow is active, a limit on
      the whole channel is not reached by all of its deliveries, and otherwise the consumer's own limit is not
      reached by the consumer's. Then a send that succeeds delivers the message in the loop's hand, tracked
      under the channel's next tag or settled at once, and one that fails removes the consumer. If not,
      nothing happens. */
  lemma AttemptExactly(s: VHost, queue: Name, i: nat, sent: bool)
    requires queue in s.queues && s.queues[queue].hand.Some? && i < |Get(s.reg.byQueue, queue)|
    ensures var q, c, s' := s.queues[queue], Get(s.reg.byQueue, queue)[i], Attempt(s, queue, i, sent);
            var m, ch, ch' := q.hand.value, ChannelOf(s, HomeOf(c)), ChannelOf(s', HomeOf(c));
            var through :=
              && c.id in s.reg.active
              && (HomeOf(c) in s.channels ==>
                  && ch.qos.flowActive
                  && (ch.qos.prefetchGlobal && ch.qos.globalPrefetch > 0 ==> |ch.records| < ch.qos.globalPrefetch)
                  && (!ch.qos.prefetchGlobal && c.prefetch > 0 ==> |OfConsumer(ch, c.tag)| < c.prefetch));
            && (!through ==> s' == s)
            && (through && sent ==>
                && s'.queues == s.queues[queue := q.(hand := None)] && s'.reg == s.reg
                && s'.redelivered == s.redelivered - {m.id}
                && s'.channels == s.channels[HomeOf(c) := ch'] && ch'.qos == ch.qos && ch'.last == ch.last + 1
                && ch'.records == (if c.noAck then ch.records
                                   else ch.records[ch.last + 1 := Record(ch.last + 1, c.tag, false, c.queue, m, c.id,
                                                                         false, false)])
                && s'.ledger == (if c.noAck then s.ledger.(autoAcked := s.ledger.autoAcked + multiset{m})
                                 else s.ledger))
            && (through && !sent ==>
                && c.id !in s'.reg.active && s'.ledger == s.ledger.(gone := s'.ledger.gone)
                && s'.redelivered == s.redelivered
                && ch'.records.Keys == ch.records.Keys && ch'.last == ch.last + 1)
  {
    var c := Get(s.reg.byQueue, queue)[i];
    NoneOf(c.tag);
    hide CancelLocked;
    var s1 := Deliver(s, c, s.queues[queue].hand.value, false);
    FailedLeaves(s1, c);
  }

  lemma NoneOf(tag: Name)
    ensures OfConsumer(EMPTY_CHANNEL, tag) == {}
  {
  }

  lemma FailedLeaves(s: VHost, c: Consumer)
    requires HomeOf(c) in s.channels
    ensures var s' := CancelLocked(s, c);
            && c.id !in s'.reg.active && s'.ledger == s.ledger.(gone := s'.ledger.gone)
            && s'.redelivered == s.redelivered
            && HomeOf(c) in s'.channels && s'.channels[HomeOf(c)].records.Keys == s.channels[HomeOf(c)].records.Keys
            && s'.channels[HomeOf(c)].last == s.channels[HomeOf(c)].last
  {
    CancelInTwoSteps(s, c);
    hide CancelLocked, RemoveFrom;
    var s1 := LeftBy(s, c);
    if c.queue in s1.queues { DeletedLeaves(s1, c.queue, c.id, HomeOf(c)); }
    hide DeleteQueue;
  }

  lemma DeletedLeaves(s: VHost, n: Name, id: nat, key: ChannelKey)
    requires n in s.queues && id !in s.reg.active && key in s.channels
    ensures var s' := DeleteQueue(s, n);
            && id !in s'.reg.active && s'.ledger == s.ledger.(gone := s'.ledger.gone) && s'.redelivered == s.redelivered
            && key in s'.channels && s'.channels[key].records.Keys == s.channels[key].records.Keys
            && s'.channels[key].last == s.channels[key].last
  {
    DropsOnly(s.reg, Get(s.reg.byQueue, n));
    hide Held, DropConsumers;
  }

  lemma {:induction false} DropsOnly(reg: Registry, cs: seq<Consumer>)
    ensures DropConsumers(reg, cs).active <= reg.active
    decreases |cs|
  {
    if cs != [] { DropsOnly(DropConsumer(reg, cs[0]), cs[1..]); }
  }

  // ---------------------------------------------------------------- a channel over one step

  /** Deliveries may have left the channel; nothing else has happened to it but marks. */
  ghost predicate Sheds(ch: Channel, ch': Channel) {
    ch'.qos == ch.qos && ch'.last == ch.last && ch'.records.Keys <= ch.records.Keys
  }

  ghost predicate ShedsAt(s: VHost, s': VHost, key: ChannelKey) {
    key in s'.channels ==> key in s.channels && Sheds(s.channels[key], s'.channels[key])
  }

  lemma ShrinksSheds(s: VHost, s': VHost, lost: set<Name>, key: ChannelKey)
    requires Shrinks(s, s', lost)
    ensures ShedsAt(s, s', key)
  {
  }

  /** The handlers that neither deliver nor set limits. */
  predicate Plain(op: Op) {
    !op.AttemptOp? && !op.GetOp? && !op.RecoverOp? && !op.QosOp? && !op.FlowOp?
  }

  lemma CancelOpSheds(s: VHost, channel: nat, tag: Name, key: ChannelKey)
    requires Sound(s, multiset{})
    ensures ShedsAt(s, Cancel(s, channel, tag), key)
    ensures key in s.channels ==> key in Cancel(s, channel, tag).channels
  {
    hide Structure, BooksOk, CancelLocked, Shrinks, Orphans, Sheds;
    assert key in s.channels ==> Sheds(s.channels[key], s.channels[key]) by { NotShed(s, key); }
    var k := ConsumerKey(channel, tag);
    if k in s.reg.consumers {
      var c := s.reg.consumers[k];
      CancelShrinks(s, c);
      ShrinksSheds(s, CancelLocked(s, c), Orphans(s.queues, Members(s.reg), Members(s.reg) - {c}), key);
      assert key in s.channels.Keys ==> key in CancelLocked(s, c).channels.Keys;
    }
  }

  lemma NotShed(s: VHost, key: ChannelKey)
    ensures key in s.channels ==> Sheds(s.channels[key], s.channels[key])
  {
  }

  lemma CloseChannelSheds(s: VHost, closed: ChannelKey, t: Taking, key: ChannelKey)
    requires Sound(s, multiset{})
    ensures ShedsAt(s, CloseChannel(s, closed, t), key) && closed !in CloseChannel(s, closed, t).channels
    ensures key in s.channels && key != closed ==> key in CloseChannel(s, closed, t).channels
  {
    hide *;
    var s1 := CancelChannelConsumers(s, closed);
    CancelChannelShrinks(s, closed, multiset{});
    ShrinksSheds(s, s1, Orphans(s.queues, Members(s.reg), Members(s1.reg)), key);
    RequeueWorkChannels(DropChannel(s1, closed, t.dead, t.stranded), t.work);
    ClosedChannels(s, s1, closed, t);
    assert key in s.channels.Keys <==> key in s1.channels.Keys;
    ShedsOn(s, s1, CloseChannel(s, closed, t), closed, key);
  }

  lemma ClosedChannels(s: VHost, s1: VHost, key: ChannelKey, t: Taking)
    requires s1 == CancelChannelConsumers(s, key)
    requires var s2 := DropChannel(s1, key, t.dead, t.stranded); RequeueWork(s2, t.work).channels == s2.channels
    ensures CloseChannel(s, key, t).channels == s1.channels - {key}
  {
    hide CancelChannelConsumers, RequeueWork;
  }

  lemma ShedsOn(s: VHost, s1: VHost, s': VHost, closed: ChannelKey, key: ChannelKey)
    requires ShedsAt(s, s1, key) && s'.channels == s1.channels - {closed}
    ensures ShedsAt(s, s', key) && closed !in s'.channels
  {
  }

  lemma PlainSheds(s: VHost, op: Op, key: ChannelKey)
    requires Sound(s, multiset{}) && Allowed(s, op) && Plain(op)
    ensures ShedsAt(s, Step(s, op), key)
    ensures key in s.channels && key !in Step(s, op).channels <==>
            && key in s.channels
            && ((op.CloseChannelOp? && op.key == key) || (op.CloseConnectionOp? && op.conn == key.conn))
  {
    NotShed(s, key);
    hide Sound, Sheds, DeclareQueue, DeleteQueue, PurgeAll, Publish, Cancel, GiveBack, NackEach, CloseChannel,
      CloseConnection;
    hide ConnectionOrder, CancelChannelConsumers, Takes, Register, NewConsumer, Lists, Settles;
    match op
    case DeclareOp(name, conn, autoDelete, exclusive, capacity, maxLength) =>
      DeclareChannels(s, name, conn, autoDelete, exclusive, capacity, maxLength);
    case DeleteOp(name) => if name in s.queues { DeleteSheds(s, name, key); }
    case PurgeOp(name, conn, expired) => if name in s.queues { PurgeChannels(s, name, expired); }
    case PublishOp(targets, id) => PublishChannels(s, targets, id);
    case ConsumeOp(conn, channel, tag, generated, queue, noAck, exclusive) =>
    case CancelOp(channel, tag) => CancelOpSheds(s, channel, tag, key);
    case TakeOp(queue, isExpired) =>
    case GiveBackOp(queue) => GiveBackChannels(s, queue);
    case AckOp(k, tag, multiple, popped) => AckSheds(s, k, tag, multiple, popped, key);
    case NackOp(k, tag, multiple, requeue, popped, expired) =>
      NackSheds(s, k, tag, multiple, requeue, popped, expired, key);
    case CloseChannelOp(k, taking) => CloseChannelSheds(s, k, taking, key);
    case CloseConnectionOp(conn, plan, rest, doomed) => CloseConnectionSheds(s, conn, plan, rest, doomed, key);
  }

  lemma DeclareChannels(s: VHost, name: Name, conn: Name, autoDelete: bool, exclusive: bool, capacity: nat,
                        maxLength: nat)
    ensures DeclareQueue(s, name, conn, autoDelete, exclusive, capacity, maxLength).channels == s.channels
  {
  }

  lemma GiveBackChannels(s: VHost, n: Name)
    ensures GiveBack(s, n).channels == s.channels
  {
    hide LettersOf, Excess;
  }

  lemma DeleteSheds(s: VHost, n: Name, key: ChannelKey)
    requires n in s.queues
    ensures ShedsAt(s, DeleteQueue(s, n), key) && (key in s.channels ==> key in DeleteQueue(s, n).channels)
  {
    DeleteQueueShrinks(s, n);
    hide DeleteQueue;
    ShrinksSheds(s, DeleteQueue(s, n), {n}, key);
    assert key in s.channels.Keys ==> key in DeleteQueue(s, n).channels.Keys;
  }

  lemma AckSheds(s: VHost, k: ChannelKey, tag: nat, multiple: bool, popped: seq<Record>, key: ChannelKey)
    ensures ShedsAt(s, Ack(s, k, tag, multiple, popped), key)
    ensures key in s.channels ==> key in Ack(s, k, tag, multiple, popped).channels
  {
    hide MessagesOf, Settles;
  }

  lemma NackSheds(s: VHost, k: ChannelKey, tag: nat, multiple: bool, requeue: bool, popped: seq<Record>,
                  expired: set<Message>, key: ChannelKey)
    ensures ShedsAt(s, Nack(s, k, tag, multiple, requeue, popped, expired), key)
    ensures key in s.channels ==> key in Nack(s, k, tag, multiple, requeue, popped, expired).channels
  {
    hide NackEach, Settles;
    if k in s.channels && Settles(s.channels[k], tag, multiple).Some? {
      var tags := Settles(s.channels[k], tag, multiple).value;
      NackEachChannels(s.(channels := s.channels[k := Without(s.channels[k], tags)]), popped, requeue, expired);
    }
  }

  lemma CloseConnectionSheds(s: VHost, conn: Name, plan: seq<(ChannelKey, Taking)>, rest: seq<Consumer>,
                             doomed: seq<Name>, key: ChannelKey)
    requires Sound(s, multiset{}) && ConnectionOrder(s, conn, plan, rest, doomed)
    ensures var s' := CloseConnection(s, conn, plan, rest, doomed);
            ShedsAt(s, s', key) && (key in s'.channels <==> key in s.channels && key.conn != conn)
  {
    hide Sound, ConnectionOrder, CloseConnection, GoesBackById;
    CloseConnectionElse(s, conn, plan, rest, doomed, 0, key);
  }

  // ---------------------------------------------------------------- the steps that deliver

  /** What one delivery may do to a channel. */
  ghost predicate AddsOne(ch: Channel, ch': Channel) {
    && ch'.qos == ch.qos && ch'.last == ch.last + 1
    && (ch'.records.Keys <= ch.records.Keys || ch'.records.Keys == ch.records.Keys + {ch.last + 1})
  }

  /** An attempt changes the channel of the consumer it is made for, and if it adds a delivery to it then the
      throttle let it. */
  lemma AttemptChannel(s: VHost, queue: Name, i: nat, sent: bool, key: ChannelKey)
    requires Sound(s, multiset{})
    ensures var s' := Attempt(s, queue, i, sent);
            && (key in s.channels ==> key in s'.channels)
            && (ShedsAt(s, s', key) || AddsOne(ChannelOf(s, key), ChannelOf(s', key)))
            && (key in s.channels && (!s.channels[key].qos.flowActive
                                      || (s.channels[key].qos.prefetchGlobal && s.channels[key].qos.globalPrefetch > 0
                                          && |s.channels[key].records| >= s.channels[key].qos.globalPrefetch)) ==>
                s'.channels[key].records.Keys <= s.channels[key].records.Keys)
  {
    hide Structure, BooksOk, CancelLocked, OfConsumer, Shrinks, Orphans;
    if queue in s.queues && s.queues[queue].hand.Some? && i < |Get(s.reg.byQueue, queue)| {
      var q, c := s.queues[queue], Get(s.reg.byQueue, queue)[i];
      if c.id in s.reg.active && !Throttled(s, c) && !sent {
        var s1 := Deliver(s, c, q.hand.value, false);
        ConsumerAt(s, queue, i);
        BumpSound(s, HomeOf(c), multiset{});
        CancelShrinks(s1, c);
        ShrinksSheds(s1, CancelLocked(s1, c), Orphans(s1.queues, Members(s1.reg), Members(s1.reg) - {c}), key);
        assert key in s1.channels.Keys <==> key in CancelLocked(s1, c).channels.Keys;
      }
    }
  }

  lemma GetChannel(s: VHost, conn: Name, channel: nat, n: Name, noAck: bool, isExpired: bool, key: ChannelKey)
    ensures var s' := GetMessage(s, conn, channel, n, noAck, isExpired);
            && (key in s.channels ==> key in s'.channels) && ChannelOf(s', key).qos == ChannelOf(s, key).qos
            && (key != ChannelKey(conn, channel) ==> ShedsAt(s, s', key))
  {
  }

  /** A recover works on its own channel, and leaves the limits of all. */
  lemma {:induction false} RecoverElsewhere(s: VHost, key: ChannelKey, records: seq<Record>, requeue: bool,
                                            expired: set<Message>, unsent: set<Message>, late: set<Message>)
    requires RegistryOk(s.reg) && key in s.channels && WellFormed(s.channels[key])
    requires forall r | r in records :: Recoverable(s.queues, s.reg, key, r)
    ensures var s' := RecoverEach(s, key, records, requeue, expired, unsent, late);
            && key in s'.channels && s'.channels == s.channels[key := s'.channels[key]]
            && s'.channels[key].qos == s.channels[key].qos
    decreases |records|
  {
    hide RegistryOk, Recoverable, RecoverOne, FateOf, WellFormed;
    if records != [] {
      var r, rest := records[0], records[1..];
      var s' := RecoverOne(s, key, r, requeue, expired, unsent, late);
      assert r in records;
      RecoverOneChannel(s, key, r, requeue, expired, unsent, late);
      RecoverOneWellFormed(s, key, r, requeue, expired, unsent, late);
      RecoverOneKeeps(s, key, r, requeue, expired, unsent, late);
      RootsKept(s, key, records, requeue, expired, unsent, late);
      RecoverElsewhere(s', key, rest, requeue, expired, unsent, late);
    } else {
      assert s.channels == s.channels[key := s.channels[key]];
    }
  }

  lemma RecoverChannels(s: VHost, key: ChannelKey, requeue: bool, popped: seq<Record>, dead: seq<Record>,
                        expired: set<Message>, unsent: set<Message>, late: set<Message>, other: ChannelKey)
    requires Sound(s, multiset{}) && key in s.channels
    requires Lists(popped, s.channels[key], Requeueable(s.channels[key]))
    ensures var s' := Recover(s, key, requeue, popped, dead, expired, unsent, late);
            && (other in s.channels <==> other in s'.channels) && ChannelOf(s', other).qos == ChannelOf(s, other).qos
            && (other != key ==> ShedsAt(s, s', other))
  {
    hide BooksOk, Lists, RecoverEach;
    RecoverableRecords(s, key, popped);
    var s1 := Emptied(s, key, dead);
    assert WellFormed(s1.channels[key]) by { assert WellFormed(s.channels[key]); }
    hide Structure, WellFormed, Recoverable;
    RegistryOf(s, multiset{});
    RecoverElsewhere(s1, key, popped, requeue, expired, unsent, late);
  }

  // ---------------------------------------------------------------- the limits of a channel, over runs

  /** What a handler does to the limits of the channel. */
  function QosAfter(qos: Qos, op: Op, key: ChannelKey): Qos {
    match op
    case QosOp(k, count, global) =>
      if k != key then qos
      else if global then Qos(count, qos.nextPrefetch, true, qos.flowActive)
      else Qos(qos.globalPrefetch, count, qos.prefetchGlobal, qos.flowActive)
    case FlowOp(k, active) =>
      if k != key then qos else Qos(qos.globalPrefetch, qos.nextPrefetch, qos.prefetchGlobal, active)
    case CloseChannelOp(k, taking) => if k != key then qos else Qos(0, 0, false, true)
    case CloseConnectionOp(conn, plan, rest, doomed) => if conn != key.conn then qos else Qos(0, 0, false, true)
    case _ => qos
  }

  lemma PlainQos(s: VHost, op: Op, key: ChannelKey)
    requires Sound(s, multiset{}) && Allowed(s, op) && Plain(op)
    ensures ChannelOf(Step(s, op), key).qos == QosAfter(ChannelOf(s, key).qos, op, key)
  {
    hide Sound, Step, Allowed;
    PlainSheds(s, op, key);
  }

  lemma QosStep(s: VHost, op: Op, key: ChannelKey)
    requires Sound(s, multiset{}) && Allowed(s, op)
    ensures ChannelOf(Step(s, op), key).qos == QosAfter(ChannelOf(s, key).qos, op, key)
  {
    if Plain(op) {
      hide Sound, Step, Allowed, QosAfter;
      PlainQos(s, op, key);
    } else {
      hide Sound, Attempt, GetMessage, Recover, Lists;
      match op
      case AttemptOp(queue, i, sent) => AttemptChannel(s, queue, i, sent, key);
      case GetOp(conn, channel, queue, noAck, isExpired) => GetChannel(s, conn, channel, queue, noAck, isExpired, key);
      case RecoverOp(k, requeue, popped, dead, expired, unsent, late) =>
        if k in s.channels { RecoverChannels(s, k, requeue, popped, dead, expired, unsent, late, key); }
        else { NothingSettled(s, op); }
      case QosOp(k, count, global) =>
      case FlowOp(k, active) =>
    }
  }

  /** The limits that a run leaves a channel: those it was given since its state was last dropped. */
  function Configured(qos: Qos, ops: seq<Op>, key: ChannelKey): Qos
    decreases |ops|
  {
    if ops == [] then qos else Configured(QosAfter(qos, ops[0], key), ops[1..], key)
  }

  lemma {:induction false} QosRun(s: VHost, ops: seq<Op>, s': VHost, key: ChannelKey)
    requires Sound(s, multiset{}) && Run(s, ops, s')
    ensures ChannelOf(s', key).qos == Configured(ChannelOf(s, key).qos, ops, key)
    decreases |ops|
  {
    hide Sound, Allowed, Step, QosAfter, ChannelOf;
    if ops != [] {
      StepSound(s, ops[0]);
      QosStep(s, ops[0], key);
      QosRun(Step(s, ops[0]), ops[1..], s', key);
    }
  }

  /** After any run, the limits of a channel are those that its basic.qos and channel.flow have set, in their
      order, since it was opened. */
  lemma QosIs(ops: seq<Op>, s: VHost, key: ChannelKey)
    requires Run(INIT, ops, s)
    ensures ChannelOf(s, key).qos == Configured(Qos(0, 0, false, true), ops, key)
  {
    hide Run, Sound;
    InitSound();
    QosRun(INIT, ops, s, key);
  }

  // ---------------------------------------------------------------- consuming

  /** After any run: a consume is accepted exactly if the queue exists and is not another connection's, the tag
      is free on the channel, no consumer of the queue is exclusive, and an exclusive one finds none at all.
      Then exactly this consumer is registered, and its limit is the one that the last basic.qos of its channel
      has set for new consumers, unless there is one on the whole channel. */
  lemma ConsumeExactly(ops: seq<Op>, s: VHost, conn: Name, channel: nat, tag: Name, generated: Name, queue: Name,
                       noAck: bool, exclusive: bool)
    requires Run(INIT, ops, s)
    ensures var key := ChannelKey(conn, channel);
            var s' := Consume(s, conn, channel, tag, generated, queue, noAck, exclusive);
            var named := if tag == Name("") then generated else tag;
            var limits := Configured(Qos(0, 0, false, true), ops, key);
            var c := Consumer(s.nextConsumer, named, channel, queue, conn,
                              if limits.prefetchGlobal then 0 else limits.nextPrefetch, noAck, exclusive);
            var accepted := && queue in s.queues && (s.queues[queue].exclusive ==> s.queues[queue].owner == Some(conn))
                            && ConsumerKey(channel, named) !in s.reg.consumers
                            && (forall d | d in Members(s.reg) && d.queue == queue :: !d.exclusive && !exclusive);
            && (accepted ==> Members(s'.reg) == Members(s.reg) + {c} && c.id in s'.reg.active
                             && c.Key() in s'.reg.consumers && s'.reg.consumers[c.Key()] == c)
            && (!accepted ==> s' == s)
            && s' == s.(reg := s'.reg, nextConsumer := s'.nextConsumer)
  {
    hide Run, Configured, Consume, Members;
    Reached(ops, s);
    QosIs(ops, s, ChannelKey(conn, channel));
    SoundRegistry(s);
    hide Sound, RegistryOk;
    Admits(s, conn, channel, tag, generated, queue, noAck, exclusive);
  }

  lemma SoundRegistry(s: VHost)
    requires Sound(s, multiset{})
    ensures RegistryOk(s.reg)
  {
  }

  lemma Admits(s: VHost, conn: Name, channel: nat, tag: Name, generated: Name, queue: Name, noAck: bool,
               exclusive: bool)
    requires RegistryOk(s.reg)
    ensures var c, s' := NewConsumer(s, conn, channel, tag, generated, queue, noAck, exclusive),
              Consume(s, conn, channel, tag, generated, queue, noAck, exclusive);
            var accepted := && queue in s.queues && OwnedBy(s.queues[queue], conn) && c.Key() !in s.reg.consumers
                            && (forall d | d in Members(s.reg) && d.queue == queue :: !d.exclusive && !exclusive);
            && (accepted ==> Members(s'.reg) == Members(s.reg) + {c} && c.id in s'.reg.active
                             && c.Key() in s'.reg.consumers && s'.reg.consumers[c.Key()] == c)
            && (!accepted ==> s' == s)
            && s' == s.(reg := s'.reg, nextConsumer := s'.nextConsumer)
  {
    var c := NewConsumer(s, conn, channel, tag, generated, queue, noAck, exclusive);
    hide NewConsumer, OwnedBy, Indexes;
    ListedMembers(s.reg, queue);
    if c.Key() !in s.reg.consumers { AddMember(s.reg, c); }
    var existing := Get(s.reg.byQueue, queue);
    assert |existing| > 0 ==> existing[0] in existing;
    hide RegistryOk, Get;
  }

  lemma ListedMembers(reg: Registry, queue: Name)
    requires RegistryOk(reg)
    ensures forall d :: d in Get(reg.byQueue, queue) <==> d in Members(reg) && d.queue == queue
  {
    forall d ensures d in Get(reg.byQueue, queue) <==> d in Members(reg) && d.queue == queue {
      if d in Members(reg) { assert d in Get(reg.byQueue, QueueOf(d)); }
      if d in Get(reg.byQueue, queue) { assert QueueOf(d) == queue; }
    }
  }

  // ---------------------------------------------------------------- the limit on a whole channel, over runs

  /** No basic.get or recover on the channel, and no change of its limits. */
  predicate Calm(op: Op, key: ChannelKey) {
    && !(op.GetOp? && ChannelKey(op.conn, op.channel) == key)
    && !((op.RecoverOp? || op.QosOp? || op.FlowOp? || op.CloseChannelOp?) && op.key == key)
    && !(op.CloseConnectionOp? && op.conn == key.conn)
  }

  /** The channel keeps its limits, and gets a delivery only if flow is active and the limit on the whole channel
      is not reached. */
  ghost predicate CalmTo(ch: Channel, ch': Channel) {
    && ch'.qos == ch.qos
    && (ch'.records.Keys <= ch.records.Keys
        || (ch.qos.flowActive && (ch.qos.prefetchGlobal && ch.qos.globalPrefetch > 0 ==>
                                    |ch.records| < ch.qos.globalPrefetch)
            && ch'.records.Keys == ch.records.Keys + {ch.last + 1}))
  }

  lemma ShedsCalm(s: VHost, s': VHost, key: ChannelKey)
    requires key in s.channels && key in s'.channels && ShedsAt(s, s', key)
    ensures CalmTo(s.channels[key], s'.channels[key])
  {
  }

  lemma ShedsSelf(s: VHost, key: ChannelKey)
    ensures ShedsAt(s, s, key)
  {
  }

  lemma CalmAttempt(s: VHost, queue: Name, i: nat, sent: bool, key: ChannelKey)
    requires Sound(s, multiset{}) && key in s.channels
    ensures var s' := Attempt(s, queue, i, sent);
            key in s'.channels && CalmTo(s.channels[key], s'.channels[key])
  {
    hide Sound, Attempt;
    AttemptChannel(s, queue, i, sent, key);
  }

  lemma CalmLimits(s: VHost, op: Op, key: ChannelKey)
    requires (op.QosOp? || op.FlowOp?) && op.key != key && key in s.channels
    ensures key in Step(s, op).channels && CalmTo(s.channels[key], Step(s, op).channels[key])
  {
  }

  lemma CalmPlain(s: VHost, op: Op, key: ChannelKey)
    requires Sound(s, multiset{}) && Allowed(s, op) && Plain(op) && Calm(op, key) && key in s.channels
    ensures key in Step(s, op).channels && CalmTo(s.channels[key], Step(s, op).channels[key])
  {
    hide Sound, Step, Allowed, ShedsAt, CalmTo;
    PlainSheds(s, op, key);
    ShedsCalm(s, Step(s, op), key);
  }

  lemma CalmGet(s: VHost, conn: Name, channel: nat, n: Name, noAck: bool, isExpired: bool, key: ChannelKey)
    requires key in s.channels && key != ChannelKey(conn, channel)
    ensures var s' := GetMessage(s, conn, channel, n, noAck, isExpired);
            key in s'.channels && CalmTo(s.channels[key], s'.channels[key])
  {
    hide GetMessage, ShedsAt, CalmTo;
    GetChannel(s, conn, channel, n, noAck, isExpired, key);
    ShedsCalm(s, GetMessage(s, conn, channel, n, noAck, isExpired), key);
  }

  lemma CalmRecover(s: VHost, op: Op, key: ChannelKey)
    requires Sound(s, multiset{}) && Allowed(s, op) && op.RecoverOp? && op.key != key && key in s.channels
    ensures key in Step(s, op).channels && CalmTo(s.channels[key], Step(s, op).channels[key])
  {
    hide Sound, Recover, ShedsAt, CalmTo, Lists;
    if op.key in s.channels {
      RecoverChannels(s, op.key, op.requeue, op.popped, op.dead, op.expired, op.unsent, op.late, key);
    } else {
      NothingSettled(s, op);
      ShedsSelf(s, key);
    }
    ShedsCalm(s, Step(s, op), key);
  }

  lemma CalmStep(s: VHost, op: Op, key: ChannelKey)
    requires Sound(s, multiset{}) && Allowed(s, op) && Calm(op, key) && key in s.channels
    ensures key in Step(s, op).channels && CalmTo(s.channels[key], Step(s, op).channels[key])
  {
    hide Sound, Allowed, CalmTo, Attempt, GetMessage;
    if op.AttemptOp? {
      CalmAttempt(s, op.queue, op.i, op.sent, key);
    } else if op.GetOp? {
      CalmGet(s, op.conn, op.channel, op.queue, op.noAck, op.isExpired, key);
    } else {
      hide Step;
      if op.RecoverOp? { CalmRecover(s, op, key); }
      else if op.QosOp? || op.FlowOp? { CalmLimits(s, op, key); }
      else { CalmPlain(s, op, key); }
    }
  }

  /** Over any run without them: a channel whose flow is paused gets no delivery, and one with a limit on all of
      its deliveries never gets more than that. */
  lemma {:induction false} CalmRun(s: VHost, ops: seq<Op>, s': VHost, key: ChannelKey)
    requires Sound(s, multiset{}) && Run(s, ops, s') && key in s.channels
    requires forall i | 0 <= i < |ops| :: Calm(ops[i], key)
    ensures var ch := s.channels[key];
            && key in s'.channels && s'.channels[key].qos == ch.qos
            && (!ch.qos.flowActive ==> s'.channels[key].records.Keys <= ch.records.Keys)
            && (ch.qos.prefetchGlobal && ch.qos.globalPrefetch > 0 && |ch.records| <= ch.qos.globalPrefetch ==>
                |s'.channels[key].records| <= ch.qos.globalPrefetch)
    decreases |ops|
  {
    hide Sound, Allowed, Step, Calm;
    if ops != [] {
      var s1 := Step(s, ops[0]);
      StepSound(s, ops[0]);
      CalmStep(s, ops[0], key);
      SizeAfter(s.channels[key].records, s1.channels[key].records, s.channels[key].last + 1);
      CalmRun(s1, ops[1..], s', key);
    }
  }

  lemma SizeAfter(a: map<nat, Record>, b: map<nat, Record>, t: nat)
    ensures b.Keys <= a.Keys ==> |b| <= |a|
    ensures b.Keys == a.Keys + {t} ==> |b| <= |a| + 1
  {
    if b.Keys <= a.Keys { SubsetSize(b.Keys, a.Keys); }
    assert |a| == |a.Keys| && |b| == |b.Keys|;
  }
}
