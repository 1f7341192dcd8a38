/**
 Runs of a virtual host: any sequence of handlers, from the empty host. The main results are
 about every state that a run can reach.
 */
module VHostRuns {
  import opened Collections
  import opened ChannelDelivery
  import opened VHostState
  import opened RegistryProofs
  import opened StructureProofs
  import opened ConservationProofs
  import opened HandlerProofs
  import opened DeliveryProofs
  import opened RecoverProofs
  import opened CloseProofs

  datatype Op =
    | DeclareOp(name: Name, conn: Name, autoDelete: bool, exclusive: bool, capacity: nat, maxLength: nat)
    | DeleteOp(name: Name)
    | PurgeOp(name: Name, conn: Name, expired: set<Message>)
    | PublishOp(targets: seq<Name>, id: nat)
    | ConsumeOp(conn: Name, channel: nat, tag: Name, generated: Name, queue: Name, noAck: bool, exclusive: bool)
    | CancelOp(channel: nat, tag: Name)
    | TakeOp(queue: Name, isExpired: bool)
    | AttemptOp(queue: Name, i: nat, sent: bool)
    | GiveBackOp(queue: Name)
    | GetOp(conn: Name, channel: nat, queue: Name, noAck: bool, isExpired: bool)
    | AckOp(key: ChannelKey, deliveryTag: nat, multiple: bool, popped: seq<Record>)
    | NackOp(key: ChannelKey, deliveryTag: nat, multiple: bool, requeue: bool, popped: seq<Record>,
             expired: set<Message>)
    | RecoverOp(key: ChannelKey, requeue: bool, popped: seq<Record>, dead: seq<Record>, expired: set<Message>,
                unsent: set<Message>, late: set<Message>)
    | CloseChannelOp(key: ChannelKey, taking: Taking)
    | CloseConnectionOp(conn: Name, plan: seq<(ChannelKey, Taking)>, rest: seq<Consumer>, doomed: seq<Name>)
    | QosOp(key: ChannelKey, count: nat, global: bool)
    | FlowOp(key: ChannelKey, active: bool)

  function Step(s: VHost, op: Op): VHost {
    match op
    case DeclareOp(name, conn, autoDelete, exclusive, capacity, maxLength) =>
      DeclareQueue(s, name, conn, autoDelete, exclusive, capacity, maxLength)
    case DeleteOp(name) => if name in s.queues then DeleteQueue(s, name) else s
    case PurgeOp(name, conn, expired) => Purge(s, name, conn, expired)
    case PublishOp(targets, id) => Publish(s, targets, id)
    case ConsumeOp(conn, channel, tag, generated, queue, noAck, exclusive) =>
      Consume(s, conn, channel, tag, generated, queue, noAck, exclusive)
    case CancelOp(channel, tag) => Cancel(s, channel, tag)
    case TakeOp(queue, isExpired) => Take(s, queue, isExpired)
    case AttemptOp(queue, i, sent) => Attempt(s, queue, i, sent)
    case GiveBackOp(queue) => GiveBack(s, queue)
    case GetOp(conn, channel, queue, noAck, isExpired) => GetMessage(s, conn, channel, queue, noAck, isExpired)
    case AckOp(key, tag, multiple, popped) => Ack(s, key, tag, multiple, popped)
    case NackOp(key, tag, multiple, requeue, popped, expired) => Nack(s, key, tag, multiple, requeue, popped, expired)
    case RecoverOp(key, requeue, popped, dead, expired, unsent, late) =>
      Recover(s, key, requeue, popped, dead, expired, unsent, late)
    case CloseChannelOp(key, taking) => CloseChannel(s, key, taking)
    case CloseConnectionOp(conn, plan, rest, doomed) => CloseConnection(s, conn, plan, rest, doomed)
    case QosOp(key, count, global) => SetQos(s, key, count, global)
    case FlowOp(key, active) => SetFlow(s, key, active)
  }

  /** popped lists the records that an ack or nack of the tag removes. */
  ghost predicate Pops(s: VHost, key: ChannelKey, tag: nat, multiple: bool, popped: seq<Record>) {
    key in s.channels && Settles(s.channels[key], tag, multiple).Some? ==>
      Lists(popped, s.channels[key], Settles(s.channels[key], tag, multiple).value)
  }

  /** The lists in the operation are orders in which the code may come across the state. */
  ghost predicate Allowed(s: VHost, op: Op) {
    match op
    case AckOp(key, tag, multiple, popped) => Pops(s, key, tag, multiple, popped)
    case NackOp(key, tag, multiple, requeue, popped, expired) => Pops(s, key, tag, multiple, popped)
    case RecoverOp(key, requeue, popped, dead, expired, unsent, late) =>
      key in s.channels ==>
        && Lists(popped, s.channels[key], Requeueable(s.channels[key]))
        && Lists(dead, s.channels[key], DeadTags(s.channels[key]))
    case CloseChannelOp(key, taking) =>
      key in CancelChannelConsumers(s, key).channels ==> Takes(CancelChannelConsumers(s, key), key, taking)
    case CloseConnectionOp(conn, plan, rest, doomed) => ConnectionOrder(s, conn, plan, rest, doomed)
    case _ => true
  }

  ghost predicate Run(s: VHost, ops: seq<Op>, s': VHost)
    decreases |ops|
  {
    if ops == [] then s' == s
    else Allowed(s, ops[0]) && Run(Step(s, ops[0]), ops[1..], s')
  }

  // ---------------------------------------------------------------- every step keeps the invariant

  lemma CancelOpSound(s: VHost, channel: nat, tag: Name)
    requires Sound(s, multiset{})
    ensures Sound(Cancel(s, channel, tag), multiset{})
  {
    hide Structure, BooksOk, CancelLocked;
    var key := ConsumerKey(channel, tag);
    if key in s.reg.consumers {
      CancelSound(s, s.reg.consumers[key], multiset{});
    }
  }

  lemma SettleOpSound(s: VHost, op: Op)
    requires Sound(s, multiset{}) && Allowed(s, op) && (op.AckOp? || op.NackOp? || op.RecoverOp?)
    ensures Sound(Step(s, op), multiset{})
  {
    hide Sound, Ack, Nack, Recover, Lists;
    if op.key in s.channels {
      match op
      case AckOp(key, tag, multiple, popped) =>
        if Settles(s.channels[key], tag, multiple).Some? {
          AckSound(s, key, tag, multiple, popped);
        } else {
          NothingSettled(s, op);
        }
      case NackOp(key, tag, multiple, requeue, popped, expired) =>
        if Settles(s.channels[key], tag, multiple).Some? {
          NackSound(s, key, tag, multiple, requeue, popped, expired);
        } else {
          NothingSettled(s, op);
        }
      case RecoverOp(key, requeue, popped, dead, expired, unsent, late) =>
        RecoverSound(s, key, requeue, popped, dead, expired, unsent, late);
    } else {
      NothingSettled(s, op);
    }
  }

  /** An unknown channel or delivery tag is an error that changes nothing. */
  lemma NothingSettled(s: VHost, op: Op)
    requires op.AckOp? || op.NackOp? || op.RecoverOp?
    requires op.key !in s.channels
             || (!op.RecoverOp? && Settles(s.channels[op.key], op.deliveryTag, op.multiple) == None)
    ensures Step(s, op) == s
  {
  }

  lemma LimitOpSound(s: VHost, op: Op)
    requires Sound(s, multiset{}) && (op.QosOp? || op.FlowOp?)
    ensures Sound(Step(s, op), multiset{})
  {
    hide Sound;
    var qos := ChannelOf(s, op.key).qos;
    match op
    case QosOp(key, count, global) =>
      QosSound(s, key, if global then qos.(globalPrefetch := count, prefetchGlobal := true)
               else qos.(nextPrefetch := count));
    case FlowOp(key, active) => QosSound(s, key, qos.(flowActive := active));
  }

  lemma StepSound(s: VHost, op: Op)
    requires Sound(s, multiset{}) && Allowed(s, op)
    ensures Sound(Step(s, op), multiset{})
  {
    if op.AckOp? || op.NackOp? || op.RecoverOp? {
      hide Sound, Allowed, Step;
      SettleOpSound(s, op);
    } else if op.QosOp? || op.FlowOp? {
      hide Sound, Allowed, Step;
      LimitOpSound(s, op);
    } else {
      hide Sound, DeclareQueue, DeleteQueue, Purge, Publish, Consume, Cancel, Take, Attempt, GiveBack, GetMessage,
        CloseChannel, CloseConnection;
      hide CancelChannelConsumers, Takes, ConnectionOrder;
      match op
      case DeclareOp(name, conn, autoDelete, exclusive, capacity, maxLength) =>
        DeclareSound(s, name, conn, autoDelete, exclusive, capacity, maxLength);
      case DeleteOp(name) => if name in s.queues { DeleteQueueSound(s, name, multiset{}); }
      case PurgeOp(name, conn, expired) => PurgeSound(s, name, conn, expired);
      case PublishOp(targets, id) => PublishSound(s, targets, id);
      case ConsumeOp(conn, channel, tag, generated, queue, noAck, exclusive) =>
        ConsumeSound(s, conn, channel, tag, generated, queue, noAck, exclusive);
      case CancelOp(channel, tag) => CancelOpSound(s, channel, tag);
      case TakeOp(queue, isExpired) => TakeSound(s, queue, isExpired);
      case AttemptOp(queue, i, sent) => AttemptSound(s, queue, i, sent);
      case GiveBackOp(queue) => GiveBackSound(s, queue);
      case GetOp(conn, channel, queue, noAck, isExpired) => GetSound(s, conn, channel, queue, noAck, isExpired);
      case CloseChannelOp(key, taking) => CloseChannelSound(s, key, taking);
      case CloseConnectionOp(conn, plan, rest, doomed) => CloseConnectionSound(s, conn, plan, rest, doomed);
    }
  }

  lemma InitSound()
    ensures Sound(INIT, multiset{})
  {
    assert Members(INIT.reg) == {};
  }

  /** The invariant holds in every reachable state. */
  lemma {:induction false} RunSound(s: VHost, ops: seq<Op>, s': VHost)
    requires Sound(s, multiset{}) && Run(s, ops, s')
    ensures Sound(s', multiset{})
    decreases |ops|
  {
    hide Sound, Allowed, Step;
    if ops != [] {
      StepSound(s, ops[0]);
      RunSound(Step(s, ops[0]), ops[1..], s');
    }
  }

  lemma Reached(ops: seq<Op>, s: VHost)
    requires Run(INIT, ops, s)
    ensures Sound(s, multiset{})
  {
    hide Sound;
    InitSound();
    RunSound(INIT, ops, s);
  }
}
