/**
 What each handler does to the marks of redelivery and to the number of copies: which steps take a mark
 away, and which put a message back that they have settled. With a run that shows each.
 */
module MarkResults {
  import opened Collections
  import opened ChannelDelivery
  import opened VHostState
  import opened RegistryProofs
  import opened StructureProofs
  import opened ConservationProofs
  import opened HandlerProofs
  import opened RecoverProofs
  import opened RecoverResults
  import opened VHostRuns

  // ---------------------------------------------------------------- handlers that keep both

  /** No mark goes and nothing is duplicated. */
  ghost predicate Adds(s: VHost, s': VHost) {
    s'.ledger.duplicated == s.ledger.duplicated && s.redelivered <= s'.redelivered
  }

  lemma PushAdds(s: VHost, n: Name, m: Message)
    requires n in s.queues
    ensures Adds(s, Push(s, n, m)) && n in Push(s, n, m).queues
  {
  }

  lemma PushBackAdds(s: VHost, n: Name, m: Message)
    requires n in s.queues
    ensures Adds(s, PushBack(s, n, m)) && n in PushBack(s, n, m).queues
  {
    hide Push;
    PushAdds(s.(redelivered := s.redelivered + {m.id}), n, m);
  }

  lemma {:induction false} PublishAdds(s: VHost, targets: seq<Name>, id: nat)
    ensures Adds(s, Publish(s, targets, id))
    decreases |targets|
  {
    hide Push;
    if targets != [] {
      if targets[0] !in s.queues {
        PublishAdds(s, targets[1..], id);
      } else {
        var m := Message(id, s.nextCopy, s.queues[targets[0]].gen);
        var s' := s.(nextCopy := s.nextCopy + 1, ledger := s.ledger.(published := s.ledger.published + multiset{m}));
        PushAdds(s', targets[0], m);
        PublishAdds(Push(s', targets[0], m), targets[1..], id);
      }
    }
  }

  lemma {:induction false} PurgeAdds(s: VHost, n: Name, expired: set<Message>)
    requires n in s.queues
    ensures Adds(s, PurgeAll(s, n, expired))
    decreases |s.queues[n].ready|
  {
    if s.queues[n].ready != [] { PurgeAdds(PurgeHead(s, n, expired), n, expired); }
  }

  lemma NackOneAdds(s: VHost, r: Record, requeue: bool, expired: set<Message>)
    ensures Adds(s, NackOne(s, r, requeue, expired))
  {
    hide PushBack;
    if r.queue in s.queues { PushBackAdds(s, r.queue, r.msg); }
  }

  lemma {:induction false} NackEachAdds(s: VHost, records: seq<Record>, requeue: bool, expired: set<Message>)
    ensures Adds(s, NackEach(s, records, requeue, expired))
    decreases |records|
  {
    hide NackOne;
    if records != [] {
      NackOneAdds(s, records[0], requeue, expired);
      NackEachAdds(NackOne(s, records[0], requeue, expired), records[1..], requeue, expired);
    }
  }

  lemma NackAdds(s: VHost, key: ChannelKey, tag: nat, multiple: bool, requeue: bool, popped: seq<Record>,
                 expired: set<Message>)
    ensures Adds(s, Nack(s, key, tag, multiple, requeue, popped, expired))
  {
    hide NackEach, Settles, Without;
    if key in s.channels && Settles(s.channels[key], tag, multiple).Some? {
      var tags := Settles(s.channels[key], tag, multiple).value;
      NackEachAdds(s.(channels := s.channels[key := Without(s.channels[key], tags)]), popped, requeue, expired);
    }
  }

  // ---------------------------------------------------------------- cancel and close

  /** A cancel leaves the marks, and books nothing but a deleted queue's messages. */
  lemma CancelAdds(s: VHost, c: Consumer)
    ensures Adds(s, CancelLocked(s, c)) && CancelLocked(s, c).redelivered == s.redelivered
  {
    hide RemoveFrom, Detach, RemoveQueueConsumers, DetachFromAll, AutoDeletes;
  }

  lemma {:induction false} CancelListedAdds(s: VHost, key: ChannelKey, cs: seq<Consumer>)
    ensures Adds(s, CancelListed(s, key, cs))
    decreases |cs|
  {
    hide CancelLocked;
    if cs != [] {
      CancelAdds(s, cs[0]);
      var c := cs[0];
      var cancel := c.conn == key.conn && c.Key() in s.reg.consumers && s.reg.consumers[c.Key()] == c;
      CancelListedAdds(if cancel then CancelLocked(s, c) else s, key, cs[1..]);
    }
  }

  lemma {:induction false} RequeueEachAdds(s: VHost, n: Name, records: seq<Record>)
    requires n in s.queues
    ensures Adds(s, RequeueEach(s, n, records))
    decreases |records|
  {
    hide PushBack;
    if records != [] {
      PushBackAdds(s, n, records[0].msg);
      RequeueEachAdds(PushBack(s, n, records[0].msg), n, records[1..]);
    }
  }

  lemma {:induction false} RequeueWorkAdds(s: VHost, work: seq<Work>)
    ensures Adds(s, RequeueWork(s, work))
    decreases |work|
  {
    hide RequeueEach;
    if work != [] {
      var w := work[0];
      if w.queue in s.queues && s.queues[w.queue].gen == w.gen {
        RequeueEachAdds(s, w.queue, w.records);
        RequeueWorkAdds(RequeueEach(s, w.queue, w.records), work[1..]);
      } else {
        RequeueWorkAdds(s.(ledger := s.ledger.(gone := s.ledger.gone + MessagesOf(w.records))), work[1..]);
      }
    }
  }

  lemma TakeChannelAdds(s: VHost, key: ChannelKey, t: Taking)
    ensures Adds(s, TakeChannel(s, key, t))
  {
    hide CancelListed;
    CancelListedAdds(s, key, Get(s.reg.byChannel, key));
  }

  lemma CloseChannelAdds(s: VHost, key: ChannelKey, t: Taking)
    ensures Adds(s, CloseChannel(s, key, t))
  {
    hide CancelListed, RequeueWork;
    CancelListedAdds(s, key, Get(s.reg.byChannel, key));
    RequeueWorkAdds(DropChannel(CancelChannelConsumers(s, key), key, t.dead, t.stranded), t.work);
  }

  lemma {:induction false} TakeChannelsAdds(s: VHost, plan: seq<(ChannelKey, Taking)>)
    ensures Adds(s, TakeChannels(s, plan))
    decreases |plan|
  {
    hide TakeChannel;
    if plan != [] {
      TakeChannelAdds(s, plan[0].0, plan[0].1);
      TakeChannelsAdds(TakeChannel(s, plan[0].0, plan[0].1), plan[1..]);
    }
  }

  lemma {:induction false} CancelEachAdds(s: VHost, cs: seq<Consumer>)
    ensures Adds(s, CancelEach(s, cs))
    decreases |cs|
  {
    hide CancelLocked;
    if cs != [] {
      CancelAdds(s, cs[0]);
      CancelEachAdds(CancelLocked(s, cs[0]), cs[1..]);
    }
  }

  lemma {:induction false} DeleteEachAdds(s: VHost, names: seq<Name>)
    ensures Adds(s, DeleteEach(s, names))
    decreases |names|
  {
    hide RemoveQueueConsumers, DetachFromAll;
    if names != [] { DeleteEachAdds(if names[0] in s.queues then DeleteQueue(s, names[0]) else s, names[1..]); }
  }

  lemma CloseConnectionAdds(s: VHost, conn: Name, plan: seq<(ChannelKey, Taking)>, rest: seq<Consumer>,
                            doomed: seq<Name>)
    ensures Adds(s, CloseConnection(s, conn, plan, rest, doomed))
  {
    hide TakeChannels, CancelEach, DeleteEach, RequeueWork;
    var s1 := TakeChannels(s, plan);
    var s2 := CancelEach(s1, rest);
    var s3 := DeleteEach(Disown(s2, conn), doomed);
    TakeChannelsAdds(s, plan);
    CancelEachAdds(s1, rest);
    DeleteEachAdds(Disown(s2, conn), doomed);
    RequeueWorkAdds(s3, Collected(plan));
  }

  // ---------------------------------------------------------------- the two that take marks away

  /** The attempt writes the frames of the message in the loop's hand. */
  predicate Sends(s: VHost, queue: Name, i: nat, sent: bool) {
    && queue in s.queues && s.queues[queue].hand.Some? && i < |Get(s.reg.byQueue, queue)| && sent
    && var c := Get(s.reg.byQueue, queue)[i]; c.id in s.reg.active && !Throttled(s, c)
  }

  lemma AttemptMarks(s: VHost, queue: Name, i: nat, sent: bool)
    ensures var s' := Attempt(s, queue, i, sent);
            && s'.ledger.duplicated == s.ledger.duplicated
            && s'.redelivered == if Sends(s, queue, i, sent) then s.redelivered - {s.queues[queue].hand.value.id}
              else s.redelivered
  {
    hide CancelLocked, Throttled;
    if queue in s.queues && s.queues[queue].hand.Some? && i < |Get(s.reg.byQueue, queue)| {
      var q, c := s.queues[queue], Get(s.reg.byQueue, queue)[i];
      DeliverMarks(s.(queues := s.queues[queue := q.(hand := None)]), c, q.hand.value, true);
      DeliverMarks(s, c, q.hand.value, false);
      hide Deliver;
      CancelAdds(Deliver(s, c, q.hand.value, false), c);
    }
  }

  lemma DeliverMarks(s: VHost, c: Consumer, m: Message, sent: bool)
    ensures var s' := Deliver(s, c, m, sent);
            && s'.ledger.duplicated == s.ledger.duplicated
            && s'.redelivered == if sent then s.redelivered - {m.id} else s.redelivered
  {
  }

  lemma QueueOpsAdd(s: VHost, name: Name, conn: Name, autoDelete: bool, exclusive: bool, capacity: nat, maxLength: nat)
    ensures Adds(s, DeclareQueue(s, name, conn, autoDelete, exclusive, capacity, maxLength))
    ensures name in s.queues ==> Adds(s, DeleteQueue(s, name))
  {
    hide RemoveQueueConsumers, DetachFromAll;
  }

  lemma TakeAdds(s: VHost, queue: Name, isExpired: bool)
    ensures Adds(s, Take(s, queue, isExpired)) && Adds(s, GiveBack(s, queue))
  {
    hide Push;
    if queue in s.queues && s.queues[queue].hand.Some? {
      PushAdds(s.(queues := s.queues[queue := s.queues[queue].(hand := None)]), queue, s.queues[queue].hand.value);
    }
  }

  lemma GetAdds(s: VHost, conn: Name, channel: nat, queue: Name, noAck: bool, isExpired: bool)
    ensures Adds(s, GetMessage(s, conn, channel, queue, noAck, isExpired))
  {
  }

  lemma ConsumeAdds(s: VHost, conn: Name, channel: nat, tag: Name, generated: Name, queue: Name, noAck: bool,
                    exclusive: bool)
    ensures Adds(s, Consume(s, conn, channel, tag, generated, queue, noAck, exclusive))
  {
    hide Register, NewConsumer;
  }

  lemma CancelOpAdds(s: VHost, channel: nat, tag: Name)
    ensures Adds(s, Cancel(s, channel, tag))
  {
    hide CancelLocked;
    var key := ConsumerKey(channel, tag);
    if key in s.reg.consumers { CancelAdds(s, s.reg.consumers[key]); }
  }

  lemma PurgeOpAdds(s: VHost, name: Name, conn: Name, expired: set<Message>)
    ensures Adds(s, Purge(s, name, conn, expired))
  {
    hide PurgeAll;
    if name in s.queues { PurgeAdds(s, name, expired); }
  }

  lemma LimitAdds(s: VHost, key: ChannelKey, tag: nat, multiple: bool, popped: seq<Record>, count: nat, global: bool,
                  active: bool)
    ensures Adds(s, Ack(s, key, tag, multiple, popped)) && Adds(s, SetQos(s, key, count, global))
            && Adds(s, SetFlow(s, key, active))
  {
    hide Settles, Without;
  }

  lemma NothingAdds(s: VHost)
    ensures Adds(s, s)
  {
  }

  lemma StepAdds(s: VHost, op: Op)
    requires !op.AttemptOp? && !op.RecoverOp?
    ensures Adds(s, Step(s, op))
  {
    hide Adds, DeclareQueue, DeleteQueue, Publish, Purge, Consume, Cancel, Take, GiveBack, GetMessage, Ack, Nack,
      CloseChannel, CloseConnection;
    hide SetQos, SetFlow;
    assert Adds(s, s) by { NothingAdds(s); }
    match op
    case DeclareOp(name, conn, autoDelete, exclusive, capacity, maxLength) =>
      QueueOpsAdd(s, name, conn, autoDelete, exclusive, capacity, maxLength);
    case DeleteOp(name) => QueueOpsAdd(s, name, name, false, false, 0, 0);
    case PurgeOp(name, conn, expired) => PurgeOpAdds(s, name, conn, expired);
    case PublishOp(targets, id) => PublishAdds(s, targets, id);
    case ConsumeOp(conn, channel, tag, generated, queue, noAck, exclusive) =>
      ConsumeAdds(s, conn, channel, tag, generated, queue, noAck, exclusive);
    case CancelOp(channel, tag) => CancelOpAdds(s, channel, tag);
    case TakeOp(queue, isExpired) => TakeAdds(s, queue, isExpired);
    case GiveBackOp(queue) => TakeAdds(s, queue, false);
    case GetOp(conn, channel, queue, noAck, isExpired) => GetAdds(s, conn, channel, queue, noAck, isExpired);
    case NackOp(key, tag, multiple, requeue, popped, expired) =>
      NackAdds(s, key, tag, multiple, requeue, popped, expired);
    case CloseChannelOp(key, taking) => CloseChannelAdds(s, key, taking);
    case CloseConnectionOp(conn, plan, rest, doomed) => CloseConnectionAdds(s, conn, plan, rest, doomed);
    case AckOp(key, tag, multiple, popped) => LimitAdds(s, key, tag, multiple, popped, 0, false, false);
    case QosOp(key, count, global) => LimitAdds(s, key, 0, false, [], count, global, false);
    case FlowOp(key, active) => LimitAdds(s, key, 0, false, [], 0, false, active);
  }

  /** How recover leaves the mark of a message. */
  ghost predicate RecoverMarked(s: VHost, key: ChannelKey, popped: seq<Record>, requeue: bool, expired: set<Message>,
                                unsent: set<Message>, id: nat) {
    || EndsMarked(s, key, popped, requeue, expired, unsent, id)
    || (id in s.redelivered && NoneTakes(s, key, popped, requeue, expired, unsent, id, 0))
  }

  /** Whether the step takes the mark of a message away: an attempt that sends a copy, or a recover that
      redelivers one after every copy that goes back. */
  ghost predicate TakesAway(s: VHost, op: Op, id: nat) {
    match op
    case AttemptOp(queue, i, sent) => Sends(s, queue, i, sent) && s.queues[queue].hand.value.id == id
    case RecoverOp(key, requeue, popped, dead, expired, unsent, late) =>
      key in s.channels && !RecoverMarked(s, key, popped, requeue, expired, unsent, id)
    case _ => false
  }

  lemma RecoverMarksAll(s: VHost, key: ChannelKey, requeue: bool, popped: seq<Record>, dead: seq<Record>,
                        expired: set<Message>, unsent: set<Message>, late: set<Message>, id: nat)
    requires key in s.channels && forall r | r in popped :: r.queue in s.queues
    ensures id in Recover(s, key, requeue, popped, dead, expired, unsent, late).redelivered <==>
            RecoverMarked(s, key, popped, requeue, expired, unsent, id)
  {
    hide RecoverEach, FateOf;
    RecoverMarks(Emptied(s, key, dead), key, popped, requeue, expired, unsent, late, id);
    SameMarked(s, Emptied(s, key, dead), key, popped, requeue, expired, unsent, id);
    hide EndsMarked, NoneTakes;
  }

  lemma SameMarked(s: VHost, s': VHost, key: ChannelKey, records: seq<Record>, requeue: bool, expired: set<Message>,
                   unsent: set<Message>, id: nat)
    requires s'.reg == s.reg && s'.queues == s.queues
    ensures EndsMarked(s', key, records, requeue, expired, unsent, id)
            == EndsMarked(s, key, records, requeue, expired, unsent, id)
    ensures NoneTakes(s', key, records, requeue, expired, unsent, id, 0)
            == NoneTakes(s, key, records, requeue, expired, unsent, id, 0)
  {
    hide FateOf;
    forall i | 0 <= i < |records|
      ensures FateOf(s', key, records[i], requeue, expired, unsent)
              == FateOf(s, key, records[i], requeue, expired, unsent)
    {
      SameFate(s, s', key, records[i], requeue, expired, unsent);
    }
    assert forall i: nat ::
        SetsMark(s', key, records, requeue, expired, unsent, id, i)
          == SetsMark(s, key, records, requeue, expired, unsent, id, i);
    assert forall i: nat ::
        TakesMark(s', key, records, requeue, expired, unsent, id, i)
          == TakesMark(s, key, records, requeue, expired, unsent, id, i);
    hide SetsMark, TakesMark;
    assert forall i: nat ::
        NoneTakes(s', key, records, requeue, expired, unsent, id, i)
          == NoneTakes(s, key, records, requeue, expired, unsent, id, i);
    hide NoneTakes;
  }

  lemma PoppedQueues(s: VHost, key: ChannelKey, popped: seq<Record>)
    requires Sound(s, multiset{}) && key in s.channels && Lists(popped, s.channels[key], Requeueable(s.channels[key]))
    ensures forall r | r in popped :: r.queue in s.queues
  {
    RecoverableRecords(s, key, popped);
    hide Sound, Lists;
  }

  /** Which steps take a mark away: exactly an attempt and a recover, and these exactly so. */
  lemma MarkLost(s: VHost, op: Op, id: nat)
    requires Sound(s, multiset{}) && Allowed(s, op) && id in s.redelivered
    ensures id !in Step(s, op).redelivered <==> TakesAway(s, op, id)
  {
    hide Sound, Step, Lists, RecoverMarked;
    if op.AttemptOp? {
      AttemptIs(s, op);
      AttemptMarks(s, op.queue, op.i, op.sent);
    } else if op.RecoverOp? {
      RecoverIs(s, op);
      if op.key in s.channels {
        PoppedQueues(s, op.key, op.popped);
        RecoverMarksAll(s, op.key, op.requeue, op.popped, op.dead, op.expired, op.unsent, op.late, id);
      }
    } else {
      StepAdds(s, op);
    }
  }

  lemma AttemptIs(s: VHost, op: Op)
    requires op.AttemptOp?
    ensures Step(s, op) == Attempt(s, op.queue, op.i, op.sent)
  {
  }

  lemma RecoverIs(s: VHost, op: Op)
    requires op.RecoverOp?
    ensures Step(s, op) == Recover(s, op.key, op.requeue, op.popped, op.dead, op.expired, op.unsent, op.late)
    ensures op.key !in s.channels ==> Step(s, op) == s
  {
  }

  // ---------------------------------------------------------------- what a run duplicates

  /** What a step duplicates: what expires late in a recover. */
  function Duplicates(s: VHost, op: Op): multiset<Message> {
    match op
    case RecoverOp(key, requeue, popped, dead, expired, unsent, late) =>
      if key in s.channels then Late(s, key, popped, requeue, expired, unsent, late) else multiset{}
    case _ => multiset{}
  }

  lemma StepDuplicates(s: VHost, op: Op)
    ensures Step(s, op).ledger.duplicated == s.ledger.duplicated + Duplicates(s, op)
  {
    hide Step, Late, RecoverEach;
    assert s.ledger.duplicated + multiset{} == s.ledger.duplicated;
    if op.AttemptOp? {
      AttemptIs(s, op);
      AttemptMarks(s, op.queue, op.i, op.sent);
    } else if op.RecoverOp? {
      RecoverIs(s, op);
      if op.key in s.channels {
        var s1 := Emptied(s, op.key, op.dead);
        RecoverBooks(s1, op.key, op.popped, op.requeue, op.expired, op.unsent, op.late);
        SameLate(s, s1, op.key, op.popped, op.requeue, op.expired, op.unsent, op.late);
      }
    } else {
      StepAdds(s, op);
    }
  }

  function RunDuplicates(s: VHost, ops: seq<Op>): multiset<Message>
    decreases |ops|
  {
    if ops == [] then multiset{} else Duplicates(s, ops[0]) + RunDuplicates(Step(s, ops[0]), ops[1..])
  }

  /** Only recovers duplicate, and exactly what expires late in them. */
  lemma {:induction false} DuplicatedInRun(s: VHost, ops: seq<Op>, s': VHost)
    requires Run(s, ops, s')
    ensures s'.ledger.duplicated == s.ledger.duplicated + RunDuplicates(s, ops)
    decreases |ops|
  {
    hide Step, Allowed, Duplicates;
    if ops == [] {
      assert s.ledger.duplicated + multiset{} == s.ledger.duplicated;
    } else {
      StepDuplicates(s, ops[0]);
      DuplicatedInRun(Step(s, ops[0]), ops[1..], s');
    }
  }
}
