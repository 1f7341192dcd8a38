/**
 Delivery tags of one channel only grow. While a channel lasts, a tag that has been used and is no
 longer outstanding never comes back, and a record never changes except for its two marks.
 */
module TagProofs {
  import opened Collections
  import opened ChannelDelivery
  import opened VHostState
  import opened StructureProofs
  import opened RegistryProofs
  import opened RecoverProofs
  import opened CloseProofs
  import opened VHostRuns

  ghost predicate SameDelivery(r: Record, r': Record) {
    && r' == r.(queueDeleted := r'.queueDeleted, consumerCancelled := r'.consumerCancelled)
    && (r.queueDeleted ==> r'.queueDeleted)
    && (r.consumerCancelled ==> r'.consumerCancelled)
  }

  ghost predicate Advances(ch: Channel, ch': Channel) {
    && ch'.last >= ch.last
    && forall t | t in ch'.records :: t > ch.last || (t in ch.records && SameDelivery(ch.records[t], ch'.records[t]))
  }

  /** No channel is lost, and each one advances. */
  ghost predicate Grows(channels: map<ChannelKey, Channel>, channels': map<ChannelKey, Channel>) {
    forall k | k in channels :: k in channels' && Advances(channels[k], channels'[k])
  }

  /** No channel is new, and each one left has advanced. */
  ghost predicate Survives(channels: map<ChannelKey, Channel>, channels': map<ChannelKey, Channel>) {
    forall k | k in channels' :: k in channels && Advances(channels[k], channels'[k])
  }

  lemma AdvancesAgain(ch: Channel, ch': Channel, ch'': Channel)
    requires Advances(ch, ch') && Advances(ch', ch'')
    ensures Advances(ch, ch'')
  {
  }

  lemma GrowsAgain(a: map<ChannelKey, Channel>, b: map<ChannelKey, Channel>, c: map<ChannelKey, Channel>)
    requires Grows(a, b) && Grows(b, c)
    ensures Grows(a, c)
  {
    hide Advances;
    forall k | k in a ensures Advances(a[k], c[k]) { AdvancesAgain(a[k], b[k], c[k]); }
  }

  lemma SurvivesAgain(a: map<ChannelKey, Channel>, b: map<ChannelKey, Channel>, c: map<ChannelKey, Channel>)
    requires Survives(a, b) && Survives(b, c)
    ensures Survives(a, c)
  {
    hide Advances;
    forall k | k in c ensures k in a && Advances(a[k], c[k]) { AdvancesAgain(a[k], b[k], c[k]); }
  }

  lemma Unchanged(channels: map<ChannelKey, Channel>)
    ensures Grows(channels, channels) && Survives(channels, channels)
  {
  }

  lemma SameKeysSurvive(a: map<ChannelKey, Channel>, b: map<ChannelKey, Channel>)
    requires Grows(a, b) && a.Keys == b.Keys
    ensures Survives(a, b)
  {
    hide Advances;
  }

  // ---------------------------------------------------------------- the parts of the handlers

  lemma DeleteQueueGrows(s: VHost, n: Name)
    requires n in s.queues
    ensures Grows(s.channels, DeleteQueue(s, n).channels)
  {
  }

  lemma CancelGrows(s: VHost, c: Consumer)
    ensures Grows(s.channels, CancelLocked(s, c).channels)
  {
    CancelInTwoSteps(s, c);
    var s' := s.(reg := Unregister(s.reg, c), channels := Detach(s.channels, c));
    assert Grows(s.channels, s'.channels);
    hide Grows, DeleteQueue;
    Unchanged(s'.channels);
    if AutoDeletes(s', c.queue) {
      DeleteQueueGrows(s', c.queue);
      GrowsAgain(s.channels, s'.channels, DeleteQueue(s', c.queue).channels);
    }
  }

  lemma DeliverGrows(s: VHost, c: Consumer, m: Message, sent: bool)
    ensures Grows(s.channels, Deliver(s, c, m, sent).channels)
  {
  }

  lemma {:induction false} NackEachChannels(s: VHost, records: seq<Record>, requeue: bool, expired: set<Message>)
    ensures NackEach(s, records, requeue, expired).channels == s.channels
    decreases |records|
  {
    if records != [] { NackEachChannels(NackOne(s, records[0], requeue, expired), records[1..], requeue, expired); }
  }

  lemma {:induction false} PurgeChannels(s: VHost, n: Name, expired: set<Message>)
    requires n in s.queues
    ensures PurgeAll(s, n, expired).channels == s.channels
    decreases |s.queues[n].ready|
  {
    if s.queues[n].ready != [] { PurgeChannels(PurgeHead(s, n, expired), n, expired); }
  }

  lemma {:induction false} PublishChannels(s: VHost, targets: seq<Name>, id: nat)
    ensures Publish(s, targets, id).channels == s.channels
    decreases |targets|
  {
    if targets != [] {
      if targets[0] !in s.queues {
        PublishChannels(s, targets[1..], id);
      } else {
        var m := Message(id, s.nextCopy, s.queues[targets[0]].gen);
        var s' := s.(nextCopy := s.nextCopy + 1, ledger := s.ledger.(published := s.ledger.published + multiset{m}));
        PublishChannels(Push(s', targets[0], m), targets[1..], id);
      }
    }
  }

  lemma RecoverOneGrows(s: VHost, key: ChannelKey, r: Record, requeue: bool, expired: set<Message>,
                        unsent: set<Message>, late: set<Message>)
    ensures Grows(s.channels, RecoverOne(s, key, r, requeue, expired, unsent, late).channels)
  {
    hide Grows, Deliver, RequeueMessage;
    Unchanged(s.channels);
    match FateOf(s, key, r, requeue, expired, unsent)
    case Expires =>
    case Requeued => RequeueKeeps(s, r, r.msg in late);
    case Bounced(c) => DeliverGrows(s, c, r.msg, false); RequeueKeeps(Deliver(s, c, r.msg, false), r, r.msg in late);
    case Redelivered(c) => DeliverGrows(s, c, r.msg, true);
  }

  lemma {:induction false} RecoverGrows(s: VHost, key: ChannelKey, records: seq<Record>, requeue: bool,
                                        expired: set<Message>, unsent: set<Message>, late: set<Message>)
    ensures Grows(s.channels, RecoverEach(s, key, records, requeue, expired, unsent, late).channels)
    decreases |records|
  {
    hide Grows, RecoverOne;
    Unchanged(s.channels);
    if records != [] {
      var s' := RecoverOne(s, key, records[0], requeue, expired, unsent, late);
      RecoverOneGrows(s, key, records[0], requeue, expired, unsent, late);
      RecoverGrows(s', key, records[1..], requeue, expired, unsent, late);
      GrowsAgain(s.channels, s'.channels, RecoverEach(s', key, records[1..], requeue, expired, unsent, late).channels);
    }
  }

  // ---------------------------------------------------------------- closing

  lemma {:induction false} CancelListedGrows(s: VHost, key: ChannelKey, cs: seq<Consumer>)
    ensures Grows(s.channels, CancelListed(s, key, cs).channels)
    decreases |cs|
  {
    hide Grows, CancelLocked;
    Unchanged(s.channels);
    if cs != [] {
      var c := cs[0];
      CancelGrows(s, c);
      var cancel := c.conn == key.conn && c.Key() in s.reg.consumers && s.reg.consumers[c.Key()] == c;
      var s' := if cancel then CancelLocked(s, c) else s;
      CancelListedGrows(s', key, cs[1..]);
      GrowsAgain(s.channels, s'.channels, CancelListed(s', key, cs[1..]).channels);
    }
  }

  lemma CancelChannelSurvives(s: VHost, key: ChannelKey)
    ensures Survives(s.channels, CancelChannelConsumers(s, key).channels)
  {
    hide Grows, Survives, CancelListed;
    var cs := Get(s.reg.byChannel, key);
    CancelListedGrows(s, key, cs);
    CancelListedHomes(s, key, cs);
    SameKeysSurvive(s.channels, CancelListed(s, key, cs).channels);
  }

  lemma TakeChannelSurvives(s: VHost, key: ChannelKey, t: Taking)
    ensures Survives(s.channels, TakeChannel(s, key, t).channels)
  {
    hide CancelChannelConsumers;
    CancelChannelSurvives(s, key);
  }

  lemma {:induction false} TakeChannelsSurvive(s: VHost, plan: seq<(ChannelKey, Taking)>)
    ensures Survives(s.channels, TakeChannels(s, plan).channels)
    decreases |plan|
  {
    hide Survives, TakeChannel;
    Unchanged(s.channels);
    if plan != [] {
      var s' := TakeChannel(s, plan[0].0, plan[0].1);
      TakeChannelSurvives(s, plan[0].0, plan[0].1);
      TakeChannelsSurvive(s', plan[1..]);
      SurvivesAgain(s.channels, s'.channels, TakeChannels(s', plan[1..]).channels);
    }
  }

  lemma {:induction false} CancelEachGrows(s: VHost, cs: seq<Consumer>)
    ensures Grows(s.channels, CancelEach(s, cs).channels)
    decreases |cs|
  {
    hide Grows, CancelLocked;
    Unchanged(s.channels);
    if cs != [] {
      var s' := CancelLocked(s, cs[0]);
      CancelGrows(s, cs[0]);
      CancelEachGrows(s', cs[1..]);
      GrowsAgain(s.channels, s'.channels, CancelEach(s', cs[1..]).channels);
    }
  }

  lemma {:induction false} DeleteEachGrows(s: VHost, names: seq<Name>)
    ensures Grows(s.channels, DeleteEach(s, names).channels)
    decreases |names|
  {
    hide Grows, DeleteQueue;
    Unchanged(s.channels);
    if names != [] {
      if names[0] in s.queues { DeleteQueueGrows(s, names[0]); }
      var s' := if names[0] in s.queues then DeleteQueue(s, names[0]) else s;
      DeleteEachGrows(s', names[1..]);
      GrowsAgain(s.channels, s'.channels, DeleteEach(s', names[1..]).channels);
    }
  }

  lemma {:induction false} RequeueEachChannels(s: VHost, n: Name, records: seq<Record>)
    requires n in s.queues
    ensures RequeueEach(s, n, records).channels == s.channels
    decreases |records|
  {
    if records != [] { RequeueEachChannels(PushBack(s, n, records[0].msg), n, records[1..]); }
  }

  lemma {:induction false} RequeueWorkChannels(s: VHost, work: seq<Work>)
    ensures RequeueWork(s, work).channels == s.channels
    decreases |work|
  {
    if work != [] {
      var w := work[0];
      if w.queue in s.queues && s.queues[w.queue].gen == w.gen {
        RequeueEachChannels(s, w.queue, w.records);
        RequeueWorkChannels(RequeueEach(s, w.queue, w.records), work[1..]);
      } else {
        RequeueWorkChannels(s.(ledger := s.ledger.(gone := s.ledger.gone + MessagesOf(w.records))), work[1..]);
      }
    }
  }

  lemma CloseChannelSurvives(s: VHost, key: ChannelKey, t: Taking)
    ensures Survives(s.channels, CloseChannel(s, key, t).channels)
    ensures key !in CloseChannel(s, key, t).channels
  {
    hide RequeueWork, CancelChannelConsumers;
    var s1 := CancelChannelConsumers(s, key);
    CancelChannelSurvives(s, key);
    if key in s1.channels { RequeueWorkChannels(DropChannel(s1, key, t.dead, t.stranded), t.work); }
  }

  lemma CloseConnectionSurvives(s: VHost, conn: Name, plan: seq<(ChannelKey, Taking)>, rest: seq<Consumer>,
                                doomed: seq<Name>)
    ensures Survives(s.channels, CloseConnection(s, conn, plan, rest, doomed).channels)
  {
    hide Survives, Grows, TakeChannels, CancelEach, DeleteEach, RequeueWork;
    var s1 := TakeChannels(s, plan);
    var s2 := CancelEach(s1, rest);
    var s3 := DeleteEach(Disown(s2, conn), doomed);
    TakeChannelsSurvive(s, plan);
    CancelEachGrows(s1, rest);
    CancelEachHomes(s1, rest);
    SameKeysSurvive(s1.channels, s2.channels);
    SurvivesAgain(s.channels, s1.channels, s2.channels);
    DeleteEachGrows(Disown(s2, conn), doomed);
    DeleteEachHomes(Disown(s2, conn), doomed);
    SameKeysSurvive(s2.channels, s3.channels);
    SurvivesAgain(s.channels, s2.channels, s3.channels);
    RequeueWorkChannels(s3, Collected(plan));
  }

  // ---------------------------------------------------------------- steps and runs

  lemma SetRecords(channels: map<ChannelKey, Channel>, k: ChannelKey, tags: set<nat>)
    requires k in channels
    ensures Grows(channels, channels[k := Without(channels[k], tags)])
    ensures Grows(channels, channels[k := channels[k].(records := map[])])
  {
  }

  lemma NackGrows(s: VHost, key: ChannelKey, tag: nat, multiple: bool, requeue: bool, popped: seq<Record>,
                  expired: set<Message>)
    requires key in s.channels && Settles(s.channels[key], tag, multiple).Some?
    ensures Grows(s.channels, Nack(s, key, tag, multiple, requeue, popped, expired).channels)
  {
    hide Grows, NackEach;
    var tags := Settles(s.channels[key], tag, multiple).value;
    SetRecords(s.channels, key, tags);
    NackEachChannels(s.(channels := s.channels[key := Without(s.channels[key], tags)]), popped, requeue, expired);
  }

  lemma RecoverAllGrows(s: VHost, key: ChannelKey, requeue: bool, popped: seq<Record>, dead: seq<Record>,
                        expired: set<Message>, unsent: set<Message>, late: set<Message>)
    requires key in s.channels
    ensures Grows(s.channels, Recover(s, key, requeue, popped, dead, expired, unsent, late).channels)
  {
    hide Grows, RecoverEach;
    var s1 := s.(channels := s.channels[key := s.channels[key].(records := map[])],
                 ledger := s.ledger.(gone := s.ledger.gone + MessagesOf(dead)));
    SetRecords(s.channels, key, {});
    RecoverGrows(s1, key, popped, requeue, expired, unsent, late);
    GrowsAgain(s.channels, s1.channels, Recover(s, key, requeue, popped, dead, expired, unsent, late).channels);
  }

  lemma SettleGrows(s: VHost, op: Op)
    requires op.AckOp? || op.NackOp? || op.RecoverOp?
    ensures Grows(s.channels, Step(s, op).channels)
  {
    hide Grows, Nack, Recover;
    Unchanged(s.channels);
    if op.key !in s.channels || (!op.RecoverOp? && Settles(s.channels[op.key], op.deliveryTag, op.multiple) == None) {
      NothingSettled(s, op);
    } else {
      match op
      case AckOp(key, tag, multiple, popped) =>
        SetRecords(s.channels, key, Settles(s.channels[key], tag, multiple).value);
      case NackOp(key, tag, multiple, requeue, popped, expired) =>
        NackGrows(s, key, tag, multiple, requeue, popped, expired);
      case RecoverOp(key, requeue, popped, dead, expired, unsent, late) =>
        RecoverAllGrows(s, key, requeue, popped, dead, expired, unsent, late);
    }
  }

  lemma AttemptGrows(s: VHost, n: Name, i: nat, sent: bool)
    ensures Grows(s.channels, Attempt(s, n, i, sent).channels)
  {
    hide Grows, Deliver, CancelLocked, Throttled;
    Unchanged(s.channels);
    if n in s.queues && s.queues[n].hand.Some? && i < |Get(s.reg.byQueue, n)| {
      var q, c := s.queues[n], Get(s.reg.byQueue, n)[i];
      DeliverGrows(s.(queues := s.queues[n := q.(hand := None)]), c, q.hand.value, true);
      var s1 := Deliver(s, c, q.hand.value, false);
      DeliverGrows(s, c, q.hand.value, false);
      CancelGrows(s1, c);
      GrowsAgain(s.channels, s1.channels, CancelLocked(s1, c).channels);
    }
  }

  /** Whatever the step, a channel that is there before and after has advanced. */
  lemma StepAdvances(s: VHost, op: Op, k: ChannelKey)
    requires k in s.channels && k in Step(s, op).channels
    ensures Advances(s.channels[k], Step(s, op).channels[k])
  {
    hide Advances, CancelLocked, CloseChannel, CloseConnection, DeleteQueue, Attempt, Publish, PurgeAll;
    Unchanged(s.channels);
    if op.AckOp? || op.NackOp? || op.RecoverOp? {
      hide Step;
      SettleGrows(s, op);
    } else {
      match op
      case DeleteOp(name) => if name in s.queues { DeleteQueueGrows(s, name); }
      case PurgeOp(name, conn, expired) => if name in s.queues { PurgeChannels(s, name, expired); }
      case PublishOp(targets, id) => PublishChannels(s, targets, id);
      case CancelOp(channel, tag) =>
        var key := ConsumerKey(channel, tag);
        if key in s.reg.consumers { CancelGrows(s, s.reg.consumers[key]); }
      case AttemptOp(queue, i, sent) => AttemptGrows(s, queue, i, sent);
      case GetOp(conn, channel, queue, noAck, isExpired) => GetGrows(s, conn, channel, queue, noAck, isExpired);
      case CloseChannelOp(key, taking) => CloseChannelSurvives(s, key, taking);
      case CloseConnectionOp(conn, plan, rest, doomed) => CloseConnectionSurvives(s, conn, plan, rest, doomed);
      case QosOp(key, count, global) => LimitGrows(s, key, count, global, true);
      case FlowOp(key, active) => LimitGrows(s, key, 0, false, active);
      case _ =>
    }
  }

  lemma GetGrows(s: VHost, conn: Name, channel: nat, queue: Name, noAck: bool, isExpired: bool)
    ensures Grows(s.channels, GetMessage(s, conn, channel, queue, noAck, isExpired).channels)
  {
  }

  lemma LimitGrows(s: VHost, key: ChannelKey, count: nat, global: bool, active: bool)
    ensures Grows(s.channels, SetQos(s, key, count, global).channels)
            && Grows(s.channels, SetFlow(s, key, active).channels)
  {
  }

  /** The channel's delivery state is never dropped during the run. */
  ghost predicate StaysOpen(s: VHost, ops: seq<Op>, k: ChannelKey)
    decreases |ops|
  {
    k in s.channels && (ops == [] || StaysOpen(Step(s, ops[0]), ops[1..], k))
  }

  lemma {:induction false} RunAdvances(s: VHost, ops: seq<Op>, s': VHost, k: ChannelKey)
    requires Run(s, ops, s') && StaysOpen(s, ops, k)
    ensures k in s'.channels && Advances(s.channels[k], s'.channels[k])
    decreases |ops|
  {
    hide Step, Advances, Allowed;
    if ops == [] {
      Unchanged(s.channels);
    } else {
      var s1 := Step(s, ops[0]);
      assert k in s1.channels;
      StepAdvances(s, ops[0], k);
      RunAdvances(s1, ops[1..], s', k);
      AdvancesAgain(s.channels[k], s1.channels[k], s'.channels[k]);
    }
  }

  /** Tags are never used twice: once a tag is used and no longer outstanding, it stays so, and
      every later ack or nack of it alone is an error; and what a tag stands for never changes. */
  lemma TagsNeverReused(s: VHost, ops: seq<Op>, s': VHost, k: ChannelKey, t: nat)
    requires Run(s, ops, s') && StaysOpen(s, ops, k) && k in s.channels && t <= s.channels[k].last
    ensures k in s'.channels && s'.channels[k].last >= s.channels[k].last
    ensures t !in s.channels[k].records ==> t !in s'.channels[k].records && Settles(s'.channels[k], t, false) == None
    ensures t in s'.channels[k].records ==>
              t in s.channels[k].records && s'.channels[k].records[t].msg == s.channels[k].records[t].msg
  {
    hide Run, StaysOpen;
    RunAdvances(s, ops, s', k);
  }
}
