/**
 Queues are first in, first out. Whatever a handler does to a queue, messages leave it from the front and
 arrive at its end; what the delivery loop and basic.get take is the oldest message; and a publish puts one
 unmarked copy into each queue it is routed to.
 */
module QueueResults {
  import opened Collections
  import opened ChannelDelivery
  import opened VHostState
  import opened RegistryProofs
  import opened StructureProofs
  import opened HandlerProofs
  import opened CloseProofs
  import opened ReturnResults
  import opened CancelResults
  import opened CloseResults
  import opened RecoverProofs
  import opened ConservationProofs
  import opened DeliveryProofs
  import opened VHostRuns

  // ---------------------------------------------------------------- front and end

  /** The list from x on. */
  function Since(a: seq<Message>, x: Message): seq<Message> {
    if a == [] then [] else if a[0] == x then a else Since(a[1..], x)
  }

  /** If x was in the list once and still is, then all that stood behind it does so too, and what has come to
      the list stands behind that. */
  ghost predicate Behind(a: seq<Message>, b: seq<Message>, x: Message) {
    && multiset(b)[x] <= multiset(a)[x]
    && (multiset(a)[x] <= 1 && x in b ==> Since(a, x) <= Since(b, x))
  }

  lemma BehindAgain(a: seq<Message>, b: seq<Message>, c: seq<Message>, x: Message)
    requires Behind(a, b, x) && Behind(b, c, x)
    ensures Behind(a, c, x)
  {
  }

  lemma {:induction false} SinceDrop(a: seq<Message>, k: nat, x: Message)
    requires k <= |a|
    ensures multiset(a[k..])[x] <= multiset(a)[x]
    ensures multiset(a)[x] <= 1 && x in a[k..] ==> Since(a[k..], x) == Since(a, x)
    decreases k
  {
    if k == 0 {
      assert a[0..] == a;
    } else {
      assert a == [a[0]] + a[1..];
      assert a[1..][k - 1..] == a[k..];
      SinceDrop(a[1..], k - 1, x);
    }
  }

  lemma {:induction false} SinceMore(a: seq<Message>, m: Message, x: Message)
    requires m != x
    ensures multiset(a + [m])[x] == multiset(a)[x]
    ensures x in a ==> Since(a + [m], x) == Since(a, x) + [m]
    decreases |a|
  {
    if a != [] {
      assert a == [a[0]] + a[1..];
      assert (a + [m])[1..] == a[1..] + [m];
      SinceMore(a[1..], m, x);
    }
  }

  lemma BehindBy(a: seq<Message>, k: nat, m: Message, x: Message)
    requires k <= |a| && m != x
    ensures Behind(a, a[k..] + [m], x) && Behind(a, a[k..], x)
  {
    SinceDrop(a, k, x);
    SinceMore(a[k..], m, x);
    hide Since;
  }

  /** No queue is new, and in each one left nothing has overtaken x. */
  ghost predicate Later(queues: map<Name, Queue>, queues': map<Name, Queue>, at: Name, x: Message) {
    at in queues' ==>
      at in queues && queues'[at].gen == queues[at].gen && Behind(queues[at].ready, queues'[at].ready, x)
  }

  lemma LaterNot(queues: map<Name, Queue>, at: Name, x: Message)
    ensures Later(queues, queues, at, x)
  {
  }

  lemma LaterAgain(a: map<Name, Queue>, b: map<Name, Queue>, c: map<Name, Queue>, at: Name, x: Message)
    requires Later(a, b, at, x) && Later(b, c, at, x)
    ensures Later(a, c, at, x)
  {
    hide Behind;
    if at in c { BehindAgain(a[at].ready, b[at].ready, c[at].ready, x); }
  }

  lemma LaterOne(queues: map<Name, Queue>, n: Name, q: Queue, at: Name, x: Message)
    requires n in queues && q.gen == queues[n].gen && Behind(queues[n].ready, q.ready, x)
    ensures Later(queues, queues[n := q], at, x)
  {
    LaterNot(queues, at, x);
    hide Behind;
  }

  /** Queues that are gone make no difference, and neither does a change of owner. */
  lemma LaterFewer(queues: map<Name, Queue>, queues': map<Name, Queue>, at: Name, x: Message)
    requires queues'.Keys <= queues.Keys
    requires forall n | n in queues' :: queues'[n].gen == queues[n].gen && queues'[n].ready == queues[n].ready
    ensures Later(queues, queues', at, x)
  {
  }

  // ---------------------------------------------------------------- the parts of the handlers

  lemma PushLater(s: VHost, n: Name, m: Message, at: Name, x: Message)
    requires n in s.queues && (n == at ==> m != x)
    ensures Later(s.queues, Push(s, n, m).queues, at, x) && n in Push(s, n, m).queues
    ensures Push(s, n, m).nextCopy == s.nextCopy
  {
    var q := s.queues[n];
    var k := Excess(q);
    assert q.ready[0..] == q.ready;
    hide Behind, Excess;
    if n == at {
      BehindBy(q.ready, k, m, x);
      BehindBy(q.ready, 0, m, x);
    } else {
      BehindNot(s.queues, at, x);
    }
  }

  lemma BehindNot(queues: map<Name, Queue>, at: Name, x: Message)
    ensures at in queues ==> Behind(queues[at].ready, queues[at].ready, x)
  {
  }

  lemma PushBackLater(s: VHost, n: Name, m: Message, at: Name, x: Message)
    requires n in s.queues && (n == at ==> m != x)
    ensures Later(s.queues, PushBack(s, n, m).queues, at, x) && n in PushBack(s, n, m).queues
  {
    hide Push;
    PushLater(s.(redelivered := s.redelivered + {m.id}), n, m, at, x);
  }

  lemma HeadLater(queues: map<Name, Queue>, n: Name, hand: Option<Message>, at: Name, x: Message)
    requires n in queues && queues[n].ready != []
    ensures Later(queues, queues[n := queues[n].(ready := queues[n].ready[1..])], at, x)
    ensures Later(queues, queues[n := queues[n].(ready := queues[n].ready[1..], hand := hand)], at, x)
  {
    SinceDrop(queues[n].ready, 1, x);
    hide Behind;
    LaterOne(queues, n, queues[n].(ready := queues[n].ready[1..]), at, x);
    LaterOne(queues, n, queues[n].(ready := queues[n].ready[1..], hand := hand), at, x);
  }

  lemma HandLater(queues: map<Name, Queue>, n: Name, at: Name, x: Message)
    requires n in queues
    ensures Later(queues, queues[n := queues[n].(hand := None)], at, x)
  {
    LaterFewer(queues, queues[n := queues[n].(hand := None)], at, x);
  }

  lemma {:induction false} PurgeLater(s: VHost, n: Name, expired: set<Message>, at: Name, x: Message)
    requires n in s.queues
    ensures Later(s.queues, PurgeAll(s, n, expired).queues, at, x)
    decreases |s.queues[n].ready|
  {
    hide Later;
    if s.queues[n].ready == [] {
      LaterNot(s.queues, at, x);
    } else {
      var s1 := PurgeHead(s, n, expired);
      HeadLater(s.queues, n, None, at, x);
      PurgeLater(s1, n, expired, at, x);
      LaterAgain(s.queues, s1.queues, PurgeAll(s1, n, expired).queues, at, x);
    }
  }

  lemma {:induction false} PublishLater(s: VHost, targets: seq<Name>, id: nat, at: Name, x: Message)
    requires x.copy < s.nextCopy
    ensures Later(s.queues, Publish(s, targets, id).queues, at, x)
    decreases |targets|
  {
    hide Later, Push;
    if targets == [] {
      LaterNot(s.queues, at, x);
    } else if targets[0] !in s.queues {
      PublishLater(s, targets[1..], id, at, x);
    } else {
      var m := Message(id, s.nextCopy, s.queues[targets[0]].gen);
      var s1 := s.(nextCopy := s.nextCopy + 1, ledger := s.ledger.(published := s.ledger.published + multiset{m}));
      PushLater(s1, targets[0], m, at, x);
      PublishLater(Push(s1, targets[0], m), targets[1..], id, at, x);
      LaterAgain(s.queues, Push(s1, targets[0], m).queues, Publish(s, targets, id).queues, at, x);
    }
  }

  lemma NackOneLater(s: VHost, r: Record, requeue: bool, expired: set<Message>, at: Name, x: Message)
    requires r.msg != x
    ensures Later(s.queues, NackOne(s, r, requeue, expired).queues, at, x)
  {
    hide Later, PushBack;
    LaterNot(s.queues, at, x);
    if r.queue in s.queues { PushBackLater(s, r.queue, r.msg, at, x); }
  }

  lemma {:induction false} NackLater(s: VHost, records: seq<Record>, requeue: bool, expired: set<Message>,
                                     at: Name, x: Message)
    requires forall r | r in records :: r.msg != x
    ensures Later(s.queues, NackEach(s, records, requeue, expired).queues, at, x)
    decreases |records|
  {
    hide Later, NackOne;
    LaterNot(s.queues, at, x);
    if records != [] {
      var s1 := NackOne(s, records[0], requeue, expired);
      NackOneLater(s, records[0], requeue, expired, at, x);
      NackLater(s1, records[1..], requeue, expired, at, x);
      LaterAgain(s.queues, s1.queues, NackEach(s1, records[1..], requeue, expired).queues, at, x);
    }
  }

  lemma RequeueLater(s: VHost, r: Record, late: bool, at: Name, x: Message)
    requires r.msg != x
    ensures Later(s.queues, RequeueMessage(s, r, late).queues, at, x)
  {
    hide Later, PushBack;
    LaterNot(s.queues, at, x);
    if r.queue in s.queues { PushBackLater(if late then ExpireLate(s, r.queue, r.msg) else s, r.queue, r.msg, at, x); }
  }

  lemma DeliverQueues(s: VHost, c: Consumer, m: Message, sent: bool)
    ensures Deliver(s, c, m, sent).queues == s.queues
  {
  }

  lemma RecoverOneLater(s: VHost, key: ChannelKey, r: Record, requeue: bool, expired: set<Message>,
                        unsent: set<Message>, late: set<Message>, at: Name, x: Message)
    requires r.msg != x
    ensures Later(s.queues, RecoverOne(s, key, r, requeue, expired, unsent, late).queues, at, x)
  {
    hide Later, Deliver, RequeueMessage, FateOf;
    LaterNot(s.queues, at, x);
    match FateOf(s, key, r, requeue, expired, unsent)
    case Expires =>
    case Requeued => RequeueLater(s, r, r.msg in late, at, x);
    case Bounced(c) =>
      DeliverQueues(s, c, r.msg, false);
      RequeueLater(Deliver(s, c, r.msg, false), r, r.msg in late, at, x);
    case Redelivered(c) => DeliverQueues(s, c, r.msg, true);
  }

  lemma {:induction false} RecoverLater(s: VHost, key: ChannelKey, records: seq<Record>, requeue: bool,
                                        expired: set<Message>, unsent: set<Message>, late: set<Message>,
                                        at: Name, x: Message)
    requires forall r | r in records :: r.msg != x
    ensures Later(s.queues, RecoverEach(s, key, records, requeue, expired, unsent, late).queues, at, x)
    decreases |records|
  {
    hide Later, RecoverOne;
    LaterNot(s.queues, at, x);
    if records != [] {
      var s1 := RecoverOne(s, key, records[0], requeue, expired, unsent, late);
      RecoverOneLater(s, key, records[0], requeue, expired, unsent, late, at, x);
      RecoverLater(s1, key, records[1..], requeue, expired, unsent, late, at, x);
      LaterAgain(s.queues, s1.queues, RecoverEach(s1, key, records[1..], requeue, expired, unsent, late).queues, at, x);
    }
  }

  lemma {:induction false} RequeueEachLater(s: VHost, n: Name, records: seq<Record>, at: Name, x: Message)
    requires n in s.queues && (n == at ==> forall r | r in records :: r.msg != x)
    ensures Later(s.queues, RequeueEach(s, n, records).queues, at, x)
    decreases |records|
  {
    hide Later, PushBack;
    LaterNot(s.queues, at, x);
    if records != [] {
      var s1 := PushBack(s, n, records[0].msg);
      PushBackLater(s, n, records[0].msg, at, x);
      RequeueEachLater(s1, n, records[1..], at, x);
      LaterAgain(s.queues, s1.queues, RequeueEach(s1, n, records[1..]).queues, at, x);
    }
  }

  lemma {:induction false} RequeueWorkLater(s: VHost, work: seq<Work>, at: Name, x: Message)
    requires at in s.queues ==> forall r | r in AllRecords(work) :: r.msg != x
    ensures Later(s.queues, RequeueWork(s, work).queues, at, x)
    decreases |work|
  {
    hide Later, RequeueEach;
    LaterNot(s.queues, at, x);
    if work != [] {
      var w := work[0];
      var s1 := if w.queue in s.queues && s.queues[w.queue].gen == w.gen then RequeueEach(s, w.queue, w.records)
                else s.(ledger := s.ledger.(gone := s.ledger.gone + MessagesOf(w.records)));
      assert forall r | r in w.records :: r in AllRecords(work);
      if w.queue in s.queues { RequeueEachLater(s, w.queue, w.records, at, x); }
      RequeueWorkLater(s1, work[1..], at, x);
      LaterAgain(s.queues, s1.queues, RequeueWork(s1, work[1..]).queues, at, x);
    }
  }

  // ---------------------------------------------------------------- every step

  lemma CancelLater(s: VHost, c: Consumer, at: Name, x: Message)
    ensures Later(s.queues, CancelLocked(s, c).queues, at, x)
  {
    CancelInTwoSteps(s, c);
    hide CancelLocked, RemoveQueueConsumers, DetachFromAll, Detach, Unregister, AutoDeletes;
    LaterFewer(s.queues, s.queues - {c.queue}, at, x);
    LaterNot(s.queues, at, x);
    hide Later;
  }

  lemma AttemptLater(s: VHost, n: Name, i: nat, sent: bool, at: Name, x: Message)
    ensures Later(s.queues, Attempt(s, n, i, sent).queues, at, x)
  {
    hide Later, Deliver, CancelLocked, Throttled;
    LaterNot(s.queues, at, x);
    if n in s.queues && s.queues[n].hand.Some? && i < |Get(s.reg.byQueue, n)| {
      var q, c := s.queues[n], Get(s.reg.byQueue, n)[i];
      HandLater(s.queues, n, at, x);
      DeliverQueues(s.(queues := s.queues[n := q.(hand := None)]), c, q.hand.value, true);
      DeliverQueues(s, c, q.hand.value, false);
      CancelLater(Deliver(s, c, q.hand.value, false), c, at, x);
    }
  }

  lemma GiveBackLater(s: VHost, n: Name, at: Name, x: Message)
    requires n == at && n in s.queues && s.queues[n].hand.Some? ==> s.queues[n].hand.value != x
    ensures Later(s.queues, GiveBack(s, n).queues, at, x)
  {
    hide Later, Push;
    LaterNot(s.queues, at, x);
    if n in s.queues && s.queues[n].hand.Some? {
      var s1 := s.(queues := s.queues[n := s.queues[n].(hand := None)]);
      HandLater(s.queues, n, at, x);
      PushLater(s1, n, s.queues[n].hand.value, at, x);
      LaterAgain(s.queues, s1.queues, Push(s1, n, s.queues[n].hand.value).queues, at, x);
    }
  }

  lemma TakeLater(s: VHost, n: Name, isExpired: bool, at: Name, x: Message)
    ensures Later(s.queues, Take(s, n, isExpired).queues, at, x)
  {
    hide Later;
    LaterNot(s.queues, at, x);
    if n in s.queues && s.queues[n].ready != [] { HeadLater(s.queues, n, Some(s.queues[n].ready[0]), at, x); }
  }

  lemma GetLater(s: VHost, conn: Name, channel: nat, n: Name, noAck: bool, isExpired: bool, at: Name, x: Message)
    ensures Later(s.queues, GetMessage(s, conn, channel, n, noAck, isExpired).queues, at, x)
  {
    hide Later, TrackGet, OwnedBy;
    LaterNot(s.queues, at, x);
    if n in s.queues && s.queues[n].ready != [] { HeadLater(s.queues, n, None, at, x); }
  }

  lemma SettleLater(s: VHost, op: Op, at: Name, x: Message)
    requires op.AckOp? || op.NackOp? || op.RecoverOp?
    requires op.key in s.channels && (op.RecoverOp? || Settles(s.channels[op.key], op.deliveryTag, op.multiple).Some?)
             ==> forall r | r in op.popped :: r.msg != x
    ensures Later(s.queues, Step(s, op).queues, at, x)
  {
    hide Later, NackEach, RecoverEach, Settles, Without;
    LaterNot(s.queues, at, x);
    match op
    case AckOp(key, tag, multiple, popped) =>
    case NackOp(key, tag, multiple, requeue, popped, expired) =>
      if key in s.channels && Settles(s.channels[key], tag, multiple).Some? {
        var tags := Settles(s.channels[key], tag, multiple).value;
        NackLater(s.(channels := s.channels[key := Without(s.channels[key], tags)]), popped, requeue, expired, at, x);
      }
    case RecoverOp(key, requeue, popped, dead, expired, unsent, late) =>
      if key in s.channels {
        RecoverLater(s.(channels := s.channels[key := s.channels[key].(records := map[])],
                        ledger := s.ledger.(gone := s.ledger.gone + MessagesOf(dead))),
                     key, popped, requeue, expired, unsent, late, at, x);
      }
  }

  /** The message is in the queue, once, and nowhere else: not in the queue's hand, nor in that of a handler. */
  lemma OnlyHere(s: VHost, extra: multiset<Message>, at: Name, x: Message)
    requires Sound(s, extra) && at in s.queues && x in s.queues[at].ready && x !in s.ledger.duplicated
    ensures x !in extra && x.copy < s.nextCopy && multiset(s.queues[at].ready)[x] == 1
    ensures s.queues[at].hand.Some? ==> s.queues[at].hand.value != x
  {
    hide Structure, ChannelMessages, Settled;
    SumParts(s.queues, QueueMessages, at, at);
    assert (Total(s) + extra)[x] == Account(s.ledger)[x];
    assert x in s.ledger.published;
    assert s.ledger.published[x] == 1;
    assert QueueMessages(s.queues[at])[x] <= 1;
  }

  lemma {:induction false} NotAmong(records: seq<Record>, x: Message)
    requires x !in MessagesOf(records)
    ensures forall r | r in records :: r.msg != x
    decreases |records|
  {
    if records != [] {
      NotAmong(records[1..], x);
      assert records == [records[0]] + records[1..];
    }
  }

  lemma CloseChannelLater(s: VHost, key: ChannelKey, t: Taking, at: Name, x: Message)
    requires Sound(s, multiset{}) && at in s.queues && x in s.queues[at].ready && x !in s.ledger.duplicated
    requires key in CancelChannelConsumers(s, key).channels ==> Takes(CancelChannelConsumers(s, key), key, t)
    ensures Later(s.queues, CloseChannel(s, key, t).queues, at, x)
  {
    hide Sound, CancelChannelConsumers, RequeueWork, Later, Orphans, Aged, MessagesOf, Takes;
    var s1 := CancelChannelConsumers(s, key);
    CancelChannelShrinks(s, key, multiset{});
    LaterFewer(s.queues, s1.queues, at, x);
    if key in s1.channels {
      var s2 := DropChannel(s1, key, t.dead, t.stranded);
      var extra := multiset{} + MessagesOf(AllRecords(t.work));
      CancelChannelSound(s, key, multiset{});
      DropChannelSound(s1, key, t, multiset{});
      if at in s2.queues {
        OnlyHere(s2, extra, at, x);
        NotAmong(AllRecords(t.work), x);
      }
      RequeueWorkLater(s2, t.work, at, x);
      LaterAgain(s.queues, s1.queues, RequeueWork(s2, t.work).queues, at, x);
    }
  }

  lemma ClearedSound(s: VHost, conn: Name, plan: seq<(ChannelKey, Taking)>, rest: seq<Consumer>, doomed: seq<Name>)
    requires Sound(s, multiset{}) && ConnectionOrder(s, conn, plan, rest, doomed)
    ensures Sound(Cleared(s, conn, plan, rest, doomed), multiset{} + MessagesOf(AllRecords(Collected(plan))))
  {
    hide Sound, ConnectionOrder, TakeChannels, CancelEach, Disown, DeleteEach, MessagesOf;
    var s2 := CancelEach(TakeChannels(s, plan), rest);
    var extra := multiset{} + MessagesOf(AllRecords(Collected(plan)));
    AllCancelled(s, conn, plan, rest, doomed);
    DisownSound(s2, conn, extra);
    DeleteEachSound(Disown(s2, conn), doomed, extra);
  }

  lemma CloseConnectionLater(s: VHost, conn: Name, plan: seq<(ChannelKey, Taking)>, rest: seq<Consumer>,
                             doomed: seq<Name>, at: Name, x: Message)
    requires Sound(s, multiset{}) && ConnectionOrder(s, conn, plan, rest, doomed)
    requires at in s.queues && x in s.queues[at].ready && x !in s.ledger.duplicated
    ensures Later(s.queues, CloseConnection(s, conn, plan, rest, doomed).queues, at, x)
  {
    hide Sound, ConnectionOrder, Cleared, RequeueWork, Later, Aged, GoesWith, CloseConnection, MessagesOf;
    var s1 := Cleared(s, conn, plan, rest, doomed);
    CloseIs(s, conn, plan, rest, doomed);
    ClearedQueues(s, conn, plan, rest, doomed);
    ClearedSound(s, conn, plan, rest, doomed);
    LaterFewer(s.queues, s1.queues, at, x);
    if at in s1.queues {
      OnlyHere(s1, multiset{} + MessagesOf(AllRecords(Collected(plan))), at, x);
      NotAmong(AllRecords(Collected(plan)), x);
    }
    RequeueWorkLater(s1, Collected(plan), at, x);
    LaterAgain(s.queues, s1.queues, RequeueWork(s1, Collected(plan)).queues, at, x);
  }

  lemma DeleteLater(s: VHost, n: Name, at: Name, x: Message)
    requires n in s.queues
    ensures Later(s.queues, DeleteQueue(s, n).queues, at, x)
  {
    hide RemoveQueueConsumers, DetachFromAll;
    LaterFewer(s.queues, s.queues - {n}, at, x);
  }

  /** What a handler has popped to settle is not in any queue. */
  lemma PoppedApart(s: VHost, op: Op, at: Name, x: Message)
    requires Sound(s, multiset{}) && Allowed(s, op) && at in s.queues && x in s.queues[at].ready
             && x !in s.ledger.duplicated
    requires op.AckOp? || op.NackOp? || op.RecoverOp?
    ensures op.key in s.channels && (op.RecoverOp? || Settles(s.channels[op.key], op.deliveryTag, op.multiple).Some?)
            ==> forall r | r in op.popped :: r.msg != x
  {
    hide Sound, MessagesOf, Lists, Settles;
    if op.key in s.channels {
      if op.RecoverOp? {
        EmptiedSound(s, op.key, op.popped, op.dead);
        OnlyHere(Emptied(s, op.key, op.dead), multiset{} + MessagesOf(op.popped), at, x);
        NotAmong(op.popped, x);
      } else if Settles(s.channels[op.key], op.deliveryTag, op.multiple).Some? {
        var tags := Settles(s.channels[op.key], op.deliveryTag, op.multiple).value;
        PopSound(s, op.key, tags, op.popped);
        OnlyHere(s.(channels := s.channels[op.key := Without(s.channels[op.key], tags)]), MessagesOf(op.popped), at, x);
        NotAmong(op.popped, x);
      }
    }
  }

  lemma StepLater(s: VHost, op: Op, at: Name, x: Message)
    requires Sound(s, multiset{}) && Allowed(s, op) && at in s.queues && x in s.queues[at].ready
             && x !in s.ledger.duplicated
    ensures Later(s.queues, Step(s, op).queues, at, x)
  {
    hide Sound, Later;
    LaterNot(s.queues, at, x);
    OnlyHere(s, multiset{}, at, x);
    if op.AckOp? || op.NackOp? || op.RecoverOp? {
      hide Allowed, Step;
      PoppedApart(s, op, at, x);
      SettleLater(s, op, at, x);
    } else {
      hide DeclareQueue, DeleteQueue, PurgeAll, Publish, CancelLocked, Take, Attempt, GiveBack, GetMessage,
        CloseChannel, CloseConnection;
      hide ConnectionOrder, CancelChannelConsumers, Takes, Register, NewConsumer, Lists;
      match op
      case DeclareOp(name, conn, autoDelete, exclusive, capacity, maxLength) =>
        DeclareLater(s, name, conn, autoDelete, exclusive, capacity, maxLength, at, x);
      case DeleteOp(name) => if name in s.queues { DeleteLater(s, name, at, x); }
      case PurgeOp(name, conn, expired) => if name in s.queues { PurgeLater(s, name, expired, at, x); }
      case PublishOp(targets, id) => PublishLater(s, targets, id, at, x);
      case ConsumeOp(conn, channel, tag, generated, queue, noAck, exclusive) =>
      case CancelOp(channel, tag) =>
        var key := ConsumerKey(channel, tag);
        if key in s.reg.consumers { CancelLater(s, s.reg.consumers[key], at, x); }
      case TakeOp(queue, isExpired) => TakeLater(s, queue, isExpired, at, x);
      case AttemptOp(queue, i, sent) => AttemptLater(s, queue, i, sent, at, x);
      case GiveBackOp(queue) => GiveBackLater(s, queue, at, x);
      case GetOp(conn, channel, queue, noAck, isExpired) => GetLater(s, conn, channel, queue, noAck, isExpired, at, x);
      case CloseChannelOp(key, taking) => CloseChannelLater(s, key, taking, at, x);
      case CloseConnectionOp(conn, plan, rest, doomed) => CloseConnectionLater(s, conn, plan, rest, doomed, at, x);
      case QosOp(key, count, global) =>
      case FlowOp(key, active) =>
    }
  }

  lemma DeclareLater(s: VHost, name: Name, conn: Name, autoDelete: bool, exclusive: bool, capacity: nat, maxLength: nat,
                     at: Name, x: Message)
    requires at in s.queues
    ensures Later(s.queues, DeclareQueue(s, name, conn, autoDelete, exclusive, capacity, maxLength).queues, at, x)
  {
  }

  // ---------------------------------------------------------------- runs

  /** The message waits in the queue in every state of the run, and no recover duplicates it. */
  ghost predicate Waits(s: VHost, ops: seq<Op>, at: Name, x: Message)
    decreases |ops|
  {
    && at in s.queues && x in s.queues[at].ready && x !in s.ledger.duplicated
    && (ops == [] || Waits(Step(s, ops[0]), ops[1..], at, x))
  }

  lemma WaitsHere(s: VHost, ops: seq<Op>, at: Name, x: Message)
    requires Waits(s, ops, at, x)
    ensures at in s.queues && x in s.queues[at].ready && x !in s.ledger.duplicated
    ensures ops != [] ==> Waits(Step(s, ops[0]), ops[1..], at, x)
  {
    hide Step;
  }

  /** First in, first out. While a message waits in a queue, all that stands behind it waits too, in the same
      order and right behind it, and what comes to the queue stands behind that; so no message leaves a queue,
      by whatever handler, before one that is older there. */
  lemma {:induction false} FirstOutFirst(s: VHost, ops: seq<Op>, s': VHost, at: Name, x: Message)
    requires Sound(s, multiset{}) && Run(s, ops, s') && Waits(s, ops, at, x)
    ensures at in s'.queues && x in s'.queues[at].ready
            && Since(s.queues[at].ready, x) <= Since(s'.queues[at].ready, x)
    decreases |ops|
  {
    hide Sound, Allowed, Step, Waits, Since;
    WaitsHere(s, ops, at, x);
    if ops != [] {
      var s1 := Step(s, ops[0]);
      StepSound(s, ops[0]);
      StepLater(s, ops[0], at, x);
      OnlyHere(s, multiset{}, at, x);
      WaitsHere(s1, ops[1..], at, x);
      FirstOutFirst(s1, ops[1..], s', at, x);
    }
  }

  // ---------------------------------------------------------------- what is taken, and what arrives

  /** A declare makes an empty queue with what was asked for, under an identity that none has had, and owned by
      its connection if it is exclusive. A name that is taken keeps its queue. */
  lemma DeclareExactly(s: VHost, name: Name, conn: Name, autoDelete: bool, exclusive: bool, capacity: nat,
                       maxLength: nat)
    requires Sound(s, multiset{})
    ensures var s' := DeclareQueue(s, name, conn, autoDelete, exclusive, capacity, maxLength);
            && (name in s.queues ==> s' == s)
            && (name !in s.queues ==>
                && s'.queues.Keys == s.queues.Keys + {name} && s' == s.(queues := s'.queues, nextGen := s'.nextGen)
                && (forall n | n in s.queues :: s'.queues[n] == s.queues[n] && s'.queues[name].gen != s.queues[n].gen)
                && (forall m | m in s.ledger.published :: m.origin != s'.queues[name].gen)
                && s'.queues[name] == Queue(s'.queues[name].gen, autoDelete, exclusive,
                                            if exclusive then Some(conn) else None, capacity, maxLength, [], None))
  {
    hide Structure, Total;
  }

  /** The delivery loop takes the oldest message; one that has expired goes to the dead-letter path. With a
      message in hand, or from an empty queue, it takes none. */
  lemma TakesOldest(s: VHost, n: Name, isExpired: bool)
    requires n in s.queues
    ensures var q, s' := s.queues[n], Take(s, n, isExpired);
            && n in s'.queues && s' == s.(queues := s.queues[n := s'.queues[n]], ledger := s'.ledger)
            && (q.hand.Some? || q.ready == [] ==> s' == s)
            && (q.hand == None && q.ready != [] ==>
                && s'.queues[n].ready == q.ready[1..]
                && s'.queues[n].hand == (if isExpired then None else Some(q.ready[0]))
                && s'.ledger.expired == s.ledger.expired + (if isExpired then multiset{q.ready[0]} else multiset{})
                && (isExpired ==> (q.ready[0], q.gen) in s'.ledger.deadLetters))
  {
    assert s.queues == s.queues[n := s.queues[n]];
    assert s.ledger.expired + multiset{} == s.ledger.expired;
  }

  /** basic.get takes the oldest message too, and tracks it under the channel's next tag, settles it at once, or
      finds it expired. An empty queue has none, and an exclusive queue none for another connection. */
  lemma GetsOldest(s: VHost, conn: Name, channel: nat, n: Name, noAck: bool, isExpired: bool)
    requires n in s.queues
    ensures var q, key, s' := s.queues[n], ChannelKey(conn, channel),
              GetMessage(s, conn, channel, n, noAck, isExpired);
            var ch, ch' := ChannelOf(s, key), ChannelOf(s', key);
            && (q.ready == [] || (q.exclusive && q.owner != Some(conn)) ==> s' == s)
            && (q.ready != [] && (q.exclusive ==> q.owner == Some(conn)) ==>
                && s'.queues == s.queues[n := q.(ready := q.ready[1..])]
                && s'.redelivered == s.redelivered && s'.channels - {key} == s.channels - {key}
                && (isExpired ==>
                    && s'.channels == s.channels
                    && s'.ledger.expired == s.ledger.expired + multiset{q.ready[0]}
                    && (q.ready[0], q.gen) in s'.ledger.deadLetters)
                && (!isExpired ==> ch'.last == ch.last + 1 && s'.ledger.expired == s.ledger.expired)
                && (!isExpired && noAck ==>
                    && ch'.records == ch.records
                    && s'.ledger.autoAcked == s.ledger.autoAcked + multiset{q.ready[0]})
                && (!isExpired && !noAck ==>
                    && ch'.records == ch.records[ch'.last := Record(ch'.last, Name(""), true, n, q.ready[0], 0, false,
                                                                    false)]
                    && s'.ledger == s.ledger))
  {
  }

  /** The message in the loop's hand goes back to the end of its queue, unmarked. */
  lemma GivesBack(s: VHost, n: Name)
    requires n in s.queues && LengthOk(s.queues[n])
    ensures var q, s' := s.queues[n], GiveBack(s, n);
            && n in s'.queues && s'.redelivered == s.redelivered && s'.channels == s.channels
            && s'.queues[n] == if q.hand == None then q else Refilled(q.(hand := None), [q.hand.value])
  {
    hide Push;
    var q := s.queues[n];
    if q.hand.Some? {
      var s1 := s.(queues := s.queues[n := q.(hand := None)]);
      PushOne(s1, n, q.hand.value);
      PushMarks(s1, n, q.hand.value);
    }
  }

  /** Nothing but contents of queues and their side of the ledger. */
  ghost predicate OnlyContents(s: VHost, s': VHost) {
    && s'.redelivered == s.redelivered && s'.channels == s.channels && s'.nextCopy == s.nextCopy
    && s'.ledger.published == s.ledger.published && s'.queues.Keys == s.queues.Keys
  }

  lemma EvictMarks(s: VHost, n: Name)
    requires n in s.queues
    ensures OnlyContents(s, Evict(s, n))
  {
    hide LettersOf, Excess;
  }

  lemma AppendMarks(s: VHost, n: Name, m: Message)
    requires n in s.queues
    ensures OnlyContents(s, Append(s, n, m))
  {
  }

  lemma PushMarks(s: VHost, n: Name, m: Message)
    requires n in s.queues
    ensures OnlyContents(s, Push(s, n, m))
  {
    hide Evict, Append;
    EvictMarks(s, n);
    AppendMarks(Evict(s, n), n, m);
  }

  /** The copies that one queue gets of a message published to the targets, numbered from next. */
  function Copies(names: set<Name>, targets: seq<Name>, n: Name, id: nat, gen: nat, next: nat): (ms: seq<Message>)
    ensures forall i | 0 <= i < |ms| :: ms[i].id == id && ms[i].origin == gen && ms[i].copy >= next
    ensures n in names && n in targets ==> ms != []
    ensures n !in targets ==> ms == []
  {
    if targets == [] then []
    else if targets[0] !in names then Copies(names, targets[1..], n, id, gen, next)
    else (if targets[0] == n then [Message(id, next, gen)] else [])
         + Copies(names, targets[1..], n, id, gen, next + 1)
  }

  /** A publish gives each queue it is routed to a copy of its own, in order, and none to any other. */
  lemma {:induction false} PublishExactly(s: VHost, targets: seq<Name>, id: nat, n: Name)
    requires n in s.queues && LengthOk(s.queues[n])
    ensures var s' := Publish(s, targets, id);
            && n in s'.queues && s'.redelivered == s.redelivered && s'.channels == s.channels
            && s'.queues[n]
              == Refilled(s.queues[n], Copies(s.queues.Keys, targets, n, id, s.queues[n].gen, s.nextCopy))
    decreases |targets|
  {
    hide Push, LengthOk, Refilled;
    if targets == [] {
      RefillNone(s.queues[n]);
    } else if targets[0] !in s.queues {
      PublishExactly(s, targets[1..], id, n);
    } else {
      var m := Message(id, s.nextCopy, s.queues[targets[0]].gen);
      var s1 := s.(nextCopy := s.nextCopy + 1, ledger := s.ledger.(published := s.ledger.published + multiset{m}));
      var s2 := Push(s1, targets[0], m);
      PushMarks(s1, targets[0], m);
      var rest := Copies(s.queues.Keys, targets[1..], n, id, s.queues[n].gen, s.nextCopy + 1);
      PushGives(s1, targets[0], m, n, rest);
      PublishExactly(s2, targets[1..], id, n);
      assert [] + rest == rest;
    }
  }

  lemma PushGives(s: VHost, n: Name, m: Message, n': Name, ms: seq<Message>)
    requires n in s.queues && n' in s.queues && LengthOk(s.queues[n'])
    ensures var q' := Push(s, n, m).queues;
            && n' in q' && LengthOk(q'[n']) && q'[n'].gen == s.queues[n'].gen
            && Refilled(q'[n'], ms) == Refilled(s.queues[n'], (if n == n' then [m] else []) + ms)
  {
    assert [] + ms == ms;
    if n == n' {
      PushOne(s, n, m);
      RefillMore(s.queues[n], m, ms);
    }
  }
}
