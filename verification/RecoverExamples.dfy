/**
 Two runs from the empty host that show what recover can do to a message: one that is dead-lettered and
 back in its queue, and one that is back in its queue without its mark.
 */
module RecoverExamples {
  import opened Collections
  import opened ChannelDelivery
  import opened VHostState
  import opened RecoverProofs
  import opened VHostRuns

  const Q: Name := Name("q")
  const R: Name := Name("r")
  const CONN: Name := Name("c")
  const TAG: Name := Name("t")
  const KEY: ChannelKey := ChannelKey(CONN, 1)

  /** The copies of message 7 that the two queues get. */
  const FIRST: Message := Message(7, 0, 0)
  const SECOND: Message := Message(7, 1, 1)

  function Holding(gen: nat, ready: seq<Message>, hand: Option<Message>): Queue {
    Queue(gen, false, false, None, 1, 0, ready, hand)
  }

  lemma NoRun(s: VHost)
    ensures Run(s, [], s)
  {
  }

  /** The run goes on with a first step. */
  lemma First(s: VHost, op: Op, s1: VHost, ops: seq<Op>, s': VHost)
    requires Allowed(s, op) && s1 == Step(s, op) && Run(s1, ops, s')
    ensures Run(s, [op] + ops, s')
  {
    hide Allowed, Step;
    assert ([op] + ops)[1..] == ops;
  }

  // ---------------------------------------------------------------- the steps, on any host

  lemma Declares(s: VHost, n: Name)
    requires n !in s.queues
    ensures DeclareQueue(s, n, CONN, false, false, 1, 0)
            == s.(queues := s.queues[n := Holding(s.nextGen, [], None)], nextGen := s.nextGen + 1)
  {
  }

  lemma Pushes(s: VHost, n: Name, gen: nat, m: Message)
    requires n in s.queues && s.queues[n] == Holding(gen, [], None)
    ensures Push(s, n, m) == s.(queues := s.queues[n := Holding(gen, [m], None)])
  {
    assert [] + [m] == [m];
  }

  lemma PublishOne(s: VHost, targets: seq<Name>)
    requires targets != [] && targets[0] in s.queues
    ensures var m := Message(7, s.nextCopy, s.queues[targets[0]].gen);
            var s' := s.(nextCopy := s.nextCopy + 1,
                         ledger := s.ledger.(published := s.ledger.published + multiset{m}));
            Publish(s, targets, 7) == Publish(Push(s', targets[0], m), targets[1..], 7)
  {
    hide Push;
  }

  lemma Publishes(s: VHost, n: Name, gen: nat, rest: seq<Name>)
    requires n in s.queues && s.queues[n] == Holding(gen, [], None)
    ensures var m := Message(7, s.nextCopy, gen);
            Publish(s, [n] + rest, 7)
              == Publish(s.(queues := s.queues[n := Holding(gen, [m], None)], nextCopy := s.nextCopy + 1,
                            ledger := s.ledger.(published := s.ledger.published + multiset{m})), rest, 7)
  {
    PublishOne(s, [n] + rest);
    hide Push, Publish;
    var m := Message(7, s.nextCopy, gen);
    assert ([n] + rest)[1..] == rest && ([n] + rest)[0] == n;
    Pushes(s.(nextCopy := s.nextCopy + 1, ledger := s.ledger.(published := s.ledger.published + multiset{m})), n, gen,
           m);
  }

  lemma PublishesNone(s: VHost)
    ensures Publish(s, [], 7) == s
  {
  }

  lemma Gets(s: VHost, n: Name, gen: nat, m: Message)
    requires n in s.queues && s.queues[n] == Holding(gen, [m], None)
    ensures GetMessage(s, CONN, 1, n, false, false)
         == s.(queues := s.queues[n := Holding(gen, [], None)],
               channels := s.channels[KEY := TrackGet(ChannelOf(s, KEY), n, m)])
  {
    hide TrackGet;
    assert [m][1..] == [];
  }

  lemma RecoversNext(s: VHost, key: ChannelKey, r: Record, rest: seq<Record>, requeue: bool, late: set<Message>)
    ensures RecoverEach(s, key, [r] + rest, requeue, {}, {}, late)
         == RecoverEach(RecoverOne(s, key, r, requeue, {}, {}, late), key, rest, requeue, {}, {}, late)
  {
    hide RecoverOne;
    assert ([r] + rest)[1..] == rest;
  }

  // ---------------------------------------------------------------- a message that expires late

  const GOT: Record := Record(1, Name(""), true, Q, FIRST, 0, false, false)
  const ONE_GOT: Channel := EMPTY_CHANNEL.(last := 1, records := map[1 := GOT])

  function Declared(): VHost {
    INIT.(queues := map[Q := Holding(0, [], None)], nextGen := 1)
  }

  function Queued(): VHost {
    Declared().(queues := map[Q := Holding(0, [FIRST], None)], nextCopy := 1,
                ledger := EMPTY_LEDGER.(published := multiset{FIRST}))
  }

  function Fetched(): VHost {
    Queued().(queues := map[Q := Holding(0, [], None)], channels := map[KEY := ONE_GOT])
  }

  lemma DeclaredIs()
    ensures DeclareQueue(INIT, Q, CONN, false, false, 1, 0) == Declared()
  {
    Declares(INIT, Q);
    assert INIT.queues[Q := Holding(0, [], None)] == map[Q := Holding(0, [], None)];
  }

  lemma QueuedIs()
    ensures Publish(Declared(), [Q], 7) == Queued()
  {
    hide Publish;
    var s := Declared();
    Publishes(s, Q, 0, []);
    assert [Q] + [] == [Q];
    PublishesNone(Queued());
    assert s.queues[Q := Holding(0, [FIRST], None)] == map[Q := Holding(0, [FIRST], None)];
    assert EMPTY_LEDGER.published + multiset{FIRST} == multiset{FIRST};
  }

  lemma FetchedIs()
    ensures GetMessage(Queued(), CONN, 1, Q, false, false) == Fetched()
  {
    hide GetMessage;
    var s := Queued();
    Gets(s, Q, 0, FIRST);
    assert s.queues[Q := Holding(0, [], None)] == map[Q := Holding(0, [], None)];
    assert TrackGet(ChannelOf(s, KEY), Q, FIRST) == ONE_GOT
      by { assert EMPTY_CHANNEL.records[1 := GOT] == map[1 := GOT]; }
    assert s.channels[KEY := ONE_GOT] == map[KEY := ONE_GOT];
  }

  lemma OneGotLists()
    ensures Lists([GOT], ONE_GOT, Requeueable(ONE_GOT)) && Lists([], ONE_GOT, DeadTags(ONE_GOT))
  {
    assert Requeueable(ONE_GOT) == {1};
    assert GOT in [GOT];
    assert 1 in TagsOf([GOT]);
    assert DeadTags(ONE_GOT) == {};
  }

  /** The message expires between the two questions of a recover with requeue: it is dead-lettered, and it
      is in its queue. */
  lemma LateIsTwice(s: VHost)
    requires s == Recover(Fetched(), KEY, true, [GOT], [], {}, {}, {FIRST})
    ensures s.queues == map[Q := Holding(0, [FIRST], None)]
    ensures s.ledger.expired == multiset{FIRST} && s.ledger.duplicated == multiset{FIRST}
            && (FIRST, 0) in s.ledger.deadLetters
    ensures s.redelivered == {7}
  {
    hide Push;
    var s1 := Emptied(Fetched(), KEY, []);
    RecoversNext(s1, KEY, GOT, [], true, {FIRST});
    assert [GOT] + [] == [GOT];
    assert FateOf(s1, KEY, GOT, true, {}, {}) == Requeued;
    assert s == RequeueMessage(s1, GOT, true);
    var s2 := ExpireLate(s1, Q, FIRST);
    Pushes(s2.(redelivered := s2.redelivered + {7}), Q, 0, FIRST);
    assert s2.queues[Q := Holding(0, [FIRST], None)] == map[Q := Holding(0, [FIRST], None)];
  }

  lemma LateRun()
    ensures Run(INIT, [DeclareOp(Q, CONN, false, false, 1, 0), PublishOp([Q], 7), GetOp(CONN, 1, Q, false, false),
                       RecoverOp(KEY, true, [GOT], [], {}, {}, {FIRST})],
                Recover(Fetched(), KEY, true, [GOT], [], {}, {}, {FIRST}))
  {
    hide Publish, GetMessage, DeclareQueue, Recover, Lists, Fetched, Queued, Declared, Run;
    var declare, publish, get := DeclareOp(Q, CONN, false, false, 1, 0), PublishOp([Q], 7),
      GetOp(CONN, 1, Q, false, false);
    var recover, s := RecoverOp(KEY, true, [GOT], [], {}, {}, {FIRST}),
      Recover(Fetched(), KEY, true, [GOT], [], {}, {}, {FIRST});
    DeclaredIs();
    QueuedIs();
    FetchedIs();
    OneGotLists();
    NoRun(s);
    LateAllowed();
    hide Step, Allowed;
    First(Fetched(), recover, s, [], s);
    assert [recover] + [] == [recover];
    First(Queued(), get, Fetched(), [recover], s);
    First(Declared(), publish, Queued(), [get] + [recover], s);
    First(INIT, declare, Declared(), [publish] + ([get] + [recover]), s);
    assert [declare] + ([publish] + ([get] + [recover])) == [declare, publish, get, recover];
  }

  lemma LateAllowed()
    ensures Allowed(Fetched(), RecoverOp(KEY, true, [GOT], [], {}, {}, {FIRST}))
  {
    OneGotLists();
    hide Lists;
  }

  // ---------------------------------------------------------------- a mark that is lost

  const C: Consumer := Consumer(0, TAG, 1, R, CONN, 0, false, false)
  const SENT: Record := Record(2, TAG, false, R, SECOND, 0, false, false)
  const BOTH_SENT: Channel := EMPTY_CHANNEL.(last := 2, records := map[1 := GOT, 2 := SENT])

  function TwoDeclared(): VHost {
    INIT.(queues := map[Q := Holding(0, [], None), R := Holding(1, [], None)], nextGen := 2)
  }

  function TwoQueued(): VHost {
    TwoDeclared().(queues := map[Q := Holding(0, [FIRST], None), R := Holding(1, [SECOND], None)], nextCopy := 2,
                   ledger := EMPTY_LEDGER.(published := multiset{FIRST, SECOND}))
  }

  function OneFetched(): VHost {
    TwoQueued().(queues := map[Q := Holding(0, [], None), R := Holding(1, [SECOND], None)],
                 channels := map[KEY := ONE_GOT])
  }

  function Consuming(): VHost {
    OneFetched().(reg := Register(INIT.reg, C), nextConsumer := 1)
  }

  function Offering(): VHost {
    Consuming().(queues := map[Q := Holding(0, [], None), R := Holding(1, [], Some(SECOND))])
  }

  /** One copy was fetched with basic.get, the other delivered to the consumer. */
  function BothOut(): VHost {
    Consuming().(queues := map[Q := Holding(0, [], None), R := Holding(1, [], None)], channels := map[KEY := BOTH_SENT])
  }

  lemma TwoDeclaredIs()
    ensures DeclareQueue(Declared(), R, CONN, false, false, 1, 0) == TwoDeclared()
  {
    Declares(Declared(), R);
    assert Declared().queues[R := Holding(1, [], None)] == TwoDeclared().queues;
  }

  lemma TwoQueuedIs()
    ensures Publish(TwoDeclared(), [Q, R], 7) == TwoQueued()
  {
    hide Publish;
    var s := TwoDeclared();
    var s1 := s.(queues := s.queues[Q := Holding(0, [FIRST], None)], nextCopy := 1,
                 ledger := EMPTY_LEDGER.(published := multiset{FIRST}));
    assert EMPTY_LEDGER.published + multiset{FIRST} == multiset{FIRST};
    Publishes(s, Q, 0, [R]);
    assert [Q] + [R] == [Q, R];
    Publishes(s1, R, 1, []);
    assert [R] + [] == [R];
    PublishesNone(TwoQueued());
    assert s1.queues[R := Holding(1, [SECOND], None)] == TwoQueued().queues;
    assert multiset{FIRST} + multiset{SECOND} == multiset{FIRST, SECOND};
  }

  lemma OneFetchedIs()
    ensures GetMessage(TwoQueued(), CONN, 1, Q, false, false) == OneFetched()
  {
    hide GetMessage;
    var s := TwoQueued();
    Gets(s, Q, 0, FIRST);
    assert s.queues[Q := Holding(0, [], None)] == OneFetched().queues;
    assert TrackGet(ChannelOf(s, KEY), Q, FIRST) == ONE_GOT
      by { assert EMPTY_CHANNEL.records[1 := GOT] == map[1 := GOT]; }
    assert s.channels[KEY := ONE_GOT] == map[KEY := ONE_GOT];
  }

  lemma ConsumingIs()
    ensures Consume(OneFetched(), CONN, 1, TAG, TAG, R, false, false) == Consuming()
  {
    hide Register;
    assert NewConsumer(OneFetched(), CONN, 1, TAG, TAG, R, false, false) == C;
  }

  lemma OfferingIs()
    ensures Take(Consuming(), R, false) == Offering()
  {
    assert [SECOND][1..] == [];
    assert Consuming().queues[R := Holding(1, [], Some(SECOND))] == Offering().queues;
  }

  lemma Listed()
    ensures var reg := Register(INIT.reg, C);
            Get(reg.byQueue, R) == [C] && Get(reg.byChannel, KEY) == [C] && 0 in reg.active && HomeOf(C) == KEY
  {
    assert [] + [C] == [C];
  }

  lemma BothOutIs()
    ensures Attempt(Offering(), R, 0, true) == BothOut()
  {
    Listed();
    hide Register;
    var s := Offering();
    assert !Throttled(s, C);
    var s1 := s.(queues := s.queues[R := Holding(1, [], None)]);
    assert s1.queues == BothOut().queues;
    assert TrackConsumer(ONE_GOT, TAG, R, SECOND, 0) == BOTH_SENT
      by { assert ONE_GOT.records[2 := SENT] == BOTH_SENT.records; }
    assert s.channels[KEY := BOTH_SENT] == BothOut().channels;
    assert Deliver(s1, C, SECOND, true) == BothOut();
  }

  lemma BothSentLists()
    ensures Lists([GOT, SENT], BOTH_SENT, Requeueable(BOTH_SENT)) && Lists([], BOTH_SENT, DeadTags(BOTH_SENT))
  {
    assert Requeueable(BOTH_SENT) == {1, 2};
    assert GOT in [GOT, SENT] && SENT in [GOT, SENT];
    assert 1 in TagsOf([GOT, SENT]) && 2 in TagsOf([GOT, SENT]);
    assert DeadTags(BOTH_SENT) == {};
  }

  /** Recover without requeue gives the first copy back to its queue, marked, and then delivers the other
      one again: the first is in its queue, was delivered before, and has no mark. */
  lemma MarkIsLost(s: VHost)
    requires s == Recover(BothOut(), KEY, false, [GOT, SENT], [], {}, {}, {})
    ensures Q in s.queues && s.queues[Q].ready == [FIRST] && s.redelivered == {}
    ensures KEY in s.channels && s.channels[KEY].records == map[3 := SENT.(tag := 3)]
  {
    hide Push;
    Listed();
    hide Register;
    var s1 := Emptied(BothOut(), KEY, []);
    RecoversNext(s1, KEY, GOT, [SENT], false, {});
    assert [GOT] + [SENT] == [GOT, SENT];
    Pushes(s1.(redelivered := s1.redelivered + {7}), Q, 0, FIRST);
    var s2 := RecoverOne(s1, KEY, GOT, false, {}, {}, {});
    assert s2 == s1.(queues := s1.queues[Q := Holding(0, [FIRST], None)], redelivered := {7});
    RecoversNext(s2, KEY, SENT, [], false, {});
    assert [SENT] + [] == [SENT];
    assert FateOf(s2, KEY, SENT, false, {}, {}) == Redelivered(C);
    assert s == Deliver(s2, C, SECOND, true);
  }

  lemma MarkRun()
    ensures Run(INIT,
                [DeclareOp(Q, CONN, false, false, 1, 0), DeclareOp(R, CONN, false, false, 1, 0), PublishOp([Q, R], 7),
                       GetOp(CONN, 1, Q, false, false), ConsumeOp(CONN, 1, TAG, TAG, R, false, false), TakeOp(R, false),
                       AttemptOp(R, 0, true), RecoverOp(KEY, false, [GOT, SENT], [], {}, {}, {})],
                Recover(BothOut(), KEY, false, [GOT, SENT], [], {}, {}, {}))
  {
    hide Publish, GetMessage, DeclareQueue, Consume, Take, Attempt, Recover, Lists, Run;
    hide Declared, TwoDeclared, TwoQueued, OneFetched, Consuming, Offering, BothOut;
    var declareQ, declareR := DeclareOp(Q, CONN, false, false, 1, 0), DeclareOp(R, CONN, false, false, 1, 0);
    var publish, get := PublishOp([Q, R], 7), GetOp(CONN, 1, Q, false, false);
    var consume, take, attempt := ConsumeOp(CONN, 1, TAG, TAG, R, false, false), TakeOp(R, false),
      AttemptOp(R, 0, true);
    var recover, s := RecoverOp(KEY, false, [GOT, SENT], [], {}, {}, {}),
      Recover(BothOut(), KEY, false, [GOT, SENT], [], {}, {}, {});
    DeclaredIs();
    TwoDeclaredIs();
    TwoQueuedIs();
    OneFetchedIs();
    ConsumingIs();
    OfferingIs();
    BothOutIs();
    NoRun(s);
    MarkAllowed();
    First(BothOut(), recover, s, [], s);
    var ops0 := [recover] + [];
    First(Offering(), attempt, BothOut(), ops0, s);
    First(Consuming(), take, Offering(), [attempt] + ops0, s);
    First(OneFetched(), consume, Consuming(), [take] + ([attempt] + ops0), s);
    var ops := [consume] + ([take] + ([attempt] + ops0));
    First(TwoQueued(), get, OneFetched(), ops, s);
    First(TwoDeclared(), publish, TwoQueued(), [get] + ops, s);
    First(Declared(), declareR, TwoDeclared(), [publish] + ([get] + ops), s);
    First(INIT, declareQ, Declared(), [declareR] + ([publish] + ([get] + ops)), s);
    assert [declareQ] + ([declareR] + ([publish] + ([get] + ops)))
        == [declareQ, declareR, publish, get, consume, take, attempt, recover];
  }

  lemma MarkAllowed()
    ensures Allowed(BothOut(), RecoverOp(KEY, false, [GOT, SENT], [], {}, {}, {}))
  {
    BothSentLists();
    hide Lists;
  }
}
