/**
 Where everything goes when a connection is closed, said of the records and queues before it: which queues
 stay, what each of them holds, and which messages are gone.
 */
module CloseResults {
  import opened Collections
  import opened ChannelDelivery
  import opened VHostState
  import opened RegistryProofs
  import opened StructureProofs
  import opened ConservationProofs
  import opened HandlerProofs
  import opened DeliveryProofs
  import opened CloseProofs
  import opened ReturnResults
  import opened CancelResults
  import opened TagProofs

  // ---------------------------------------------------------------- requeueing all that was taken

  lemma RefilledTwice(q: Queue, a: seq<Message>, b: seq<Message>)
    ensures Refilled(Refilled(q, a), b) == Refilled(q, a + b)
  {
    assert q.ready + a + b == q.ready + (a + b);
    NewestAgain(q.ready + a, b, q.maxLength);
    OldestAgain(q.ready + a, b, q.capacity);
    hide Newest, Oldest;
  }

  lemma {:induction false} MessageListJoin(a: seq<Record>, b: seq<Record>)
    ensures MessageList(a + b) == MessageList(a) + MessageList(b)
    decreases |a|
  {
    if a == [] {
      assert a + b == b;
    } else {
      assert (a + b)[1..] == a[1..] + b;
      MessageListJoin(a[1..], b);
    }
  }

  /** The records of all the items for the queue. */
  function Back(work: seq<Work>, n: Name): seq<Record> {
    if work == [] then [] else (if work[0].queue == n then work[0].records else []) + Back(work[1..], n)
  }

  /** An item whose queue is there was made for that very queue. */
  ghost predicate GensOk(queues: map<Name, Queue>, work: seq<Work>) {
    forall i | 0 <= i < |work| && work[i].queue in queues :: queues[work[i].queue].gen == work[i].gen
  }

  lemma ItemReturns(s: VHost, w: Work, n: Name, ms: seq<Message>)
    requires n in s.queues && LengthsOk(s) && w.queue in s.queues
    ensures var q' := RequeueEach(s, w.queue, w.records).queues;
            Refilled(q'[n], ms) == Refilled(s.queues[n], MessageList(if w.queue == n then w.records else []) + ms)
  {
    RequeueEachReturns(s, w.queue, w.records, n);
    RefilledTwice(s.queues[n], MessageList(w.records), ms);
    assert [] + ms == ms;
    hide Refilled, RequeueEach;
  }

  lemma {:induction false} RequeueEachGens(s: VHost, n: Name, records: seq<Record>)
    requires n in s.queues
    ensures forall n' | n' in s.queues :: RequeueEach(s, n, records).queues[n'].gen == s.queues[n'].gen
    decreases |records|
  {
    if records != [] { RequeueEachGens(PushBack(s, n, records[0].msg), n, records[1..]); }
  }

  /** Each queue gets the records of all its items, in their order. */
  lemma {:induction false} RequeueAll(s: VHost, work: seq<Work>, n: Name)
    requires GensOk(s.queues, work) && LengthsOk(s) && n in s.queues
    ensures var s' := RequeueWork(s, work);
            && s'.queues.Keys == s.queues.Keys
            && s'.queues[n] == Refilled(s.queues[n], MessageList(Back(work, n)))
    decreases |work|
  {
    hide RequeueEach, Refilled;
    if work == [] {
      RefillNone(s.queues[n]);
    } else {
      var w, rest := work[0], work[1..];
      var mine := if w.queue == n then w.records else [];
      assert forall i | 0 <= i < |rest| :: rest[i] == work[i + 1];
      MessageListJoin(mine, Back(rest, n));
      assert [] + Back(rest, n) == Back(rest, n);
      if w.queue in s.queues {
        var s1 := RequeueEach(s, w.queue, w.records);
        RequeueEachGens(s, w.queue, w.records);
        RequeueEachLengths(s, w.queue, w.records);
        ItemReturns(s, w, n, MessageList(Back(rest, n)));
        RequeueAll(s1, rest, n);
      } else {
        RequeueAll(s.(ledger := s.ledger.(gone := s.ledger.gone + MessagesOf(w.records))), rest, n);
      }
    }
  }

  /** The ids of the messages in the items whose queue is there. */
  ghost predicate IsBack(queues: map<Name, Queue>, work: seq<Work>, id: nat) {
    exists n, r :: n in queues && r in Back(work, n) && r.msg.id == id
  }

  lemma {:induction false} RequeueEachMarks(s: VHost, n: Name, records: seq<Record>, id: nat)
    requires n in s.queues
    ensures id in RequeueEach(s, n, records).redelivered <==>
            id in s.redelivered || exists r :: r in records && r.msg.id == id
    decreases |records|
  {
    if records != [] {
      var s1 := PushBack(s, n, records[0].msg);
      PushBackKeeps(s, n, records[0].msg);
      hide PushBack;
      RequeueEachMarks(s1, n, records[1..], id);
      assert records == [records[0]] + records[1..];
    }
  }

  lemma IsBackFirst(queues: map<Name, Queue>, work: seq<Work>, id: nat)
    requires work != []
    ensures IsBack(queues, work, id) <==>
            (work[0].queue in queues && exists r :: r in work[0].records && r.msg.id == id)
            || IsBack(queues, work[1..], id)
  {
    if n, r :| n in queues && r in Back(work[1..], n) && r.msg.id == id { assert r in Back(work, n); }
    if work[0].queue in queues {
      if r :| r in work[0].records && r.msg.id == id { assert r in Back(work, work[0].queue); }
    }
  }

  /** Exactly these are marked. */
  lemma {:induction false} RequeueAllMarks(s: VHost, work: seq<Work>, id: nat)
    requires GensOk(s.queues, work)
    ensures id in RequeueWork(s, work).redelivered <==> id in s.redelivered || IsBack(s.queues, work, id)
    decreases |work|
  {
    hide RequeueEach;
    if work != [] {
      var w, rest := work[0], work[1..];
      assert forall i | 0 <= i < |rest| :: rest[i] == work[i + 1];
      IsBackFirst(s.queues, work, id);
      if w.queue in s.queues {
        var s1 := RequeueEach(s, w.queue, w.records);
        RequeueEachGens(s, w.queue, w.records);
        RequeueEachMarks(s, w.queue, w.records, id);
        RequeueAllMarks(s1, rest, id);
        SameBack(s.queues, s1.queues, rest, id);
      } else {
        RequeueAllMarks(s.(ledger := s.ledger.(gone := s.ledger.gone + MessagesOf(w.records))), rest, id);
      }
    }
  }

  lemma SameBack(queues: map<Name, Queue>, queues': map<Name, Queue>, work: seq<Work>, id: nat)
    requires queues'.Keys == queues.Keys
    ensures IsBack(queues', work, id) == IsBack(queues, work, id)
  {
    hide Back;
  }

  /** The records whose queue is not there. */
  function Homeless(work: seq<Work>, names: set<Name>): seq<Record> {
    if work == [] then []
    else (if work[0].queue in names then [] else work[0].records) + Homeless(work[1..], names)
  }

  /** Of the ledger, only what has to make room for the messages changes, and what is gone. */
  ghost predicate OnlyRoom(l: Ledger, l': Ledger) {
    l' == l.(gone := l'.gone, evicted := l'.evicted, overflow := l'.overflow, deadLetters := l'.deadLetters)
  }

  lemma NoMessages(l: Ledger)
    ensures OnlyRoom(l, l) && l.gone + MessagesOf([]) == l.gone
  {
  }

  lemma RoomAgain(a: Ledger, b: Ledger, c: Ledger)
    requires OnlyRoom(b, c)
    ensures OnlyRoom(a, b) ==> OnlyRoom(a, c)
    ensures b == a.(gone := b.gone) ==> OnlyRoom(a, c)
  {
  }

  lemma {:induction false} RequeueEachLedger(s: VHost, n: Name, records: seq<Record>)
    requires n in s.queues
    ensures var l' := RequeueEach(s, n, records).ledger; OnlyRoom(s.ledger, l') && l'.gone == s.ledger.gone
    decreases |records|
  {
    if records != [] {
      PushBackLedger(s, n, records[0].msg);
      RequeueEachLedger(PushBack(s, n, records[0].msg), n, records[1..]);
    }
  }

  lemma PushBackLedger(s: VHost, n: Name, m: Message)
    requires n in s.queues
    ensures var l' := PushBack(s, n, m).ledger; OnlyRoom(s.ledger, l') && l'.gone == s.ledger.gone
  {
  }

  lemma {:induction false} RequeueAllLedger(s: VHost, work: seq<Work>)
    requires GensOk(s.queues, work)
    ensures var l' := RequeueWork(s, work).ledger;
            && OnlyRoom(s.ledger, l')
            && l'.gone == s.ledger.gone + MessagesOf(Homeless(work, s.queues.Keys))
    decreases |work|
  {
    hide RequeueEach, OnlyRoom, MessagesOf;
    if work == [] {
      NoMessages(s.ledger);
    } else {
      var w, rest := work[0], work[1..];
      assert forall i | 0 <= i < |rest| :: rest[i] == work[i + 1];
      var homeless := Homeless(rest, s.queues.Keys);
      assert [] + homeless == homeless;
      MessagesSplit(w.records, homeless);
      SumInHand(s.ledger.gone, MessagesOf(w.records), MessagesOf(homeless));
      if w.queue in s.queues {
        var s1 := RequeueEach(s, w.queue, w.records);
        RequeueEachGens(s, w.queue, w.records);
        RequeueEachLedger(s, w.queue, w.records);
        RequeueAllLedger(s1, rest);
        RoomAgain(s.ledger, s1.ledger, RequeueWork(s1, rest).ledger);
      } else {
        var l := s.ledger.(gone := s.ledger.gone + MessagesOf(w.records));
        RequeueAllLedger(s.(ledger := l), rest);
        RoomAgain(s.ledger, l, RequeueWork(s.(ledger := l), rest).ledger);
      }
    }
  }

  // ---------------------------------------------------------------- what each channel gives back

  /** One delivery that goes back: its channel, its tag and its message. */
  datatype Return = Return(key: ChannelKey, tag: nat, msg: Message)

  /** The delivery is on the channel, comes from the queue, and the queue is not deleted. */
  predicate Live(s: VHost, r: Return, n: Name) {
    && r.key in s.channels && r.tag in s.channels[r.key].records
    && var record := s.channels[r.key].records[r.tag];
       !record.queueDeleted && record.queue == n && record.msg == r.msg
  }

  /** The list has exactly the channels' live deliveries from the queue, each once, and those of one channel in
      the order of their tags. */
  ghost predicate Exactly(s: VHost, keys: set<ChannelKey>, n: Name, rs: seq<Return>) {
    && (forall i, j | 0 <= i < j < |rs| && rs[i].key == rs[j].key :: rs[i].tag < rs[j].tag)
    && (forall r: Return :: r in rs <==> r.key in keys && Live(s, r, n))
  }

  function ReturnsOf(key: ChannelKey, records: seq<Record>): (rs: seq<Return>)
    ensures |rs| == |records| && forall i | 0 <= i < |rs| :: rs[i] == Return(key, records[i].tag, records[i].msg)
  {
    if records == [] then [] else [Return(key, records[0].tag, records[0].msg)] + ReturnsOf(key, records[1..])
  }

  /** What goes back to the queue, in order. */
  function ReturnsTo(plan: seq<(ChannelKey, Taking)>, n: Name): seq<Return> {
    if plan == [] then [] else ReturnsOf(plan[0].0, ReturnedTo(plan[0].1.work, n)) + ReturnsTo(plan[1..], n)
  }

  function KeysOf(plan: seq<(ChannelKey, Taking)>): set<ChannelKey> {
    set i | 0 <= i < |plan| :: plan[i].0
  }

  lemma AgedLive(s: VHost, s': VHost, lost: set<Name>, r: Return, n: Name)
    requires Shrinks(s, s', lost) && n !in lost && r.key in s'.channels
    ensures Live(s', r, n) <==> Live(s, r, n)
  {
  }

  /** The work of one channel, taken off it once its consumers are cancelled. */
  lemma WorkExactly(s: VHost, s1: VHost, lost: set<Name>, key: ChannelKey, work: seq<Work>, n: Name)
    requires Shrinks(s, s1, lost) && n !in lost && key in s1.channels && IsWork(s1, s1.channels[key], work)
             && n in s1.queues && WellFormed(s1.channels[key])
    ensures Exactly(s, {key}, n, ReturnsOf(key, ReturnedTo(work, n)))
  {
    ReturnedExactly(s1, s1.channels[key], work, n);
    var records := ReturnedTo(work, n);
    hide IsWork, Shrinks, ReturnedTo;
    forall r: Return ensures r in ReturnsOf(key, records) <==> r.key == key && Live(s, r, n) {
      ReturnOf(key, records, r);
      if r.key == key {
        AgedLive(s, s1, lost, r, n);
        if Live(s1, r, n) { assert s1.channels[key].records[r.tag] in records; }
      }
    }
  }

  lemma ReturnOf(key: ChannelKey, records: seq<Record>, r: Return)
    ensures r in ReturnsOf(key, records) <==>
            r.key == key && exists record :: record in records && record.tag == r.tag && record.msg == r.msg
  {
    var rs := ReturnsOf(key, records);
    if r in rs {
      var i :| 0 <= i < |rs| && rs[i] == r;
      assert records[i] in records;
    }
    if record :| r.key == key && record in records && record.tag == r.tag && record.msg == r.msg {
      var i :| 0 <= i < |records| && records[i] == record;
      assert rs[i] == r;
    }
  }

  /** The channel loop's condition on one turn. */
  ghost predicate CanTake(s: VHost, key: ChannelKey, t: Taking) {
    var s1 := CancelChannelConsumers(s, key); if key in s1.channels then Takes(s1, key, t) else t.work == []
  }

  lemma TakeChannelShrinks(s: VHost, key: ChannelKey, t: Taking, extra: multiset<Message>)
    requires Sound(s, extra) && CanTake(s, key, t)
    ensures var s' := TakeChannel(s, key, t);
            var lost := Orphans(s.queues, Members(s.reg), Members(s'.reg));
            && Members(s'.reg) <= Members(s.reg)
            && s'.queues == s.queues - lost && Shrinks(s, s', lost) && s'.channels.Keys == s.channels.Keys - {key}
  {
    hide CancelChannelConsumers, Orphans, Sound, Takes, Shrinks, DropChannel, Members;
    var s1, s' := CancelChannelConsumers(s, key), TakeChannel(s, key, t);
    CancelChannelShrinks(s, key, extra);
    CancelChannelSound(s, key, extra);
    if key in s1.channels {
      NothingLeft(s1, key, t, extra);
      DropShrinks(s1, key, t);
    } else {
      ShrinksNot(s1);
    }
    assert s'.queues == s1.queues && s'.reg == s1.reg && s'.channels.Keys == s1.channels.Keys - {key};
    hide TakeChannel, CanTake;
    var lost := Orphans(s.queues, Members(s.reg), Members(s1.reg));
    ShrinksAgain(s, s1, s', lost, {});
    assert lost + {} == lost;
  }

  lemma NothingLeft(s: VHost, key: ChannelKey, t: Taking, extra: multiset<Message>)
    requires Sound(s, extra) && key in s.channels && Takes(s, key, t)
    ensures t.stranded == []
  {
    hide Structure, BooksOk, Takes;
    NothingStranded(s, key, t);
  }

  lemma DropShrinks(s: VHost, key: ChannelKey, t: Taking)
    requires t.stranded == []
    ensures var s' := DropChannel(s, key, t.dead, t.stranded);
            && Shrinks(s, s', {}) && s'.queues == s.queues && s'.reg == s.reg
            && s'.channels.Keys == s.channels.Keys - {key}
  {
    assert s.ledger.lost + multiset{} == s.ledger.lost;
  }

  lemma TakeChannelReturns(s: VHost, key: ChannelKey, t: Taking, n: Name, extra: multiset<Message>)
    requires Sound(s, extra) && CanTake(s, key, t) && n in TakeChannel(s, key, t).queues
    ensures Exactly(s, {key}, n, ReturnsOf(key, ReturnedTo(t.work, n)))
  {
    CancelChannelShrinks(s, key, extra);
    CancelChannelSound(s, key, extra);
    var s1 := CancelChannelConsumers(s, key);
    var lost := Orphans(s.queues, Members(s.reg), Members(s1.reg));
    assert n in s1.queues && n !in lost;
    hide CancelChannelConsumers, Shrinks, IsWork, Exactly, Orphans, Lists;
    if key in s1.channels {
      WellFormedChannel(s1, key);
      WorkExactly(s, s1, lost, key, t.work, n);
    } else {
      NoReturns(s, key, n);
    }
  }

  lemma NoReturns(s: VHost, key: ChannelKey, n: Name)
    requires key !in s.channels
    ensures Exactly(s, {key}, n, ReturnsOf(key, ReturnedTo([], n)))
  {
  }

  lemma ExactlyJoin(s: VHost, s1: VHost, lost: set<Name>, key: ChannelKey, keys: set<ChannelKey>, n: Name,
                    a: seq<Return>, b: seq<Return>)
    requires Shrinks(s, s1, lost) && n !in lost && s1.channels.Keys == s.channels.Keys - {key}
    requires Exactly(s, {key}, n, a) && Exactly(s1, keys, n, b)
    ensures Exactly(s, {key} + keys, n, a + b)
  {
    var rs := a + b;
    forall r: Return ensures r in rs <==> r.key in {key} + keys && Live(s, r, n) {
      assert r in rs <==> r in a || r in b;
      if r.key in s1.channels { AgedLive(s, s1, lost, r, n); }
    }
    forall i, j | 0 <= i < j < |rs| && rs[i].key == rs[j].key ensures rs[i].tag < rs[j].tag {
      assert j >= |a| ==> b[j - |a|] in b;
      assert i < |a| ==> a[i] in a;
      hide Live;
    }
  }

  /** What the channel loop takes for a queue that it leaves. */
  lemma {:induction false} TakeChannelsReturn(s: VHost, plan: seq<(ChannelKey, Taking)>, n: Name,
                                              extra: multiset<Message>)
    requires Sound(s, extra) && PlanOk(s, plan) && n in TakeChannels(s, plan).queues
    ensures Exactly(s, KeysOf(plan), n, ReturnsTo(plan, n))
    decreases |plan|
  {
    hide Sound, TakeChannel, Takes, CancelChannelConsumers, Exactly, Shrinks, Orphans;
    if plan == [] {
      NothingReturned(s, n);
    } else {
      var key, t, rest := plan[0].0, plan[0].1, plan[1..];
      var s1 := TakeChannel(s, key, t);
      TakeChannelSound(s, key, t, extra);
      TakeChannelShrinks(s, key, t, extra);
      TakeChannelsShrink(s1, rest, extra + MessagesOf(AllRecords(t.work)));
      TakeChannelReturns(s, key, t, n, extra);
      TakeChannelsReturn(s1, rest, n, extra + MessagesOf(AllRecords(t.work)));
      ExactlyJoin(s, s1, Orphans(s.queues, Members(s.reg), Members(s1.reg)), key, KeysOf(rest), n,
                  ReturnsOf(key, ReturnedTo(t.work, n)), ReturnsTo(rest, n));
      KeysFirst(plan);
    }
  }

  lemma NothingReturned(s: VHost, n: Name)
    ensures Exactly(s, KeysOf([]), n, ReturnsTo([], n))
  {
  }

  lemma KeysFirst(plan: seq<(ChannelKey, Taking)>)
    requires plan != []
    ensures KeysOf(plan) == {plan[0].0} + KeysOf(plan[1..])
  {
    forall k ensures k in KeysOf(plan) <==> k == plan[0].0 || k in KeysOf(plan[1..]) {
      if i :| 0 <= i < |plan| && plan[i].0 == k && i > 0 { assert plan[1..][i - 1] == plan[i]; }
      if i :| 0 <= i < |plan[1..]| && plan[1..][i].0 == k { assert plan[i + 1] == plan[1..][i]; }
    }
  }

  lemma {:induction false} TakeChannelsShrink(s: VHost, plan: seq<(ChannelKey, Taking)>, extra: multiset<Message>)
    requires Sound(s, extra) && PlanOk(s, plan)
    ensures var s' := TakeChannels(s, plan);
            var lost := Orphans(s.queues, Members(s.reg), Members(s'.reg));
            && Members(s'.reg) <= Members(s.reg)
            && s'.queues == s.queues - lost && Shrinks(s, s', lost)
            && s'.channels.Keys == s.channels.Keys - KeysOf(plan)
    decreases |plan|
  {
    hide Sound, TakeChannel, Takes, CancelChannelConsumers, Shrinks, Orphans, KeysOf;
    if plan == [] {
      NoOrphans(s.queues, Members(s.reg));
      ShrinksNot(s);
      NoKeys(s.channels.Keys);
    } else {
      var key, t, rest := plan[0].0, plan[0].1, plan[1..];
      var s1 := TakeChannel(s, key, t);
      var s' := TakeChannels(s1, rest);
      TakeChannelSound(s, key, t, extra);
      TakeChannelShrinks(s, key, t, extra);
      TakeChannelsShrink(s1, rest, extra + MessagesOf(AllRecords(t.work)));
      OrphansTwice(s.queues, Members(s.reg), Members(s1.reg), Members(s'.reg));
      ShrinksAgain(s, s1, s', Orphans(s.queues, Members(s.reg), Members(s1.reg)),
                   Orphans(s1.queues, Members(s1.reg), Members(s'.reg)));
      KeysFirst(plan);
    }
  }

  lemma NoKeys(keys: set<ChannelKey>)
    ensures keys - KeysOf([]) == keys
  {
  }

  // ---------------------------------------------------------------- before anything goes back

  lemma {:induction false} CancelEachShrinks(s: VHost, cs: seq<Consumer>, extra: multiset<Message>)
    requires Sound(s, extra) && NoDup(cs) && forall c | c in cs :: c in Members(s.reg)
    ensures var s' := CancelEach(s, cs);
            var lost := Orphans(s.queues, Members(s.reg), Members(s'.reg));
            && Members(s'.reg) <= Members(s.reg)
            && s'.queues == s.queues - lost && Shrinks(s, s', lost) && s'.channels.Keys == s.channels.Keys
    decreases |cs|
  {
    hide Structure, BooksOk, CancelLocked, Shrinks, Orphans;
    if cs == [] {
      NoOrphans(s.queues, Members(s.reg));
      ShrinksNot(s);
    } else {
      var s1 := CancelLocked(s, cs[0]);
      CancelSound(s, cs[0], extra);
      CancelShrinks(s, cs[0]);
      ListedTail(cs, Members(s.reg));
      CancelEachShrinks(s1, cs[1..], extra);
      var s' := CancelEach(s1, cs[1..]);
      OrphansTwice(s.queues, Members(s.reg), Members(s1.reg), Members(s'.reg));
      ShrinksAgain(s, s1, s', Orphans(s.queues, Members(s.reg), Members(s1.reg)),
                   Orphans(s1.queues, Members(s1.reg), Members(s'.reg)));
    }
  }

  lemma {:induction false} DeleteEachShrinks(s: VHost, names: seq<Name>)
    ensures var s' := DeleteEach(s, names);
            && s'.queues == s.queues - (set n | n in names)
            && Shrinks(s, s', s.queues.Keys - s'.queues.Keys) && s'.channels.Keys == s.channels.Keys
    decreases |names|
  {
    hide DeleteQueue, Shrinks;
    if names == [] {
      assert s.queues.Keys - s.queues.Keys == {};
      ShrinksNot(s);
    } else {
      var n, rest := names[0], names[1..];
      assert forall x :: x in names <==> x == n || x in rest by { assert names == [n] + rest; }
      if n in s.queues {
        var s1 := DeleteQueue(s, n);
        var s' := DeleteEach(s1, rest);
        DeleteQueueShrinks(s, n);
        DeleteEachShrinks(s1, rest);
        ShrinksAgain(s, s1, s', {n}, s1.queues.Keys - s'.queues.Keys);
        assert {n} + (s1.queues.Keys - s'.queues.Keys) == s.queues.Keys - s'.queues.Keys;
      } else {
        DeleteEachShrinks(s, rest);
      }
    }
  }

  /** The host before what was taken goes back. */
  function Cleared(s: VHost, conn: Name, plan: seq<(ChannelKey, Taking)>, rest: seq<Consumer>, doomed: seq<Name>)
    : VHost
  {
    DeleteEach(Disown(CancelEach(TakeChannels(s, plan), rest), conn), doomed)
  }

  /** What a queue keeps when the connection goes. */
  function Freed(q: Queue, conn: Name): Queue {
    if q.owner == Some(conn) && !q.exclusive then q.(owner := None) else q
  }

  /** The queue goes with the connection: it is exclusive to it, or is declared auto-delete and loses its
      consumers, of which there is at least one. */
  ghost predicate GoesWith(s: VHost, conn: Name, n: Name)
    requires n in s.queues
  {
    || (s.queues[n].exclusive && s.queues[n].owner == Some(conn))
    || (s.queues[n].autoDelete && (exists c :: c in Members(s.reg) && c.queue == n)
        && forall c | c in Members(s.reg) && c.queue == n :: c.conn == conn)
  }

  /** The consumers that leave are the connection's. */
  lemma AllCancelled(s: VHost, conn: Name, plan: seq<(ChannelKey, Taking)>, rest: seq<Consumer>, doomed: seq<Name>)
    requires Sound(s, multiset{}) && ConnectionOrder(s, conn, plan, rest, doomed)
    ensures var s1 := TakeChannels(s, plan);
            var extra := multiset{} + MessagesOf(AllRecords(Collected(plan)));
            && Sound(s1, extra) && WorkOk(Collected(plan)) && (forall c | c in rest :: c in Members(s1.reg))
            && Sound(CancelEach(s1, rest), extra)
            && Members(CancelEach(s1, rest).reg) == set c | c in Members(s.reg) && c.conn != conn
  {
    hide Sound, TakeChannels, CancelEach, Disown, PlanOk;
    var s1 := TakeChannels(s, plan);
    TakeChannelsSound(s, plan, multiset{});
    RestListed(s1, conn, rest);
    CancelEachSound(s1, rest, multiset{} + MessagesOf(AllRecords(Collected(plan))));
    hide Members, Owned, ChannelsOfConnection;
    forall c | c in Members(s.reg) && !Untouched(c, plan) ensures c.conn == conn { NotUntouched(c, plan, conn); }
  }

  lemma {:induction false} NotUntouched(c: Consumer, plan: seq<(ChannelKey, Taking)>, conn: Name)
    requires !Untouched(c, plan) && forall i | 0 <= i < |plan| :: plan[i].0.conn == conn
    ensures c.conn == conn
    decreases |plan|
  {
    if HomeOf(c) != plan[0].0 {
      assert forall i | 0 <= i < |plan[1..]| :: plan[1..][i] == plan[i + 1];
      NotUntouched(c, plan[1..], conn);
    }
  }

  lemma ClearedQueues(s: VHost, conn: Name, plan: seq<(ChannelKey, Taking)>, rest: seq<Consumer>, doomed: seq<Name>)
    requires Sound(s, multiset{}) && ConnectionOrder(s, conn, plan, rest, doomed)
    ensures var s' := Cleared(s, conn, plan, rest, doomed);
            && s'.queues.Keys == (set n | n in s.queues && !GoesWith(s, conn, n))
            && (forall n | n in s'.queues :: s'.queues[n] == Freed(s.queues[n], conn))
            && Shrinks(s, s', s.queues.Keys - s'.queues.Keys)
            && s'.channels.Keys == s.channels.Keys - KeysOf(plan)
            && s'.queues.Keys <= TakeChannels(s, plan).queues.Keys
  {
    hide Sound, TakeChannels, CancelEach, Disown, PlanOk, DeleteEach, Shrinks, Orphans, KeysOf, ChannelsOfConnection,
      Members;
    AllCancelled(s, conn, plan, rest, doomed);
    var extra := multiset{} + MessagesOf(AllRecords(Collected(plan)));
    var s1 := TakeChannels(s, plan);
    var s2 := CancelEach(s1, rest);
    var s3 := Disown(s2, conn);
    var s4 := DeleteEach(s3, doomed);
    TakeChannelsShrink(s, plan, multiset{});
    CancelEachShrinks(s1, rest, extra);
    OrphansTwice(s.queues, Members(s.reg), Members(s1.reg), Members(s2.reg));
    ShrinksAgain(s, s1, s2, Orphans(s.queues, Members(s.reg), Members(s1.reg)),
                 Orphans(s1.queues, Members(s1.reg), Members(s2.reg)));
    var lost := Orphans(s.queues, Members(s.reg), Members(s2.reg));
    DisownShrinks(s2, conn);
    DeleteEachShrinks(s3, doomed);
    ShrinksAgain(s, s2, s3, lost, {});
    ShrinksAgain(s, s3, s4, lost + {}, s3.queues.Keys - s4.queues.Keys);
    forall n | n in s.queues ensures n in s4.queues <==> !GoesWith(s, conn, n) {
      OrphanWith(s, conn, n);
    }
    forall n | n in lost ensures n in s.queues { OrphanThere(s.queues, Members(s.reg), Members(s2.reg), n); }
    assert lost + {} + (s3.queues.Keys - s4.queues.Keys) == s.queues.Keys - s4.queues.Keys;
  }

  lemma OrphanThere(queues: map<Name, Queue>, a: set<Consumer>, b: set<Consumer>, n: Name)
    requires n in Orphans(queues, a, b)
    ensures n in queues
  {
  }

  lemma OrphanWith(s: VHost, conn: Name, n: Name)
    requires n in s.queues
    ensures n in Orphans(s.queues, Members(s.reg), set c | c in Members(s.reg) && c.conn != conn) <==>
            && s.queues[n].autoDelete && (exists c :: c in Members(s.reg) && c.queue == n)
            && forall c | c in Members(s.reg) && c.queue == n :: c.conn == conn
  {
    hide Members;
    var members := Members(s.reg);
    var left := set c | c in members && c.conn != conn;
    if c :| c in members && c.queue == n && c.conn != conn { assert c in left; }
  }

  lemma DisownShrinks(s: VHost, conn: Name)
    ensures var s' := Disown(s, conn);
            && Shrinks(s, s', {}) && s'.queues.Keys == s.queues.Keys && s'.channels.Keys == s.channels.Keys
            && forall n | n in s.queues :: s'.queues[n] == Freed(s.queues[n], conn)
  {
  }

  // ---------------------------------------------------------------- the queues of a closed connection

  function ReturnMessages(rs: seq<Return>): (ms: seq<Message>)
    ensures |ms| == |rs| && forall i | 0 <= i < |rs| :: ms[i] == rs[i].msg
  {
    if rs == [] then [] else [rs[0].msg] + ReturnMessages(rs[1..])
  }

  lemma {:induction false} SameMessages(key: ChannelKey, records: seq<Record>)
    ensures ReturnMessages(ReturnsOf(key, records)) == MessageList(records)
    decreases |records|
  {
    if records != [] {
      SameMessages(key, records[1..]);
      assert ReturnsOf(key, records)[1..] == ReturnsOf(key, records[1..]);
    }
  }

  lemma ReturnMessagesJoin(a: seq<Return>, b: seq<Return>)
    ensures ReturnMessages(a + b) == ReturnMessages(a) + ReturnMessages(b)
  {
  }

  lemma {:induction false} BackJoin(a: seq<Work>, b: seq<Work>, n: Name)
    ensures Back(a + b, n) == Back(a, n) + Back(b, n)
    decreases |a|
  {
    if a == [] {
      assert a + b == b;
    } else {
      assert (a + b)[1..] == a[1..] + b;
      BackJoin(a[1..], b, n);
    }
  }

  ghost predicate OncePerQueue(work: seq<Work>) {
    forall i, j | 0 <= i < j < |work| :: work[i].queue != work[j].queue
  }

  lemma {:induction false} BackOnce(work: seq<Work>, n: Name)
    requires OncePerQueue(work)
    ensures Back(work, n) == ReturnedTo(work, n)
    decreases |work|
  {
    if work != [] {
      var rest := work[1..];
      assert forall i | 0 <= i < |rest| :: rest[i] == work[i + 1];
      BackOnce(rest, n);
      if work[0].queue == n { NotReturned(rest, n); }
      assert [] + Back(rest, n) == Back(rest, n) && work[0].records + [] == work[0].records;
    }
  }

  /** Every item of the work was made for a queue of the host, and each channel's for different ones. */
  ghost predicate MadeFor(queues: map<Name, Queue>, work: seq<Work>) {
    forall i | 0 <= i < |work| :: work[i].queue in queues && queues[work[i].queue].gen == work[i].gen
  }

  lemma TakenFor(s: VHost, key: ChannelKey, t: Taking, extra: multiset<Message>)
    requires Sound(s, extra) && CanTake(s, key, t)
    ensures MadeFor(s.queues, t.work) && OncePerQueue(t.work)
  {
    hide Sound, CancelChannelConsumers, Orphans, Shrinks, Lists, Members;
    CancelChannelShrinks(s, key, extra);
  }

  lemma MadeForJoin(queues: map<Name, Queue>, queues': map<Name, Queue>, lost: set<Name>, a: seq<Work>, b: seq<Work>)
    requires queues' == queues - lost && MadeFor(queues, a) && MadeFor(queues', b)
    ensures MadeFor(queues, a + b)
  {
  }

  lemma {:induction false} CollectedFor(s: VHost, plan: seq<(ChannelKey, Taking)>, n: Name, extra: multiset<Message>)
    requires Sound(s, extra) && PlanOk(s, plan)
    ensures MadeFor(s.queues, Collected(plan))
    ensures MessageList(Back(Collected(plan), n)) == ReturnMessages(ReturnsTo(plan, n))
    decreases |plan|
  {
    hide Sound, TakeChannel, Takes, CancelChannelConsumers, MadeFor, OncePerQueue, Shrinks, Orphans, Members;
    if plan == [] {
      NothingMade(s.queues);
    } else {
      var key, t, rest := plan[0].0, plan[0].1, plan[1..];
      var s1, extra1 := TakeChannel(s, key, t), extra + MessagesOf(AllRecords(t.work));
      TakeChannelSound(s, key, t, extra);
      TakeChannelShrinks(s, key, t, extra);
      TakenFor(s, key, t, extra);
      CollectedFor(s1, rest, n, extra1);
      MadeForJoin(s.queues, s1.queues, Orphans(s.queues, Members(s.reg), Members(s1.reg)), t.work, Collected(rest));
      BackJoin(t.work, Collected(rest), n);
      BackOnce(t.work, n);
      MessageListJoin(Back(t.work, n), Back(Collected(rest), n));
      SameMessages(key, ReturnedTo(t.work, n));
      ReturnMessagesJoin(ReturnsOf(key, ReturnedTo(t.work, n)), ReturnsTo(rest, n));
    }
  }

  lemma NothingMade(queues: map<Name, Queue>)
    ensures MadeFor(queues, Collected([]))
  {
  }

  lemma SoundLengths(s: VHost, extra: multiset<Message>)
    requires Sound(s, extra)
    ensures LengthsOk(s)
  {
    hide BooksOk, RegistryOk, Linked, Bounded, ConsumersOk, ChannelsOk, Rooted, Left;
    assert forall n | n in s.queues :: QueueOk(s.queues[n]);
  }

  lemma MadeForLeft(queues: map<Name, Queue>, queues': map<Name, Queue>, conn: Name, work: seq<Work>)
    requires MadeFor(queues, work) && queues'.Keys <= queues.Keys
    requires forall n | n in queues' :: queues'[n] == Freed(queues[n], conn)
    ensures GensOk(queues', work)
  {
  }

  lemma LengthsLeft(s: VHost, s': VHost, conn: Name)
    requires LengthsOk(s) && s'.queues.Keys <= s.queues.Keys
    requires forall n | n in s'.queues :: s'.queues[n] == Freed(s.queues[n], conn)
    ensures LengthsOk(s')
  {
  }

  /** All of the connection's live deliveries, whichever channels the plan lists. */
  lemma OfConnection(s: VHost, conn: Name, plan: seq<(ChannelKey, Taking)>, n: Name, rs: seq<Return>)
    requires Exactly(s, KeysOf(plan), n, rs) && (forall i | 0 <= i < |plan| :: plan[i].0.conn == conn)
    requires ChannelsOfConnection(s, conn) <= KeysOf(plan)
    ensures forall i, j | 0 <= i < j < |rs| && rs[i].key == rs[j].key :: rs[i].tag < rs[j].tag
    ensures forall r: Return :: r in rs <==> r.key.conn == conn && Live(s, r, n)
  {
    forall r: Return ensures r in rs <==> r.key.conn == conn && Live(s, r, n) {
      if r.key.conn == conn && r.key in s.channels { assert r.key in ChannelsOfConnection(s, conn); }
    }
  }

  /** The close of a connection, queue by queue. A queue goes exactly if it is exclusive to the connection, or
      is declared auto-delete and all of its consumers, at least one, are the connection's. Every other one
      holds what it held, and after that, within its length, exactly the live deliveries from it on the
      connection's channels: each once, those of one channel in the order of their tags, all of them marked
      as redelivered. */
  lemma CloseConnectionReturns(s: VHost, conn: Name, plan: seq<(ChannelKey, Taking)>, rest: seq<Consumer>,
                               doomed: seq<Name>, n: Name)
    requires Sound(s, multiset{}) && ConnectionOrder(s, conn, plan, rest, doomed) && n in s.queues
    ensures var s', rs := CloseConnection(s, conn, plan, rest, doomed), ReturnsTo(plan, n);
            && (n in s'.queues <==> !GoesWith(s, conn, n))
            && (n in s'.queues ==>
                && s'.queues[n] == Refilled(Freed(s.queues[n], conn), ReturnMessages(rs))
                && (forall i, j | 0 <= i < j < |rs| && rs[i].key == rs[j].key :: rs[i].tag < rs[j].tag)
                && (forall r: Return :: r in rs <==> r.key.conn == conn && Live(s, r, n))
                && (forall r | r in rs :: r.msg.id in s'.redelivered))
  {
    hide *;
    var s1 := Cleared(s, conn, plan, rest, doomed);
    CloseIs(s, conn, plan, rest, doomed);
    ClearedQueues(s, conn, plan, rest, doomed);
    OrderOf(s, conn, plan, rest, doomed);
    CollectedFor(s, plan, n, multiset{});
    MadeForLeft(s.queues, s1.queues, conn, Collected(plan));
    SoundLengths(s, multiset{});
    LengthsLeft(s, s1, conn);
    RequeueKeys(s1, Collected(plan));
    if n in s1.queues {
      RequeueAll(s1, Collected(plan), n);
      BackMarked(s1, plan, n);
      TakeChannelsReturn(s, plan, n, multiset{});
      OfConnection(s, conn, plan, n, ReturnsTo(plan, n));
    }
  }

  lemma OrderOf(s: VHost, conn: Name, plan: seq<(ChannelKey, Taking)>, rest: seq<Consumer>, doomed: seq<Name>)
    requires ConnectionOrder(s, conn, plan, rest, doomed)
    ensures PlanOk(s, plan) && (forall i | 0 <= i < |plan| :: plan[i].0.conn == conn)
            && ChannelsOfConnection(s, conn) <= KeysOf(plan)
  {
    hide PlanOk, TakeChannels, CancelEach, Owned, ChannelsOfConnection;
  }

  lemma {:induction false} RequeueKeys(s: VHost, work: seq<Work>)
    ensures RequeueWork(s, work).queues.Keys == s.queues.Keys
    decreases |work|
  {
    hide RequeueEach;
    if work != [] {
      var w := work[0];
      RequeueKeys(if w.queue in s.queues && s.queues[w.queue].gen == w.gen then RequeueEach(s, w.queue, w.records)
                  else s.(ledger := s.ledger.(gone := s.ledger.gone + MessagesOf(w.records))), work[1..]);
    }
  }

  lemma {:induction false} MessageAt(records: seq<Record>, i: nat)
    requires i < |records|
    ensures |MessageList(records)| == |records| && MessageList(records)[i] == records[i].msg
    decreases |records|
  {
    if i > 0 {
      MessageAt(records[1..], i - 1);
    } else if |records| > 1 {
      MessageAt(records[1..], 0);
    }
  }

  lemma {:induction false} MessageIndex(records: seq<Record>, i: nat)
    requires i < |MessageList(records)|
    ensures i < |records| && MessageList(records)[i] == records[i].msg
    decreases |records|
  {
    if records != [] { MessageAt(records, 0); MessageAt(records, i); }
  }

  lemma BackMarked(s: VHost, plan: seq<(ChannelKey, Taking)>, n: Name)
    requires n in s.queues && GensOk(s.queues, Collected(plan))
    requires MessageList(Back(Collected(plan), n)) == ReturnMessages(ReturnsTo(plan, n))
    ensures forall r | r in ReturnsTo(plan, n) :: r.msg.id in RequeueWork(s, Collected(plan)).redelivered
  {
    hide GensOk, RequeueWork;
    var rs, records := ReturnsTo(plan, n), Back(Collected(plan), n);
    forall r | r in rs ensures r.msg.id in RequeueWork(s, Collected(plan)).redelivered {
      var i :| 0 <= i < |rs| && rs[i] == r;
      assert ReturnMessages(rs)[i] == r.msg;
      MessageIndex(records, i);
      assert records[i] in records;
      RequeueAllMarks(s, Collected(plan), r.msg.id);
    }
  }

  lemma CloseIs(s: VHost, conn: Name, plan: seq<(ChannelKey, Taking)>, rest: seq<Consumer>, doomed: seq<Name>)
    ensures CloseConnection(s, conn, plan, rest, doomed)
            == RequeueWork(Cleared(s, conn, plan, rest, doomed), Collected(plan))
  {
    hide RequeueWork, DeleteEach, Disown, CancelEach, TakeChannels;
  }

  lemma BackIs(plan: seq<(ChannelKey, Taking)>, n: Name, id: nat)
    requires MessageList(Back(Collected(plan), n)) == ReturnMessages(ReturnsTo(plan, n))
    ensures (exists r :: r in Back(Collected(plan), n) && r.msg.id == id) <==>
            (exists r :: r in ReturnsTo(plan, n) && r.msg.id == id)
  {
    var rs, records := ReturnsTo(plan, n), Back(Collected(plan), n);
    hide ReturnsTo, Back;
    if r :| r in records && r.msg.id == id {
      var i :| 0 <= i < |records| && records[i] == r;
      MessageAt(records, i);
      assert rs[i] in rs && rs[i].msg == r.msg;
    }
    if r :| r in rs && r.msg.id == id {
      var i :| 0 <= i < |rs| && rs[i] == r;
      MessageIndex(records, i);
      assert records[i] in records && records[i].msg == r.msg;
    }
  }

  /** Some live delivery of the connection from a queue that stays has the id. */
  ghost predicate GoesBackById(s: VHost, s': VHost, conn: Name, id: nat) {
    exists n, r: Return :: n in s'.queues && r.key.conn == conn && Live(s, r, n) && r.msg.id == id
  }

  lemma MarkedByOne(s: VHost, s': VHost, conn: Name, plan: seq<(ChannelKey, Taking)>, n: Name, id: nat)
    requires forall r: Return :: r in ReturnsTo(plan, n) <==> r.key.conn == conn && Live(s, r, n)
    requires MessageList(Back(Collected(plan), n)) == ReturnMessages(ReturnsTo(plan, n))
    ensures (exists r :: r in Back(Collected(plan), n) && r.msg.id == id) <==>
            (exists r: Return :: r.key.conn == conn && Live(s, r, n) && r.msg.id == id)
  {
    hide Live, ReturnsTo, Back;
    BackIs(plan, n, id);
  }

  /** Exactly what goes back is marked, and the channels of other connections keep their deliveries: those of
      deleted queues are marked, and nothing else happens to them. */
  lemma CloseConnectionElse(s: VHost, conn: Name, plan: seq<(ChannelKey, Taking)>, rest: seq<Consumer>,
                            doomed: seq<Name>, id: nat, key: ChannelKey)
    requires Sound(s, multiset{}) && ConnectionOrder(s, conn, plan, rest, doomed)
    ensures var s' := CloseConnection(s, conn, plan, rest, doomed);
            && (id in s'.redelivered <==> id in s.redelivered || GoesBackById(s, s', conn, id))
            && (key in s'.channels <==> key in s.channels && key.conn != conn)
            && (key in s'.channels ==> Aged(s.channels[key], s'.channels[key], s.queues.Keys - s'.queues.Keys))
  {
    hide *;
    var s1 := Cleared(s, conn, plan, rest, doomed);
    CloseIs(s, conn, plan, rest, doomed);
    ClearedQueues(s, conn, plan, rest, doomed);
    OrderOf(s, conn, plan, rest, doomed);
    CollectedFor(s, plan, Name(""), multiset{});
    MadeForLeft(s.queues, s1.queues, conn, Collected(plan));
    RequeueKeys(s1, Collected(plan));
    RequeueWorkChannels(s1, Collected(plan));
    RequeueAllMarks(s1, Collected(plan), id);
    forall n | n in s1.queues
      ensures (exists r :: r in Back(Collected(plan), n) && r.msg.id == id) <==>
              (exists r: Return :: r.key.conn == conn && Live(s, r, n) && r.msg.id == id)
    {
      CollectedFor(s, plan, n, multiset{});
      TakeChannelsReturn(s, plan, n, multiset{});
      OfConnection(s, conn, plan, n, ReturnsTo(plan, n));
      MarkedByOne(s, RequeueWork(s1, Collected(plan)), conn, plan, n, id);
    }
    MarksMatch(s, s1, RequeueWork(s1, Collected(plan)), conn, plan, id);
    OfOthers(s, s1, conn, plan, key);
  }

  lemma MarksMatch(s: VHost, s1: VHost, s': VHost, conn: Name, plan: seq<(ChannelKey, Taking)>, id: nat)
    requires s1.queues.Keys == s'.queues.Keys
    requires forall n | n in s1.queues ::
               (exists r :: r in Back(Collected(plan), n) && r.msg.id == id) <==>
               (exists r: Return :: r.key.conn == conn && Live(s, r, n) && r.msg.id == id)
    ensures IsBack(s1.queues, Collected(plan), id) <==> GoesBackById(s, s', conn, id)
  {
    hide Live, Back, Collected;
    if n, r :| n in s1.queues && r in Back(Collected(plan), n) && r.msg.id == id {
      var back: Return :| back.key.conn == conn && Live(s, back, n) && back.msg.id == id;
    }
    if n, r: Return :| n in s'.queues && r.key.conn == conn && Live(s, r, n) && r.msg.id == id {
      var record :| record in Back(Collected(plan), n) && record.msg.id == id;
    }
  }

  lemma OfOthers(s: VHost, s1: VHost, conn: Name, plan: seq<(ChannelKey, Taking)>, key: ChannelKey)
    requires s1.channels.Keys == s.channels.Keys - KeysOf(plan)
    requires (forall i | 0 <= i < |plan| :: plan[i].0.conn == conn) && ChannelsOfConnection(s, conn) <= KeysOf(plan)
    requires Shrinks(s, s1, s.queues.Keys - s1.queues.Keys)
    ensures key in s1.channels <==> key in s.channels && key.conn != conn
    ensures key in s1.channels ==> Aged(s.channels[key], s1.channels[key], s.queues.Keys - s1.queues.Keys)
    ensures s1.redelivered == s.redelivered
  {
    if key.conn == conn && key in s.channels { assert key in ChannelsOfConnection(s, conn); }
    assert key in s1.channels <==> key in s1.channels.Keys;
    hide Aged;
  }

  // ---------------------------------------------------------------- the queues of a closed channel

  /** The close of a channel, queue by queue, said in the same way. */
  lemma CloseChannelReturns(s: VHost, key: ChannelKey, t: Taking, n: Name)
    requires Sound(s, multiset{}) && key in s.channels && n in s.queues
    requires key in CancelChannelConsumers(s, key).channels ==> Takes(CancelChannelConsumers(s, key), key, t)
    ensures var s', records := CloseChannel(s, key, t), ReturnedTo(t.work, n);
            && (n !in s'.queues <==>
                && s.queues[n].autoDelete
                && (exists c :: c in Members(s.reg) && c.queue == n)
                && (forall c | c in Members(s.reg) && c.queue == n :: HomeOf(c) == key))
            && (n in s'.queues ==>
                && s'.queues[n] == Refilled(s.queues[n], MessageList(records))
                && Exactly(s, {key}, n, ReturnsOf(key, records))
                && (forall r | r in records :: r.msg.id in s'.redelivered))
  {
    hide *;
    var s1 := CancelChannelConsumers(s, key);
    ChannelKeepsQueues(s, key, n);
    CancelChannelSound(s, key, multiset{});
    CancelChannelShrinks(s, key, multiset{});
    TakenHere(s, s1, key, t);
    RequeueKeys(DropChannel(s1, key, t.dead, t.stranded), t.work);
    if n in s1.queues {
      SoundLengths(s1, multiset{});
      TakeChannelReturns(s, key, t, n, multiset{});
      CloseReturns(s, key, t, n);
    }
  }

  lemma TakenHere(s: VHost, s1: VHost, key: ChannelKey, t: Taking)
    requires s1 == CancelChannelConsumers(s, key) && key in s1.channels && Takes(s1, key, t)
    ensures CanTake(s, key, t) && TakeChannel(s, key, t) == DropChannel(s1, key, t.dead, t.stranded)
    ensures CloseChannel(s, key, t) == RequeueWork(DropChannel(s1, key, t.dead, t.stranded), t.work)
    ensures DropChannel(s1, key, t.dead, t.stranded).queues == s1.queues
  {
    hide CancelChannelConsumers, Takes, RequeueWork;
  }
}
