/**
 Which messages are gone when a connection is closed: what the queues held that go with it, and what its
 channels held from queues that are deleted, now or before. Nothing else.
 */
module GoneResults {
  import opened Collections
  import opened ChannelDelivery
  import opened VHostState
  import opened RegistryProofs
  import opened StructureProofs
  import opened ConservationProofs
  import opened HandlerProofs
  import opened DeliveryProofs
  import opened CloseProofs
  import opened CancelResults
  import opened CloseResults

  // ---------------------------------------------------------------- what deleted queues held

  /** The messages of the queues that are left out, and out besides, are booked as gone. */
  ghost predicate Goes(s: VHost, s': VHost, out: multiset<Message>) {
    && s'.queues.Keys <= s.queues.Keys
    && (forall n | n in s'.queues :: QueueMessages(s'.queues[n]) == QueueMessages(s.queues[n]))
    && s'.ledger.gone == s.ledger.gone + (Sum(s.queues - s'.queues.Keys, QueueMessages) + out)
  }

  lemma GoesNot(s: VHost, s': VHost)
    requires s'.queues == s.queues && s'.ledger == s.ledger
    ensures Goes(s, s', multiset{})
  {
    assert s.queues - s'.queues.Keys == map[];
  }

  lemma LeftOut(a: map<Name, Queue>, b: map<Name, Queue>, c: map<Name, Queue>)
    requires c.Keys <= b.Keys <= a.Keys && forall n | n in b :: QueueMessages(b[n]) == QueueMessages(a[n])
    ensures Sum(a - c.Keys, QueueMessages) == Sum(a - b.Keys, QueueMessages) + Sum(b - c.Keys, QueueMessages)
  {
    hide QueueMessages;
    SumSplit(a - c.Keys, QueueMessages, b.Keys);
    assert a - c.Keys - b.Keys == a - b.Keys;
    SumSame(Only(a - c.Keys, b.Keys), b - c.Keys, QueueMessages);
  }

  lemma Added(gone: multiset<Message>, a: multiset<Message>, b: multiset<Message>, c: multiset<Message>,
              d: multiset<Message>)
    ensures gone + (a + b) + (c + d) == gone + (a + c + (b + d))
  {
  }

  lemma GoesAgain(a: VHost, b: VHost, c: VHost, out: multiset<Message>, out': multiset<Message>)
    requires Goes(a, b, out) && Goes(b, c, out')
    ensures Goes(a, c, out + out')
  {
    hide QueueMessages;
    LeftOut(a.queues, b.queues, c.queues);
    Added(a.ledger.gone, Sum(a.queues - b.queues.Keys, QueueMessages), out,
          Sum(b.queues - c.queues.Keys, QueueMessages), out');
  }

  lemma DeleteQueueGoes(s: VHost, n: Name)
    requires n in s.queues
    ensures Goes(s, DeleteQueue(s, n), multiset{})
  {
    hide RemoveQueueConsumers, Held, DetachFromAll;
    var m := s.queues - (s.queues - {n}).Keys;
    assert m == map[n := s.queues[n]];
    SumPick(m, QueueMessages, n);
    assert m - {n} == map[];
    assert QueueMessages(s.queues[n]) + multiset{} == QueueMessages(s.queues[n]);
  }

  lemma CancelGoes(s: VHost, c: Consumer)
    ensures Goes(s, CancelLocked(s, c), multiset{})
  {
    hide Goes, DeleteQueue, Detach, Unregister, AutoDeletes;
    CancelInTwoSteps(s, c);
    hide CancelLocked;
    NoneAnd(multiset{});
    var s1 := LeftBy(s, c);
    GoesNot(s, s1);
    if AutoDeletes(s1, c.queue) {
      AutoDeletesQueue(s1, c.queue);
      DeleteQueueGoes(s1, c.queue);
      GoesAgain(s, s1, DeleteQueue(s1, c.queue), multiset{}, multiset{});
    }
  }

  lemma AutoDeletesQueue(s: VHost, n: Name)
    requires AutoDeletes(s, n)
    ensures n in s.queues
  {
  }

  lemma {:induction false} CancelListedGoes(s: VHost, key: ChannelKey, cs: seq<Consumer>)
    ensures Goes(s, CancelListed(s, key, cs), multiset{})
    decreases |cs|
  {
    hide CancelLocked, Goes;
    NoneAnd(multiset{});
    GoesNot(s, s);
    if cs != [] {
      var c := cs[0];
      var cancel := c.conn == key.conn && c.Key() in s.reg.consumers && s.reg.consumers[c.Key()] == c;
      var s1 := if cancel then CancelLocked(s, c) else s;
      CancelGoes(s, c);
      CancelListedGoes(s1, key, cs[1..]);
      GoesAgain(s, s1, CancelListed(s1, key, cs[1..]), multiset{}, multiset{});
    }
  }

  lemma CancelChannelGoes(s: VHost, key: ChannelKey)
    ensures Goes(s, CancelChannelConsumers(s, key), multiset{})
  {
    hide CancelListed;
    CancelListedGoes(s, key, Get(s.reg.byChannel, key));
  }

  /** The records of deleted queues that the turn of the channel loop comes across. */
  function DeadHere(s: VHost, key: ChannelKey, t: Taking): multiset<Message> {
    if key in CancelChannelConsumers(s, key).channels then MessagesOf(t.dead) else multiset{}
  }

  lemma TakeChannelGoes(s: VHost, key: ChannelKey, t: Taking)
    ensures Goes(s, TakeChannel(s, key, t), DeadHere(s, key, t))
  {
    hide CancelChannelConsumers, QueueMessages;
    CancelChannelGoes(s, key);
    var s1 := CancelChannelConsumers(s, key);
    Added(s.ledger.gone, Sum(s.queues - s1.queues.Keys, QueueMessages), multiset{}, multiset{}, MessagesOf(t.dead));
  }

  function DeadOf(s: VHost, plan: seq<(ChannelKey, Taking)>): multiset<Message>
    decreases |plan|
  {
    if plan == [] then multiset{}
    else DeadHere(s, plan[0].0, plan[0].1) + DeadOf(TakeChannel(s, plan[0].0, plan[0].1), plan[1..])
  }

  lemma {:induction false} TakeChannelsGoes(s: VHost, plan: seq<(ChannelKey, Taking)>)
    ensures Goes(s, TakeChannels(s, plan), DeadOf(s, plan))
    decreases |plan|
  {
    hide TakeChannel, Goes, DeadHere;
    GoesNot(s, s);
    if plan != [] {
      var key, t := plan[0].0, plan[0].1;
      var s1 := TakeChannel(s, key, t);
      TakeChannelGoes(s, key, t);
      TakeChannelsGoes(s1, plan[1..]);
      GoesAgain(s, s1, TakeChannels(s1, plan[1..]), DeadHere(s, key, t), DeadOf(s1, plan[1..]));
    }
  }

  lemma {:induction false} CancelEachGoes(s: VHost, cs: seq<Consumer>)
    ensures Goes(s, CancelEach(s, cs), multiset{})
    decreases |cs|
  {
    hide CancelLocked, Goes;
    NoneAnd(multiset{});
    GoesNot(s, s);
    if cs != [] {
      CancelGoes(s, cs[0]);
      CancelEachGoes(CancelLocked(s, cs[0]), cs[1..]);
      GoesAgain(s, CancelLocked(s, cs[0]), CancelEach(CancelLocked(s, cs[0]), cs[1..]), multiset{}, multiset{});
    }
  }

  lemma DisownGoes(s: VHost, conn: Name)
    ensures Goes(s, Disown(s, conn), multiset{})
  {
    assert s.queues - Disown(s, conn).queues.Keys == map[];
  }

  lemma {:induction false} DeleteEachGoes(s: VHost, names: seq<Name>)
    ensures Goes(s, DeleteEach(s, names), multiset{})
    decreases |names|
  {
    hide DeleteQueue, Goes;
    NoneAnd(multiset{});
    GoesNot(s, s);
    if names != [] {
      var s1 := if names[0] in s.queues then DeleteQueue(s, names[0]) else s;
      if names[0] in s.queues { DeleteQueueGoes(s, names[0]); }
      DeleteEachGoes(s1, names[1..]);
      GoesAgain(s, s1, DeleteEach(s1, names[1..]), multiset{}, multiset{});
    }
  }

  lemma ClearedGoes(s: VHost, conn: Name, plan: seq<(ChannelKey, Taking)>, rest: seq<Consumer>, doomed: seq<Name>)
    ensures Goes(s, Cleared(s, conn, plan, rest, doomed), DeadOf(s, plan))
  {
    hide TakeChannels, CancelEach, Disown, DeleteEach, Goes, DeadOf;
    var s1 := TakeChannels(s, plan);
    var s2 := CancelEach(s1, rest);
    var s3 := Disown(s2, conn);
    TakeChannelsGoes(s, plan);
    CancelEachGoes(s1, rest);
    DisownGoes(s2, conn);
    DeleteEachGoes(s3, doomed);
    GoesAgain(s, s1, s2, DeadOf(s, plan), multiset{});
    GoesAgain(s, s2, s3, DeadOf(s, plan) + multiset{}, multiset{});
    GoesAgain(s, s3, DeleteEach(s3, doomed), DeadOf(s, plan) + multiset{} + multiset{}, multiset{});
    assert DeadOf(s, plan) + multiset{} + multiset{} + multiset{} == DeadOf(s, plan);
  }

  // ---------------------------------------------------------------- what the channels held of deleted queues

  /** The deliveries that cannot go back when only the queues in kept stay. */
  function DoomedTags(ch: Channel, kept: set<Name>): set<nat> {
    set t | t in ch.records && (ch.records[t].queueDeleted || ch.records[t].queue !in kept)
  }

  ghost function DoomedMessages(ch: Channel, kept: set<Name>): multiset<Message> {
    Sum(Only(ch.records, DoomedTags(ch, kept)), RecordMessage)
  }

  ghost function DoomedIn(kept: set<Name>): Channel -> multiset<Message> {
    ch => DoomedMessages(ch, kept)
  }

  lemma AgedDoomed(ch: Channel, ch': Channel, lost: set<Name>, kept: set<Name>)
    requires Aged(ch, ch', lost) && lost !! kept
    ensures DoomedMessages(ch', kept) == DoomedMessages(ch, kept)
  {
    assert DoomedTags(ch', kept) == DoomedTags(ch, kept);
    SumSame(Only(ch.records, DoomedTags(ch, kept)), Only(ch'.records, DoomedTags(ch', kept)), RecordMessage);
  }

  /** The records of queues that do not stay. */
  function Leaving(records: seq<Record>, kept: set<Name>): seq<Record> {
    if records == [] then []
    else (if records[0].queue in kept then [] else [records[0]]) + Leaving(records[1..], kept)
  }

  lemma ListsCons(r: Record, rest: seq<Record>, ch: Channel, tags: set<nat>)
    requires Lists(rest, ch, tags) && r.tag !in tags && r.tag in ch.records && ch.records[r.tag] == r
    ensures Lists([r] + rest, ch, tags + {r.tag})
  {
    var records := [r] + rest;
    assert forall i | 0 < i < |records| :: records[i] == rest[i - 1];
    forall t | t in tags + {r.tag} ensures t in TagsOf(records) {
      if t == r.tag {
        assert r in records;
      } else {
        assert t in TagsOf(rest);
        var x :| x in rest && x.tag == t;
        assert x in records;
      }
    }
  }

  function LeavingTags(ch: Channel, tags: set<nat>, kept: set<Name>): set<nat> {
    set t | t in tags && t in ch.records && ch.records[t].queue !in kept
  }

  lemma {:induction false} LeavingLists(records: seq<Record>, ch: Channel, tags: set<nat>, kept: set<Name>)
    requires Lists(records, ch, tags)
    ensures Lists(Leaving(records, kept), ch, LeavingTags(ch, tags, kept))
    decreases |records|
  {
    if records == [] {
      assert forall t | t in tags :: t in TagsOf(records);
    } else {
      var r, less := records[0], tags - {records[0].tag};
      ListsTail(records, ch, tags);
      LeavingLists(records[1..], ch, less, kept);
      hide Lists;
      var rest := Leaving(records[1..], kept);
      if r.queue in kept {
        assert [] + rest == rest;
        assert LeavingTags(ch, tags, kept) == LeavingTags(ch, less, kept);
      } else {
        ListsCons(r, rest, ch, LeavingTags(ch, less, kept));
        assert LeavingTags(ch, tags, kept) == LeavingTags(ch, less, kept) + {r.tag};
      }
    }
  }

  lemma {:induction false} LeavingJoin(a: seq<Record>, b: seq<Record>, kept: set<Name>)
    ensures Leaving(a + b, kept) == Leaving(a, kept) + Leaving(b, kept)
    decreases |a|
  {
    if a == [] {
      assert a + b == b;
    } else {
      assert (a + b)[1..] == a[1..] + b;
      LeavingJoin(a[1..], b, kept);
    }
  }

  lemma {:induction false} LeavingAll(records: seq<Record>, kept: set<Name>, n: Name)
    requires forall r | r in records :: r.queue == n
    ensures Leaving(records, kept) == if n in kept then [] else records
    decreases |records|
  {
    if records != [] {
      assert records[0] in records && forall r | r in records[1..] :: r in records;
      LeavingAll(records[1..], kept, n);
    }
  }

  lemma {:induction false} HomelessLeave(work: seq<Work>, kept: set<Name>)
    requires forall i | 0 <= i < |work| :: forall r | r in work[i].records :: r.queue == work[i].queue
    ensures Homeless(work, kept) == Leaving(AllRecords(work), kept)
    decreases |work|
  {
    if work != [] {
      var w, rest := work[0], work[1..];
      assert forall i | 0 <= i < |rest| :: rest[i] == work[i + 1];
      HomelessLeave(rest, kept);
      LeavingJoin(w.records, AllRecords(rest), kept);
      LeavingAll(w.records, kept, w.queue);
    }
  }

  lemma WorkQueues(s: VHost, ch: Channel, work: seq<Work>)
    requires IsWork(s, ch, work)
    ensures forall i | 0 <= i < |work| :: forall r | r in work[i].records :: r.queue == work[i].queue
  {
    forall i, r | 0 <= i < |work| && r in work[i].records ensures r.queue == work[i].queue {
      var j :| 0 <= j < |work[i].records| && work[i].records[j] == r;
    }
  }

  /** Of a taken channel, the records of deleted queues and those whose queue will be deleted are the doomed ones. */
  lemma TakenDoomed(s: VHost, key: ChannelKey, t: Taking, kept: set<Name>)
    requires Structure(s) && key in s.channels && Takes(s, key, t) && kept <= s.queues.Keys
    ensures MessagesOf(t.dead) + MessagesOf(Homeless(t.work, kept)) == DoomedMessages(s.channels[key], kept)
  {
    var ch := s.channels[key];
    assert RootedIn(s.queues, ch);
    hide Structure, Lists, IsWork, RootedIn, DeadTags, LeavingTags, DoomedTags, LiveTags, MessagesOf, Homeless;
    HomelessLists(s, ch, t.work, kept);
    var dead, leaving := DeadTags(ch), LeavingTags(ch, LiveTags(s, ch), kept);
    ListedMessages(t.dead, ch, dead);
    ListedMessages(Homeless(t.work, kept), ch, leaving);
    DoomedParts(s, ch, kept);
    OnlyParts(ch.records, RecordMessage, dead, leaving);
  }

  lemma OnlyParts<K, V, E>(m: map<K, V>, f: V -> multiset<E>, a: set<K>, b: set<K>)
    requires a !! b
    ensures Sum(Only(m, a + b), f) == Sum(Only(m, a), f) + Sum(Only(m, b), f)
  {
    var all := Only(m, a + b);
    SumSplit(all, f, b);
    assert all - b == Only(m, a);
    assert Only(all, b) == Only(m, b);
  }

  lemma HomelessLists(s: VHost, ch: Channel, work: seq<Work>, kept: set<Name>)
    requires IsWork(s, ch, work)
    ensures Lists(Homeless(work, kept), ch, LeavingTags(ch, LiveTags(s, ch), kept))
  {
    WorkLists(s, ch, work);
    WorkQueues(s, ch, work);
    hide IsWork, Lists, LeavingTags, LiveTags;
    HomelessLeave(work, kept);
    LeavingLists(AllRecords(work), ch, LiveTags(s, ch), kept);
  }

  lemma WorkLists(s: VHost, ch: Channel, work: seq<Work>)
    requires IsWork(s, ch, work)
    ensures Lists(AllRecords(work), ch, LiveTags(s, ch))
  {
    hide Lists;
  }

  lemma DoomedParts(s: VHost, ch: Channel, kept: set<Name>)
    requires RootedIn(s.queues, ch) && kept <= s.queues.Keys
    ensures var dead, leaving := DeadTags(ch), LeavingTags(ch, LiveTags(s, ch), kept);
            DoomedTags(ch, kept) == dead + leaving && dead !! leaving
  {
    hide Absent;
    forall t ensures t in DoomedTags(ch, kept) <==> t in DeadTags(ch) + LeavingTags(ch, LiveTags(s, ch), kept) {
      if t in ch.records { assert RootedTo(s.queues, ch.records[t]); }
    }
  }

  /** The channels that are taken, as far as their messages are concerned. */
  lemma TakeDoomed(s: VHost, key: ChannelKey, t: Taking, kept: set<Name>, extra: multiset<Message>)
    requires Sound(s, extra) && CanTake(s, key, t) && kept <= TakeChannel(s, key, t).queues.Keys
    ensures DeadHere(s, key, t) + MessagesOf(Homeless(t.work, kept)) == Sum(Only(s.channels, {key}), DoomedIn(kept))
  {
    hide Structure, BooksOk, CancelChannelConsumers, Takes, Shrinks, Orphans, Members, DoomedMessages;
    var s1 := CancelChannelConsumers(s, key);
    var lost := Orphans(s.queues, Members(s.reg), Members(s1.reg));
    CancelChannelShrinks(s, key, extra);
    CancelChannelSound(s, key, extra);
    var one := Only(s.channels, {key});
    if key in s1.channels {
      TakenDoomed(s1, key, t, kept);
      AgedAt(s, s1, lost, key);
      AgedDoomed(s.channels[key], s1.channels[key], lost, kept);
      SumPick(one, DoomedIn(kept), key);
      assert one - {key} == map[];
    } else {
      assert one == map[];
    }
  }

  lemma AgedAt(s: VHost, s': VHost, lost: set<Name>, key: ChannelKey)
    requires Shrinks(s, s', lost) && key in s'.channels
    ensures key in s.channels && Aged(s.channels[key], s'.channels[key], lost)
  {
  }

  /** Aging does not change what is doomed. */
  lemma SameDoomed(s: VHost, s': VHost, lost: set<Name>, keys: set<ChannelKey>, kept: set<Name>)
    requires Shrinks(s, s', lost) && lost !! kept && s.channels.Keys * keys == s'.channels.Keys * keys
    ensures Sum(Only(s.channels, keys), DoomedIn(kept)) == Sum(Only(s'.channels, keys), DoomedIn(kept))
  {
    hide Shrinks, DoomedMessages;
    var a, b := Only(s.channels, keys), Only(s'.channels, keys);
    forall k | k in a ensures k in b && DoomedIn(kept)(a[k]) == DoomedIn(kept)(b[k]) {
      assert k in s.channels.Keys * keys;
      AgedAt(s, s', lost, k);
      AgedDoomed(s.channels[k], s'.channels[k], lost, kept);
    }
    forall k | k in b ensures k in a { assert k in s'.channels.Keys * keys; }
    SumSame(a, b, DoomedIn(kept));
  }

  lemma {:induction false} TakeChannelsDoomed(s: VHost, plan: seq<(ChannelKey, Taking)>, kept: set<Name>,
                                              extra: multiset<Message>)
    requires Sound(s, extra) && PlanOk(s, plan) && kept <= TakeChannels(s, plan).queues.Keys
    ensures DeadOf(s, plan) + MessagesOf(Homeless(Collected(plan), kept))
            == Sum(Only(s.channels, KeysOf(plan)), DoomedIn(kept))
    decreases |plan|
  {
    hide Sound, TakeChannel, Takes, CancelChannelConsumers, Shrinks, Orphans, Members, KeysOf, DeadHere, DoomedIn,
      MessagesOf, Homeless;
    if plan == [] {
      NoneDoomed(s, kept);
    } else {
      var key, t, rest := plan[0].0, plan[0].1, plan[1..];
      var s1, extra1 := TakeChannel(s, key, t), extra + MessagesOf(AllRecords(t.work));
      var lost, keys := Orphans(s.queues, Members(s.reg), Members(s1.reg)), KeysOf(rest) - {key};
      TakeChannelSound(s, key, t, extra);
      TakeChannelShrinks(s, key, t, extra);
      TakeChannelsShrink(s1, rest, extra1);
      TakeDoomed(s, key, t, kept, extra);
      TakeChannelsDoomed(s1, rest, kept, extra1);
      OnlyLess(s1.channels, KeysOf(rest), key);
      SameDoomed(s, s1, lost, keys, kept);
      KeysFirst(plan);
      OnlyParts(s.channels, DoomedIn(kept), {key}, keys);
      assert {key} + keys == {key} + KeysOf(rest);
      HomelessJoin(t.work, Collected(rest), kept);
      FourParts(DeadHere(s, key, t), DeadOf(s1, rest), MessagesOf(Homeless(t.work, kept)),
                MessagesOf(Homeless(Collected(rest), kept)));
    }
  }

  lemma NoneDoomed(s: VHost, kept: set<Name>)
    ensures DeadOf(s, []) + MessagesOf(Homeless(Collected([]), kept))
            == Sum(Only(s.channels, KeysOf([])), DoomedIn(kept))
  {
    assert Only(s.channels, KeysOf([])) == map[];
  }

  lemma OnlyLess(channels: map<ChannelKey, Channel>, keys: set<ChannelKey>, key: ChannelKey)
    requires key !in channels
    ensures Only(channels, keys) == Only(channels, keys - {key})
  {
  }

  lemma {:induction false} HomelessJoin(a: seq<Work>, b: seq<Work>, kept: set<Name>)
    ensures MessagesOf(Homeless(a + b, kept)) == MessagesOf(Homeless(a, kept)) + MessagesOf(Homeless(b, kept))
    decreases |a|
  {
    hide MessagesOf;
    if a == [] {
      assert a + b == b;
      NoMessagesOf();
    } else {
      assert (a + b)[1..] == a[1..] + b;
      HomelessJoin(a[1..], b, kept);
      var first := if a[0].queue in kept then [] else a[0].records;
      MessagesSplit(first, Homeless(a[1..], kept));
      MessagesSplit(first, Homeless(a[1..] + b, kept));
    }
  }

  lemma NoMessagesOf()
    ensures MessagesOf([]) == multiset{}
  {
  }

  lemma FourParts(a: multiset<Message>, b: multiset<Message>, c: multiset<Message>, d: multiset<Message>)
    ensures (a + b) + (c + d) == (a + c) + (b + d)
  {
  }

  /** The close of a connection, message by message: gone is what the deleted queues held, and what the
      connection's channels held that was marked deleted or whose queue is deleted; nothing else. Of the rest of
      the ledger only what has to make room in a queue may change. */
  lemma CloseConnectionGone(s: VHost, conn: Name, plan: seq<(ChannelKey, Taking)>, rest: seq<Consumer>,
                            doomed: seq<Name>)
    requires Sound(s, multiset{}) && ConnectionOrder(s, conn, plan, rest, doomed)
    ensures var s' := CloseConnection(s, conn, plan, rest, doomed);
            && OnlyRoom(s.ledger, s'.ledger)
            && s'.ledger.gone == s.ledger.gone + (Sum(s.queues - s'.queues.Keys, QueueMessages)
                 + Sum(Only(s.channels, set k | k in s.channels && k.conn == conn), DoomedIn(s'.queues.Keys)))
  {
    hide *;
    var s1, kept := Cleared(s, conn, plan, rest, doomed), Cleared(s, conn, plan, rest, doomed).queues.Keys;
    CloseIs(s, conn, plan, rest, doomed);
    ClearedQueues(s, conn, plan, rest, doomed);
    OrderOf(s, conn, plan, rest, doomed);
    CollectedFor(s, plan, Name(""), multiset{});
    MadeForLeft(s.queues, s1.queues, conn, Collected(plan));
    RequeueKeys(s1, Collected(plan));
    RequeueAllLedger(s1, Collected(plan));
    ClearedGoes(s, conn, plan, rest, doomed);
    TakeChannelsDoomed(s, plan, kept, multiset{});
    OnlyConnection(s, conn, plan);
    GoneSum(s, s1, DeadOf(s, plan), MessagesOf(Homeless(Collected(plan), kept)));
    ClearedRoom(s, s1, RequeueWork(s1, Collected(plan)).ledger);
  }

  lemma ClearedRoom(s: VHost, s1: VHost, l: Ledger)
    requires Shrinks(s, s1, s.queues.Keys - s1.queues.Keys) && OnlyRoom(s1.ledger, l)
    ensures OnlyRoom(s.ledger, l)
  {
    hide Aged;
  }

  lemma OnlyConnection(s: VHost, conn: Name, plan: seq<(ChannelKey, Taking)>)
    requires forall i | 0 <= i < |plan| :: plan[i].0.conn == conn
    requires ChannelsOfConnection(s, conn) <= KeysOf(plan)
    ensures Only(s.channels, KeysOf(plan)) == Only(s.channels, set k | k in s.channels && k.conn == conn)
  {
    var keys := set k | k in s.channels && k.conn == conn;
    forall k | k in s.channels ensures k in KeysOf(plan) <==> k in keys {
      if k.conn == conn { assert k in ChannelsOfConnection(s, conn); }
    }
    assert s.channels.Keys - KeysOf(plan) == s.channels.Keys - keys;
  }

  lemma GoneSum(s: VHost, s1: VHost, dead: multiset<Message>, homeless: multiset<Message>)
    requires Goes(s, s1, dead)
    ensures s1.ledger.gone + homeless
            == s.ledger.gone + (Sum(s.queues - s1.queues.Keys, QueueMessages) + (dead + homeless))
  {
  }
}
