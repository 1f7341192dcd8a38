/**
 What goes back to a queue when deliveries are settled, and in which order: the exact contents of
 every queue after a purge, a nack and the close of a channel.
 */
module ReturnResults {
  import opened Collections
  import opened ChannelDelivery
  import opened VHostState
  import opened StructureProofs
  import opened ConservationProofs
  import opened HandlerProofs
  import opened RecoverProofs
  import opened CloseProofs

  function Oldest(ms: seq<Message>, k: nat): seq<Message> {
    if |ms| <= k then ms else ms[..k]
  }

  function Newest(ms: seq<Message>, k: nat): seq<Message> {
    if |ms| <= k then ms else ms[|ms| - k..]
  }

  /** The queue once it got the messages, in order: with an x-max-length that its buffer can hold it keeps
      the newest ones, and otherwise those that fit the buffer. */
  function Refilled(q: Queue, ms: seq<Message>): Queue {
    q.(ready := if 0 < q.maxLength <= q.capacity then Newest(q.ready + ms, q.maxLength)
       else Oldest(q.ready + ms, q.capacity))
  }

  lemma PushOne(s: VHost, n: Name, m: Message)
    requires n in s.queues && LengthOk(s.queues[n])
    ensures Push(s, n, m).queues == s.queues[n := Refilled(s.queues[n], [m])]
  {
    var q := s.queues[n];
    if Excess(q) == 0 {
      if |q.ready| >= q.capacity { assert (q.ready + [m])[..q.capacity] == q.ready; }
    } else {
      assert Excess(q) == 1 && q.maxLength <= q.capacity;
      assert (q.ready + [m])[1..] == q.ready[1..] + [m];
    }
  }

  /** Eviction hands over the oldest messages, and as many as the queue loses. */
  lemma PushEvicts(s: VHost, n: Name, m: Message)
    requires n in s.queues && LengthOk(s.queues[n])
    ensures var q, s' := s.queues[n], Push(s, n, m);
            var full := 0 < q.maxLength == |q.ready|;
            && s'.ledger.evicted == s.ledger.evicted + (if full then multiset{q.ready[0]} else multiset{})
            && (full ==> (q.ready[0], q.gen) in s'.ledger.deadLetters)
            && s'.ledger.overflow
              == s.ledger.overflow + (if !full && |q.ready| == q.capacity then multiset{m} else multiset{})
  {
    var q := s.queues[n];
    if Excess(q) != 0 {
      assert q.ready[..1] == [q.ready[0]];
      assert q.ready[0] in q.ready[..1];
    }
  }

  lemma NewestAgain(a: seq<Message>, b: seq<Message>, k: nat)
    ensures Newest(Newest(a, k) + b, k) == Newest(a + b, k)
  {
    if |a| > k {
      assert (a + b)[|a| - k..] == a[|a| - k..] + b;
      assert (a + b)[|a| - k..][|b|..] == (a + b)[|a| - k + |b|..];
    }
  }

  lemma OldestAgain(a: seq<Message>, b: seq<Message>, k: nat)
    ensures Oldest(Oldest(a, k) + b, k) == Oldest(a + b, k)
  {
    if |a| > k {
      assert (a[..k] + b)[..k] == a[..k] == (a + b)[..k];
    }
  }

  lemma RefillMore(q: Queue, m: Message, ms: seq<Message>)
    requires LengthOk(q)
    ensures Refilled(Refilled(q, [m]), ms) == Refilled(q, [m] + ms) && LengthOk(Refilled(q, [m]))
  {
    assert q.ready + [m] + ms == q.ready + ([m] + ms);
    NewestAgain(q.ready + [m], ms, q.maxLength);
    OldestAgain(q.ready + [m], ms, q.capacity);
    assert |Newest(q.ready + [m], q.maxLength)| <= q.maxLength && |Oldest(q.ready + [m], q.capacity)| <= q.capacity;
    hide Newest, Oldest;
  }

  lemma RefillOne(s: VHost, n: Name, m: Message, ms: seq<Message>)
    requires n in s.queues && LengthOk(s.queues[n])
    ensures var q' := PushBack(s, n, m).queues[n];
            Refilled(q', ms) == Refilled(s.queues[n], [m] + ms) && LengthOk(q') && q'.gen == s.queues[n].gen
    ensures PushBack(s, n, m).queues.Keys == s.queues.Keys
    ensures forall n' | n' in s.queues && n' != n :: PushBack(s, n, m).queues[n'] == s.queues[n']
  {
    PushOne(s.(redelivered := s.redelivered + {m.id}), n, m);
    RefillMore(s.queues[n], m, ms);
    hide Push;
  }

  lemma OtherQueues(s: VHost, n: Name, m: Message, n': Name)
    requires n in s.queues && n' in s.queues && n' != n
    ensures n' in PushBack(s, n, m).queues && PushBack(s, n, m).queues[n'] == s.queues[n']
  {
  }

  lemma RefillNone(q: Queue)
    requires LengthOk(q)
    ensures Refilled(q, []) == q
  {
    assert q.ready + [] == q.ready;
  }

  // ---------------------------------------------------------------- purge

  /** What a purge leaves: an empty queue. Every message it held ready is settled, as expired and handed to
      the dead-letter path or else as purged; nothing else changes. A purge of no queue, and of an exclusive
      queue by a connection that is not its owner, changes nothing at all. */
  lemma PurgeExactly(s: VHost, n: Name, conn: Name, expired: set<Message>, m: Message)
    ensures n !in s.queues || (s.queues[n].exclusive && s.queues[n].owner != Some(conn))
            ==> Purge(s, n, conn, expired) == s
    ensures n in s.queues && (s.queues[n].exclusive ==> s.queues[n].owner == Some(conn)) ==>
            var q, s' := s.queues[n], Purge(s, n, conn, expired);
            && s' == s.(queues := s.queues[n := q.(ready := [])],
                        ledger := s.ledger.(expired := s'.ledger.expired, purged := s'.ledger.purged,
                                            deadLetters := s'.ledger.deadLetters))
            && s'.ledger.expired[m] == s.ledger.expired[m] + (if m in expired then multiset(q.ready)[m] else 0)
            && s'.ledger.purged[m] == s.ledger.purged[m] + (if m in expired then 0 else multiset(q.ready)[m])
            && ((m, q.gen) in s'.ledger.deadLetters <==>
                (m, q.gen) in s.ledger.deadLetters || (m in q.ready && m in expired))
  {
    hide PurgeAll;
    if n in s.queues {
      PurgeEmpties(s, n, expired);
      PurgeBooks(s, n, expired, m);
    }
  }

  lemma {:induction false} PurgeEmpties(s: VHost, n: Name, expired: set<Message>)
    requires n in s.queues
    ensures var q, s' := s.queues[n], PurgeAll(s, n, expired);
            s' == s.(queues := s.queues[n := q.(ready := [])],
                     ledger := s.ledger.(expired := s'.ledger.expired, purged := s'.ledger.purged,
                                         deadLetters := s'.ledger.deadLetters))
    decreases |s.queues[n].ready|
  {
    var q := s.queues[n];
    if q.ready == [] {
      assert s.queues == s.queues[n := q.(ready := [])];
    } else {
      PurgeHeadShape(s, n, expired);
      hide PurgeHead;
      PurgeEmpties(PurgeHead(s, n, expired), n, expired);
    }
  }

  lemma PurgeHeadShape(s: VHost, n: Name, expired: set<Message>)
    requires n in s.queues && s.queues[n].ready != []
    ensures var q, s1 := s.queues[n], PurgeHead(s, n, expired);
            && n in s1.queues && s1.queues[n] == q.(ready := q.ready[1..])
            && s1.queues[n := q.(ready := [])] == s.queues[n := q.(ready := [])]
            && s1 == s.(queues := s1.queues,
                        ledger := s.ledger.(expired := s1.ledger.expired, purged := s1.ledger.purged,
                                            deadLetters := s1.ledger.deadLetters))
  {
  }

  lemma {:induction false} PurgeBooks(s: VHost, n: Name, expired: set<Message>, m: Message)
    requires n in s.queues
    ensures var q, l := s.queues[n], PurgeAll(s, n, expired).ledger;
            && l.expired[m] == s.ledger.expired[m] + (if m in expired then multiset(q.ready)[m] else 0)
            && l.purged[m] == s.ledger.purged[m] + (if m in expired then 0 else multiset(q.ready)[m])
            && ((m, q.gen) in l.deadLetters <==> (m, q.gen) in s.ledger.deadLetters || (m in q.ready && m in expired))
    decreases |s.queues[n].ready|
  {
    var q := s.queues[n];
    if q.ready != [] {
      var s1 := PurgeHead(s, n, expired);
      PurgeHeadBooks(s, n, expired, m);
      hide PurgeHead;
      PurgeBooks(s1, n, expired, m);
    }
  }

  lemma PurgeHeadBooks(s: VHost, n: Name, expired: set<Message>, m: Message)
    requires n in s.queues && s.queues[n].ready != []
    ensures var q, s1 := s.queues[n], PurgeHead(s, n, expired);
            && n in s1.queues && s1.queues[n] == q.(ready := q.ready[1..])
            && s1.ledger.expired[m] == s.ledger.expired[m] + (if m == q.ready[0] && m in expired then 1 else 0)
            && s1.ledger.purged[m] == s.ledger.purged[m] + (if m == q.ready[0] && m !in expired then 1 else 0)
            && ((m, q.gen) in s1.ledger.deadLetters <==>
                (m, q.gen) in s.ledger.deadLetters || (m == q.ready[0] && m in expired))
            && multiset(q.ready)[m] == multiset(q.ready[1..])[m] + (if m == q.ready[0] then 1 else 0)
            && (m in q.ready <==> m == q.ready[0] || m in q.ready[1..])
  {
    var q := s.queues[n];
    assert q.ready == [q.ready[0]] + q.ready[1..];
  }

  // ---------------------------------------------------------------- ack

  /** An ack counts exactly the messages of the tags it settles as acked, and changes nothing but that and
      the channel's records. */
  lemma AckOutcome(s: VHost, key: ChannelKey, tag: nat, multiple: bool, popped: seq<Record>)
    requires key in s.channels && Settles(s.channels[key], tag, multiple).Some?
    requires Lists(popped, s.channels[key], Settles(s.channels[key], tag, multiple).value)
    ensures var tags := Settles(s.channels[key], tag, multiple).value;
            var s' := Ack(s, key, tag, multiple, popped);
            && s' == s.(channels := s'.channels, ledger := s.ledger.(acked := s'.ledger.acked))
            && s'.ledger.acked == s.ledger.acked + Sum(Only(s.channels[key].records, tags), RecordMessage)
            && s'.channels == s.channels[key := s.channels[key].(records := s.channels[key].records - tags)]
  {
    ListedMessages(popped, s.channels[key], Settles(s.channels[key], tag, multiple).value);
    hide Settles, Lists, MessagesOf, RecordMessage;
  }

  // ---------------------------------------------------------------- nack

  /** The record's message goes back to the queue. */
  predicate GoesBack(r: Record, n: Name, expired: set<Message>) {
    !r.queueDeleted && r.queue == n && r.msg !in expired
  }

  function BackTo(records: seq<Record>, n: Name, expired: set<Message>): seq<Message> {
    if records == [] then []
    else (if GoesBack(records[0], n, expired) then [records[0].msg] else []) + BackTo(records[1..], n, expired)
  }

  lemma NackOneReturns(s: VHost, r: Record, expired: set<Message>, n: Name, ms: seq<Message>)
    requires n in s.queues && LengthOk(s.queues[n]) && (!r.queueDeleted ==> r.queue in s.queues)
    ensures var s' := NackOne(s, r, true, expired);
            && s'.queues.Keys == s.queues.Keys && LengthOk(s'.queues[n])
            && Refilled(s'.queues[n], ms)
              == Refilled(s.queues[n], (if GoesBack(r, n, expired) then [r.msg] else []) + ms)
            && s.redelivered <= s'.redelivered && (GoesBack(r, n, expired) ==> r.msg.id in s'.redelivered)
  {
    hide LengthOk, Refilled, PushBack;
    assert [] + ms == ms;
    if !r.queueDeleted && r.msg !in expired {
      PushBackKeeps(s, r.queue, r.msg);
      if r.queue == n { RefillOne(s, n, r.msg, ms); } else { OtherQueues(s, r.queue, r.msg, n); }
    }
  }

  lemma PushBackKeeps(s: VHost, n: Name, m: Message)
    requires n in s.queues
    ensures PushBack(s, n, m).queues.Keys == s.queues.Keys && PushBack(s, n, m).redelivered == s.redelivered + {m.id}
  {
    PushKeeps(s.(redelivered := s.redelivered + {m.id}), n, m);
  }

  /** A nack or reject with requeue gives every queue, in the order of the records, the messages
      that came from it and have not expired, and marks them as redelivered. */
  lemma {:induction false} NackReturns(s: VHost, records: seq<Record>, expired: set<Message>, n: Name)
    requires n in s.queues && LengthOk(s.queues[n])
    requires forall r | r in records :: !r.queueDeleted ==> r.queue in s.queues
    ensures n in NackEach(s, records, true, expired).queues
    ensures NackEach(s, records, true, expired).queues[n] == Refilled(s.queues[n], BackTo(records, n, expired))
    ensures forall r | r in records && GoesBack(r, n, expired) ::
              r.msg.id in NackEach(s, records, true, expired).redelivered
    ensures s.redelivered <= NackEach(s, records, true, expired).redelivered
    decreases |records|
  {
    if records == [] {
      RefillNone(s.queues[n]);
    } else {
      var r, rest := records[0], BackTo(records[1..], n, expired);
      hide NackOne, Refilled, LengthOk, GoesBack;
      assert r in records && forall x | x in records[1..] :: x in records;
      assert forall x | x in records :: x == r || x in records[1..] by { assert records == [r] + records[1..]; }
      NackOneReturns(s, r, expired, n, rest);
      NackReturns(NackOne(s, r, true, expired), records[1..], expired, n);
    }
  }

  function LiveOnes(records: seq<Record>): seq<Record> {
    if records == [] then [] else (if records[0].queueDeleted then [] else [records[0]]) + LiveOnes(records[1..])
  }

  lemma RejectOne(s: VHost, r: Record, expired: set<Message>)
    requires RootedTo(s.queues, r)
    ensures var s' := NackOne(s, r, false, expired);
            && s'.queues == s.queues && s.ledger.deadLetters <= s'.ledger.deadLetters
            && s'.ledger.rejected == s.ledger.rejected + (if r.queueDeleted then multiset{} else multiset{r.msg})
            && (!r.queueDeleted ==> (r.msg, r.msg.origin) in s'.ledger.deadLetters)
  {
  }

  lemma LiveMessages(records: seq<Record>)
    requires records != []
    ensures MessagesOf(LiveOnes(records))
         == (if records[0].queueDeleted then multiset{} else multiset{records[0].msg})
           + MessagesOf(LiveOnes(records[1..]))
  {
    var rest := LiveOnes(records[1..]);
    if records[0].queueDeleted {
      assert [] + rest == rest;
    } else {
      assert ([records[0]] + rest)[1..] == rest;
    }
  }

  /** Without requeue no queue changes, and every live delivery is rejected: it goes to the
      dead-letter path of the queue it came from. */
  lemma {:induction false} NackRejects(s: VHost, records: seq<Record>, expired: set<Message>)
    requires forall r | r in records :: RootedTo(s.queues, r)
    ensures var s' := NackEach(s, records, false, expired);
            && s'.queues == s.queues
            && s'.ledger.rejected == s.ledger.rejected + MessagesOf(LiveOnes(records))
            && (forall r | r in records && !r.queueDeleted :: (r.msg, r.msg.origin) in s'.ledger.deadLetters)
            && s.ledger.deadLetters <= s'.ledger.deadLetters
    decreases |records|
  {
    hide NackOne, RootedTo;
    if records != [] {
      var r := records[0];
      assert r in records;
      RejectOne(s, r, expired);
      LiveMessages(records);
      hide LiveOnes, MessagesOf;
      assert forall x | x in records[1..] :: x in records;
      assert forall x | x in records :: x == r || x in records[1..] by { assert records == [r] + records[1..]; }
      NackRejects(NackOne(s, r, false, expired), records[1..], expired);
    }
  }

  // ---------------------------------------------------------------- where the rest is booked

  /** The records of deleted queues. */
  function DeadOnes(records: seq<Record>): seq<Record> {
    if records == [] then [] else (if records[0].queueDeleted then [records[0]] else []) + DeadOnes(records[1..])
  }

  /** The live ones whose message has expired. */
  function ExpiredOnes(records: seq<Record>, expired: set<Message>): seq<Record> {
    if records == [] then []
    else (if !records[0].queueDeleted && records[0].msg in expired then [records[0]] else [])
         + ExpiredOnes(records[1..], expired)
  }

  lemma FirstMessages(records: seq<Record>, expired: set<Message>)
    requires records != []
    ensures MessagesOf(DeadOnes(records))
         == (if records[0].queueDeleted then multiset{records[0].msg} else multiset{})
            + MessagesOf(DeadOnes(records[1..]))
    ensures MessagesOf(ExpiredOnes(records, expired))
         == (if !records[0].queueDeleted && records[0].msg in expired then multiset{records[0].msg} else multiset{})
            + MessagesOf(ExpiredOnes(records[1..], expired))
  {
    var dead, late := DeadOnes(records[1..]), ExpiredOnes(records[1..], expired);
    assert [] + dead == dead && [] + late == late;
    assert ([records[0]] + dead)[1..] == dead && ([records[0]] + late)[1..] == late;
  }

  /** Only these entries of the ledger change in a nack: the first three by the records, the rest to make room. */
  ghost predicate NackBooked(l: Ledger, l': Ledger) {
    l' == l.(expired := l'.expired, rejected := l'.rejected, gone := l'.gone, evicted := l'.evicted,
             overflow := l'.overflow, deadLetters := l'.deadLetters)
  }

  lemma NackOneBooks(s: VHost, r: Record, requeue: bool, expired: set<Message>)
    requires RootedTo(s.queues, r)
    ensures var l, l' := s.ledger, NackOne(s, r, requeue, expired).ledger;
            && NackBooked(l, l')
            && l'.gone == l.gone + (if r.queueDeleted then multiset{r.msg} else multiset{})
            && l'.expired == l.expired
               + (if !r.queueDeleted && r.msg in expired && requeue then multiset{r.msg} else multiset{})
            && (requeue ==> l'.rejected == l.rejected)
            && (!requeue ==> l'.evicted == l.evicted && l'.overflow == l.overflow)
  {
    hide LettersOf, Excess, Absent;
    if !r.queueDeleted && requeue && r.msg !in expired {
      assert NackOne(s, r, requeue, expired) == PushBack(s, r.queue, r.msg);
    }
  }

  /** A nack books the deliveries of deleted queues as gone; with requeue it rejects nothing, and books the
      expired ones as expired; without, it looks at no message's age. */
  lemma {:induction false} NackBooks(s: VHost, records: seq<Record>, requeue: bool, expired: set<Message>)
    requires forall r | r in records :: RootedTo(s.queues, r)
    ensures var l, l' := s.ledger, NackEach(s, records, requeue, expired).ledger;
            && NackBooked(l, l')
            && l'.gone == l.gone + MessagesOf(DeadOnes(records))
            && (requeue ==> l'.rejected == l.rejected
                            && l'.expired == l.expired + MessagesOf(ExpiredOnes(records, expired)))
            && (!requeue ==> l'.expired == l.expired && l'.evicted == l.evicted && l'.overflow == l.overflow)
    decreases |records|
  {
    hide NackOne, RootedTo, DeadOnes, ExpiredOnes, MessagesOf;
    if records == [] {
      NoneBooked(s.ledger, expired);
    } else {
      var r := records[0];
      var s' := NackOne(s, r, requeue, expired);
      assert r in records && forall x | x in records[1..] :: x in records;
      NackOneBooks(s, r, requeue, expired);
      FirstMessages(records, expired);
      forall x | x in records[1..] ensures RootedTo(s'.queues, x) {
        NackOneRoots(s, r, requeue, expired, x);
      }
      NackBooks(s', records[1..], requeue, expired);
    }
  }

  lemma NoneBooked(l: Ledger, expired: set<Message>)
    ensures l.gone + MessagesOf(DeadOnes([])) == l.gone
            && l.expired + MessagesOf(ExpiredOnes([], expired)) == l.expired
  {
  }

  lemma NackOneRoots(s: VHost, r: Record, requeue: bool, expired: set<Message>, x: Record)
    requires RootedTo(s.queues, x)
    ensures RootedTo(NackOne(s, r, requeue, expired).queues, x)
  {
    hide LettersOf, Excess;
  }

  // ---------------------------------------------------------------- close

  function MessageList(records: seq<Record>): seq<Message> {
    if records == [] then [] else [records[0].msg] + MessageList(records[1..])
  }

  /** The records that the work returns to the queue. */
  function ReturnedTo(work: seq<Work>, n: Name): seq<Record> {
    if work == [] then [] else if work[0].queue == n then work[0].records else ReturnedTo(work[1..], n)
  }

  lemma {:induction false} RequeueEachReturns(s: VHost, n: Name, records: seq<Record>, n': Name)
    requires n in s.queues && n' in s.queues && LengthOk(s.queues[n])
    ensures RequeueEach(s, n, records).queues[n'] == if n' == n then Refilled(s.queues[n], MessageList(records))
            else s.queues[n']
    ensures forall r | r in records :: r.msg.id in RequeueEach(s, n, records).redelivered
    ensures s.redelivered <= RequeueEach(s, n, records).redelivered
    decreases |records|
  {
    if records == [] {
      RefillNone(s.queues[n]);
    } else {
      RefillOne(s, n, records[0].msg, MessageList(records[1..]));
      RequeueEachReturns(PushBack(s, n, records[0].msg), n, records[1..], n');
      assert forall x | x in records ::
          x == records[0] || x in records[1..] by { assert records == [records[0]] + records[1..]; }
    }
  }

  ghost predicate Current(s: VHost, work: seq<Work>) {
    && (forall i | 0 <= i < |work| :: work[i].queue in s.queues && s.queues[work[i].queue].gen == work[i].gen)
    && (forall i, j | 0 <= i < j < |work| :: work[i].queue != work[j].queue)
  }

  lemma {:induction false} NotReturned(work: seq<Work>, n: Name)
    requires forall i | 0 <= i < |work| :: work[i].queue != n
    ensures ReturnedTo(work, n) == []
    decreases |work|
  {
    if work != [] {
      assert forall i | 0 <= i < |work[1..]| :: work[1..][i] == work[i + 1];
      NotReturned(work[1..], n);
    }
  }

  ghost predicate LengthsOk(s: VHost) {
    forall n | n in s.queues :: LengthOk(s.queues[n])
  }

  lemma {:induction false} RequeueEachLengths(s: VHost, n: Name, records: seq<Record>)
    requires n in s.queues && LengthsOk(s)
    ensures LengthsOk(RequeueEach(s, n, records))
    decreases |records|
  {
    if records != [] {
      RefillOne(s, n, records[0].msg, []);
      RequeueEachLengths(PushBack(s, n, records[0].msg), n, records[1..]);
    }
  }

  /** Requeueing work for distinct, live queues gives each queue exactly the records of its item. */
  lemma {:induction false} RequeueWorkReturns(s: VHost, work: seq<Work>, n: Name)
    requires Current(s, work) && n in s.queues && LengthsOk(s)
    ensures n in RequeueWork(s, work).queues
    ensures RequeueWork(s, work).queues[n] == Refilled(s.queues[n], MessageList(ReturnedTo(work, n)))
    ensures forall r | r in ReturnedTo(work, n) :: r.msg.id in RequeueWork(s, work).redelivered
    ensures s.redelivered <= RequeueWork(s, work).redelivered
    decreases |work|
  {
    if work == [] {
      RefillNone(s.queues[n]);
    } else {
      var w := work[0];
      var s' := RequeueEach(s, w.queue, w.records);
      forall i | 0 <= i < |work[1..]|
        ensures work[1..][i].queue != w.queue && s'.queues[work[1..][i].queue].gen == work[1..][i].gen
      {
        assert work[1..][i] == work[i + 1];
        RequeueEachReturns(s, w.queue, w.records, work[i + 1].queue);
      }
      RequeueEachReturns(s, w.queue, w.records, n);
      RequeueEachLengths(s, w.queue, w.records);
      assert forall i, j | 0 <= i < j < |work[1..]| :: work[1..][i] == work[i + 1] && work[1..][j] == work[j + 1];
      RequeueWorkReturns(s', work[1..], n);
      if w.queue == n {
        NotReturned(work[1..], n);
        RefillNone(s'.queues[n]);
      }
    }
  }

  lemma {:induction false} ReturnedItem(work: seq<Work>, n: Name) returns (i: nat)
    requires ReturnedTo(work, n) != []
    ensures i < |work| && work[i].queue == n && work[i].records == ReturnedTo(work, n)
    decreases |work|
  {
    if work[0].queue == n {
      i := 0;
    } else {
      i := ReturnedItem(work[1..], n);
      i := i + 1;
    }
  }

  lemma {:induction false} ItemOfRecord(work: seq<Work>, r: Record) returns (i: nat)
    requires r in AllRecords(work)
    ensures i < |work| && r in work[i].records
    decreases |work|
  {
    if r in work[0].records {
      i := 0;
    } else {
      i := ItemOfRecord(work[1..], r);
      i := i + 1;
    }
  }

  lemma {:induction false} ReturnedAt(work: seq<Work>, i: nat)
    requires i < |work| && forall j | 0 <= j < i :: work[j].queue != work[i].queue
    ensures ReturnedTo(work, work[i].queue) == work[i].records
    decreases |work|
  {
    if i > 0 {
      assert forall j | 0 <= j < i - 1 :: work[1..][j] == work[j + 1];
      ReturnedAt(work[1..], i - 1);
    }
  }

  /** What the work returns to a queue is exactly the channel's live deliveries from it, in strictly
      increasing order of their tags, so each of them once. */
  lemma ReturnedExactly(s: VHost, ch: Channel, work: seq<Work>, n: Name)
    requires IsWork(s, ch, work)
    ensures var records := ReturnedTo(work, n);
            && (forall i, j | 0 <= i < j < |records| :: records[i].tag < records[j].tag)
            && (forall r: Record :: r in records <==>
                r.tag in LiveTags(s, ch) && ch.records[r.tag] == r && r.queue == n)
  {
    var records := ReturnedTo(work, n);
    forall r: Record ensures r in records ==> r.tag in LiveTags(s, ch) && ch.records[r.tag] == r && r.queue == n {
      if r in records {
        var i := ReturnedItem(work, n);
        ItemOf(work, i, r);
        var k :| 0 <= k < |AllRecords(work)| && AllRecords(work)[k] == r;
      }
    }
    forall r: Record | r.tag in LiveTags(s, ch) && ch.records[r.tag] == r && r.queue == n ensures r in records {
      var x :| x in AllRecords(work) && x.tag == r.tag;
      assert x == r;
      var i := ItemOfRecord(work, r);
      ReturnedAt(work, i);
    }
    if records != [] {
      var i := ReturnedItem(work, n);
    }
  }

  /** Closing a channel returns to every queue, after what it holds, exactly the channel's live
      deliveries from it, once each, in delivery order and marked as redelivered. */
  lemma CloseReturns(s: VHost, key: ChannelKey, t: Taking, n: Name)
    requires var s1 := CancelChannelConsumers(s, key);
             key in s1.channels && Takes(s1, key, t) && n in s1.queues && LengthsOk(s1)
    ensures var s1, s' := CancelChannelConsumers(s, key), CloseChannel(s, key, t);
            var records := ReturnedTo(t.work, n);
            && n in s'.queues && s'.queues[n] == Refilled(s1.queues[n], MessageList(records))
            && (forall i, j | 0 <= i < j < |records| :: records[i].tag < records[j].tag)
            && (forall r: Record :: r in records <==>
                  var ch := s1.channels[key]; r.tag in LiveTags(s1, ch) && ch.records[r.tag] == r && r.queue == n)
            && (forall r | r in records :: r.msg.id in s'.redelivered)
  {
    hide CancelChannelConsumers;
    var s1 := CancelChannelConsumers(s, key);
    ReturnedExactly(s1, s1.channels[key], t.work, n);
    hide Lists;
    RequeueWorkReturns(DropChannel(s1, key, t.dead, t.stranded), t.work, n);
  }
}
