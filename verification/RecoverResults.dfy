/**
 What basic.recover does with each record, in lists of any mixture: expired, requeued because it is
 asked for or because there is no consumer to go back to, requeued after a failed send, or redelivered.
 */
module RecoverResults {
  import opened Collections
  import opened ChannelDelivery
  import opened VHostState
  import opened RegistryProofs
  import opened StructureProofs
  import opened ConservationProofs
  import opened HandlerProofs
  import opened DeliveryProofs
  import opened RecoverProofs
  import opened ReturnResults

  // ---------------------------------------------------------------- with requeue

  /** Recover with requeue does to the host what a nack of the same records with requeue does. */
  lemma {:induction false} RecoverRequeues(s: VHost, key: ChannelKey, records: seq<Record>, expired: set<Message>,
                                           unsent: set<Message>)
    requires forall r | r in records :: !r.queueDeleted && r.queue in s.queues
    ensures RecoverEach(s, key, records, true, expired, unsent, {}) == NackEach(s, records, true, expired)
    decreases |records|
  {
    hide PushBack;
    if records != [] {
      var r := records[0];
      assert r in records;
      var s' := RecoverOne(s, key, r, true, expired, unsent, {});
      assert s' == NackOne(s, r, true, expired);
      RecoverOneKeeps(s, key, r, true, expired, unsent, {});
      assert forall x | x in records[1..] :: x in records;
      RecoverRequeues(s', key, records[1..], expired, unsent);
    }
  }

  // ---------------------------------------------------------------- the queues

  /** The messages that go back to a queue, in order. */
  function ReturnedBy(s: VHost, key: ChannelKey, records: seq<Record>, n: Name, requeue: bool, expired: set<Message>,
                      unsent: set<Message>): seq<Message> {
    if records == [] then []
    else
      var r := records[0];
      (if r.queue == n && Returns(FateOf(s, key, r, requeue, expired, unsent)) then [r.msg] else [])
      + ReturnedBy(s, key, records[1..], n, requeue, expired, unsent)
  }

  lemma {:induction false} SameReturned(s: VHost, s': VHost, key: ChannelKey, records: seq<Record>, n: Name,
                                        requeue: bool, expired: set<Message>, unsent: set<Message>)
    requires s'.reg == s.reg && s'.queues.Keys == s.queues.Keys
    ensures ReturnedBy(s', key, records, n, requeue, expired, unsent)
            == ReturnedBy(s, key, records, n, requeue, expired, unsent)
    decreases |records|
  {
    hide FateOf;
    if records != [] {
      SameFate(s, s', key, records[0], requeue, expired, unsent);
      SameReturned(s, s', key, records[1..], n, requeue, expired, unsent);
    }
  }

  lemma RequeuedQueues(s: VHost, r: Record, late: bool, n: Name, ms: seq<Message>)
    requires n in s.queues && LengthOk(s.queues[n])
    ensures var q' := RequeueMessage(s, r, late).queues;
            && n in q' && LengthOk(q'[n]) && q'[n].gen == s.queues[n].gen
            && Refilled(q'[n], ms) == Refilled(s.queues[n], (if r.queue == n then [r.msg] else []) + ms)
  {
    hide PushBack, LengthOk, Refilled;
    assert [] + ms == ms;
    if r.queue in s.queues {
      var s1 := if late then ExpireLate(s, r.queue, r.msg) else s;
      if r.queue == n { RefillOne(s1, n, r.msg, ms); } else { OtherQueues(s1, r.queue, r.msg, n); }
    }
  }

  lemma RecoverOneQueues(s: VHost, key: ChannelKey, r: Record, requeue: bool, expired: set<Message>,
                         unsent: set<Message>, late: set<Message>, n: Name, ms: seq<Message>)
    requires n in s.queues && LengthOk(s.queues[n])
    ensures var q' := RecoverOne(s, key, r, requeue, expired, unsent, late).queues;
            && n in q' && LengthOk(q'[n]) && q'[n].gen == s.queues[n].gen
            && Refilled(q'[n], ms)
            == Refilled(s.queues[n],
                        (if r.queue == n && Returns(FateOf(s, key, r, requeue, expired, unsent)) then [r.msg] else [])
                          + ms)
  {
    hide RequeueMessage, Deliver, LengthOk, Refilled;
    assert [] + ms == ms;
    match FateOf(s, key, r, requeue, expired, unsent)
    case Expires =>
    case Requeued => RequeuedQueues(s, r, r.msg in late, n, ms);
    case Bounced(c) =>
      DeliverKeeps(s, c, r.msg, false);
      RequeuedQueues(Deliver(s, c, r.msg, false), r, r.msg in late, n, ms);
    case Redelivered(c) => DeliverKeeps(s, c, r.msg, true);
  }

  /** Every queue gets, in the order of the records, exactly the messages from it that are not redelivered
      and have not expired. */
  lemma {:induction false} RecoverQueues(s: VHost, key: ChannelKey, records: seq<Record>, requeue: bool,
                                         expired: set<Message>, unsent: set<Message>, late: set<Message>, n: Name)
    requires n in s.queues && LengthOk(s.queues[n])
    ensures var q' := RecoverEach(s, key, records, requeue, expired, unsent, late).queues;
            n in q' && q'[n] == Refilled(s.queues[n], ReturnedBy(s, key, records, n, requeue, expired, unsent))
    decreases |records|
  {
    hide RecoverOne, FateOf, Refilled, LengthOk;
    if records == [] {
      RefillNone(s.queues[n]);
    } else {
      var s' := RecoverOne(s, key, records[0], requeue, expired, unsent, late);
      var rest := ReturnedBy(s, key, records[1..], n, requeue, expired, unsent);
      RecoverOneQueues(s, key, records[0], requeue, expired, unsent, late, n, rest);
      RecoverOneKeeps(s, key, records[0], requeue, expired, unsent, late);
      SameReturned(s, s', key, records[1..], n, requeue, expired, unsent);
      RecoverQueues(s', key, records[1..], requeue, expired, unsent, late, n);
    }
  }

  // ---------------------------------------------------------------- the channel

  /** The record is one that has been delivered again, under another tag, to the same consumer. */
  predicate Again(x: Record, r: Record) {
    x == r.(tag := x.tag, queueDeleted := false)
  }

  /** A record to redeliver goes to a consumer that acknowledges: the one it was delivered to. */
  lemma TargetOf(s: VHost, key: ChannelKey, r: Record, requeue: bool, expired: set<Message>, unsent: set<Message>)
    requires RegistryOk(s.reg) && Recoverable(s.queues, s.reg, key, r)
    ensures match FateOf(s, key, r, requeue, expired, unsent)
            case Bounced(c) => HomeOf(c) == key
            case Redelivered(c) =>
              && HomeOf(c) == key && c.tag == r.consumerTag && c.id == r.owner && c.queue == r.queue && !c.noAck
              && !r.fromGet && !r.consumerCancelled
            case _ => true
  {
    hide RegistryOk, FindConsumer;
    if !r.fromGet && !r.consumerCancelled {
      FoundOwner(s, key, r);
    }
  }

  /** The channel after one record: untouched, a tag used up, or the record under the next tag. */
  lemma RecoverOneChannel(s: VHost, key: ChannelKey, r: Record, requeue: bool, expired: set<Message>,
                          unsent: set<Message>, late: set<Message>)
    requires RegistryOk(s.reg) && Recoverable(s.queues, s.reg, key, r) && key in s.channels
    ensures var ch, s' := s.channels[key], RecoverOne(s, key, r, requeue, expired, unsent, late);
            s'.channels == match FateOf(s, key, r, requeue, expired, unsent)
                           case Bounced(c) => s.channels[key := ch.(last := ch.last + 1)]
                           case Redelivered(c) => s.channels[key := Retagged(ch, r)]
                           case _ => s.channels
  {
    TargetOf(s, key, r, requeue, expired, unsent);
    hide RegistryOk, Recoverable, RequeueMessage, FateOf, Deliver;
    match FateOf(s, key, r, requeue, expired, unsent)
    case Expires =>
    case Requeued => RequeueKeeps(s, r, r.msg in late);
    case Bounced(c) =>
      BouncedChannel(s, c, r.msg);
      RequeueKeeps(Deliver(s, c, r.msg, false), r, r.msg in late);
    case Redelivered(c) => RedeliveredChannel(s, c, r);
  }

  lemma BouncedChannel(s: VHost, c: Consumer, m: Message)
    requires HomeOf(c) in s.channels
    ensures var ch := s.channels[HomeOf(c)];
            Deliver(s, c, m, false).channels == s.channels[HomeOf(c) := ch.(last := ch.last + 1)]
  {
  }

  /** The channel with the record under its next tag. */
  function Retagged(ch: Channel, r: Record): Channel {
    ch.(last := ch.last + 1, records := ch.records[ch.last + 1 := r.(tag := ch.last + 1, queueDeleted := false)])
  }

  lemma RedeliveredChannel(s: VHost, c: Consumer, r: Record)
    requires HomeOf(c) in s.channels && c.tag == r.consumerTag && c.id == r.owner && c.queue == r.queue && !c.noAck
    requires !r.fromGet && !r.consumerCancelled
    ensures Deliver(s, c, r.msg, true).channels == s.channels[HomeOf(c) := Retagged(s.channels[HomeOf(c)], r)]
  {
  }

  lemma RecoverOneWellFormed(s: VHost, key: ChannelKey, r: Record, requeue: bool, expired: set<Message>,
                             unsent: set<Message>, late: set<Message>)
    requires RegistryOk(s.reg) && Recoverable(s.queues, s.reg, key, r) && key in s.channels
             && WellFormed(s.channels[key])
    ensures var s' := RecoverOne(s, key, r, requeue, expired, unsent, late);
            key in s'.channels && WellFormed(s'.channels[key])
  {
    RecoverOneChannel(s, key, r, requeue, expired, unsent, late);
    TargetOf(s, key, r, requeue, expired, unsent);
    hide RegistryOk, Recoverable, RecoverOne, FateOf;
  }

  /** The channel has the record under a tag above the given one. */
  ghost predicate There(ch: Channel, before: nat, r: Record) {
    exists t :: t > before && t in ch.records && Again(ch.records[t], r)
  }

  lemma ThereAfter(s: VHost, key: ChannelKey, r: Record, requeue: bool, expired: set<Message>, unsent: set<Message>,
                   late: set<Message>,
                   before: nat, x: Record)
    requires RegistryOk(s.reg) && Recoverable(s.queues, s.reg, key, r) && key in s.channels
             && WellFormed(s.channels[key])
    requires before <= s.channels[key].last
    ensures var s' := RecoverOne(s, key, r, requeue, expired, unsent, late);
            && key in s'.channels && before <= s'.channels[key].last
            && (There(s.channels[key], before, x) ==> There(s'.channels[key], before, x))
            && (FateOf(s, key, r, requeue, expired, unsent).Redelivered? ==> There(s'.channels[key], before, r))
  {
    RecoverOneChannel(s, key, r, requeue, expired, unsent, late);
    hide RegistryOk, Recoverable, RecoverOne, FateOf;
    var ch, ch' := s.channels[key], RecoverOne(s, key, r, requeue, expired, unsent, late).channels[key];
    if t :| t > before && t in ch.records && Again(ch.records[t], x) {
      assert t in ch'.records && ch'.records[t] == ch.records[t];
    }
    if FateOf(s, key, r, requeue, expired, unsent).Redelivered? {
      assert Again(ch'.records[ch.last + 1], r);
    }
  }

  /** Every record that is redelivered is on the channel afterwards, under a new tag. */
  lemma {:induction false} RecoverRedelivers(s: VHost, key: ChannelKey, records: seq<Record>, requeue: bool,
                                             expired: set<Message>,
                                             unsent: set<Message>, late: set<Message>, before: nat, x: Record)
    requires RegistryOk(s.reg) && key in s.channels && WellFormed(s.channels[key]) && before <= s.channels[key].last
    requires forall r | r in records :: Recoverable(s.queues, s.reg, key, r)
    requires (x in records && FateOf(s, key, x, requeue, expired, unsent).Redelivered?)
             || There(s.channels[key], before, x)
    ensures There(ChannelOf(RecoverEach(s, key, records, requeue, expired, unsent, late), key), before, x)
    decreases |records|
  {
    hide RegistryOk, Recoverable, RecoverOne, FateOf, There;
    if records != [] {
      var r, rest := records[0], records[1..];
      var s' := RecoverOne(s, key, r, requeue, expired, unsent, late);
      assert r in records;
      assert x in records ==> x == r || x in rest by { assert records == [r] + rest; }
      RecoverOneChannel(s, key, r, requeue, expired, unsent, late);
      RecoverOneWellFormed(s, key, r, requeue, expired, unsent, late);
      RecoverOneKeeps(s, key, r, requeue, expired, unsent, late);
      RootsKept(s, key, records, requeue, expired, unsent, late);
      ThereAfter(s, key, r, requeue, expired, unsent, late, before, x);
      SameFate(s, s', key, x, requeue, expired, unsent);
      RecoverRedelivers(s', key, rest, requeue, expired, unsent, late, before, x);
    }
  }

  /** Some record of the list is redelivered as x. */
  ghost predicate From(s: VHost, key: ChannelKey, records: seq<Record>, requeue: bool, expired: set<Message>,
                       unsent: set<Message>, x: Record) {
    exists i ::
      0 <= i < |records| && Again(x, records[i]) && FateOf(s, key, records[i], requeue, expired, unsent).Redelivered?
  }

  lemma FromMore(s: VHost, key: ChannelKey, records: seq<Record>, requeue: bool, expired: set<Message>,
                 unsent: set<Message>, x: Record)
    requires records != []
    ensures From(s, key, records, requeue, expired, unsent, x) <==>
            (Again(x, records[0]) && FateOf(s, key, records[0], requeue, expired, unsent).Redelivered?)
            || From(s, key, records[1..], requeue, expired, unsent, x)
  {
    hide Again, FateOf;
    if i :| 0 <= i < |records| && Again(x, records[i])
            && FateOf(s, key, records[i], requeue, expired, unsent).Redelivered? {
      if i > 0 { assert records[1..][i - 1] == records[i]; }
    }
    if i :| 0 <= i < |records[1..]| && Again(x, records[1..][i])
            && FateOf(s, key, records[1..][i], requeue, expired, unsent).Redelivered? {
      assert records[i + 1] == records[1..][i];
    }
  }

  lemma SameFrom(s: VHost, s': VHost, key: ChannelKey, records: seq<Record>, requeue: bool, expired: set<Message>,
                 unsent: set<Message>, x: Record)
    requires s'.reg == s.reg && s'.queues.Keys == s.queues.Keys
    ensures From(s', key, records, requeue, expired, unsent, x) == From(s, key, records, requeue, expired, unsent, x)
  {
    hide Again, FateOf;
    forall i | 0 <= i < |records|
      ensures FateOf(s', key, records[i], requeue, expired, unsent)
              == FateOf(s, key, records[i], requeue, expired, unsent)
    {
      SameFate(s, s', key, records[i], requeue, expired, unsent);
    }
  }

  /** The channel gets, under new tags, exactly the records that are redelivered: r stands for any record of
      the list, t for any tag. */
  lemma {:induction false} RecoverChannel(s: VHost, key: ChannelKey, records: seq<Record>, requeue: bool,
                                          expired: set<Message>, unsent: set<Message>, late: set<Message>, t: nat)
    requires RegistryOk(s.reg) && key in s.channels && WellFormed(s.channels[key])
    requires forall r | r in records :: Recoverable(s.queues, s.reg, key, r)
    ensures var ch := s.channels[key];
            var ch' := ChannelOf(RecoverEach(s, key, records, requeue, expired, unsent, late), key);
            && ch'.last >= ch.last
            && (t in ch.records ==> t in ch'.records && ch'.records[t] == ch.records[t])
            && (t in ch'.records && t !in ch.records ==>
                t > ch.last && From(s, key, records, requeue, expired, unsent, ch'.records[t]))
    decreases |records|
  {
    hide RegistryOk, Recoverable, RecoverOne, FateOf, From;
    if records != [] {
      var r, rest := records[0], records[1..];
      var s' := RecoverOne(s, key, r, requeue, expired, unsent, late);
      assert r in records;
      RecoverOneChannel(s, key, r, requeue, expired, unsent, late);
      RecoverOneWellFormed(s, key, r, requeue, expired, unsent, late);
      RecoverOneKeeps(s, key, r, requeue, expired, unsent, late);
      RootsKept(s, key, records, requeue, expired, unsent, late);
      RecoverChannel(s', key, rest, requeue, expired, unsent, late, t);
      var x := ChannelOf(RecoverEach(s', key, rest, requeue, expired, unsent, late), key);
      if t in x.records {
        FromMore(s, key, records, requeue, expired, unsent, x.records[t]);
        SameFrom(s, s', key, rest, requeue, expired, unsent, x.records[t]);
      }
    }
  }

  /** What is still to be recovered stays so. */
  lemma RootsKept(s: VHost, key: ChannelKey, records: seq<Record>, requeue: bool, expired: set<Message>,
                  unsent: set<Message>, late: set<Message>)
    requires records != [] && forall r | r in records :: Recoverable(s.queues, s.reg, key, r)
    ensures var s' := RecoverOne(s, key, records[0], requeue, expired, unsent, late);
            forall r | r in records[1..] :: Recoverable(s'.queues, s'.reg, key, r)
  {
    hide RecoverOne, LinkedTo;
    var s' := RecoverOne(s, key, records[0], requeue, expired, unsent, late);
    RecoverOneKeeps(s, key, records[0], requeue, expired, unsent, late);
    forall n | n in s.queues ensures s'.queues[n].gen == s.queues[n].gen {
      GenKept(s, key, records[0], requeue, expired, unsent, late, n);
    }
    assert forall r | r in records[1..] :: r in records;
  }

  lemma GenKept(s: VHost, key: ChannelKey, r: Record, requeue: bool, expired: set<Message>, unsent: set<Message>,
                late: set<Message>, n: Name)
    requires n in s.queues
    ensures var q' := RecoverOne(s, key, r, requeue, expired, unsent, late).queues;
            n in q' && q'[n].gen == s.queues[n].gen
  {
    hide RequeueMessage, Deliver;
    match FateOf(s, key, r, requeue, expired, unsent)
    case Expires =>
    case Requeued => RequeueGen(s, r, r.msg in late, n);
    case Bounced(c) => DeliverKeeps(s, c, r.msg, false); RequeueGen(Deliver(s, c, r.msg, false), r, r.msg in late, n);
    case Redelivered(c) => DeliverKeeps(s, c, r.msg, true);
  }

  lemma RequeueGen(s: VHost, r: Record, late: bool, n: Name)
    requires n in s.queues
    ensures var q' := RequeueMessage(s, r, late).queues; n in q' && q'[n].gen == s.queues[n].gen
  {
  }

  // ---------------------------------------------------------------- the ledger and the marks

  /** The messages that have expired when recover asks first. */
  function ExpiredOf(s: VHost, key: ChannelKey, records: seq<Record>, requeue: bool, expired: set<Message>,
                     unsent: set<Message>): multiset<Message> {
    if records == [] then multiset{}
    else
      (if FateOf(s, key, records[0], requeue, expired, unsent).Expires? then multiset{records[0].msg} else multiset{})
      + ExpiredOf(s, key, records[1..], requeue, expired, unsent)
  }

  lemma {:induction false} SameExpired(s: VHost, s': VHost, key: ChannelKey, records: seq<Record>, requeue: bool,
                                       expired: set<Message>, unsent: set<Message>)
    requires s'.reg == s.reg && s'.queues.Keys == s.queues.Keys
    ensures ExpiredOf(s', key, records, requeue, expired, unsent)
            == ExpiredOf(s, key, records, requeue, expired, unsent)
    decreases |records|
  {
    hide FateOf;
    if records != [] {
      SameFate(s, s', key, records[0], requeue, expired, unsent);
      SameExpired(s, s', key, records[1..], requeue, expired, unsent);
    }
  }

  lemma RequeueLedger(s: VHost, r: Record, late: bool)
    requires r.queue in s.queues
    ensures var s' := RequeueMessage(s, r, late);
            && s'.ledger.expired == s.ledger.expired + (if late then multiset{r.msg} else multiset{})
            && s.ledger.deadLetters <= s'.ledger.deadLetters
            && s'.redelivered == s.redelivered + {r.msg.id}
  {
  }

  lemma DeliverLedger(s: VHost, c: Consumer, m: Message, sent: bool)
    ensures var s' := Deliver(s, c, m, sent);
            && s'.ledger.expired == s.ledger.expired && s'.ledger.deadLetters == s.ledger.deadLetters
            && s'.queues == s.queues
            && s'.redelivered == if sent then s.redelivered - {m.id} else s.redelivered
  {
  }

  lemma RecoverOneExpired(s: VHost, key: ChannelKey, r: Record, requeue: bool, expired: set<Message>,
                          unsent: set<Message>, late: set<Message>)
    requires r.queue in s.queues
    ensures RecoverOne(s, key, r, requeue, expired, unsent, late).ledger.expired
         == s.ledger.expired
            + (if FateOf(s, key, r, requeue, expired, unsent).Expires? then multiset{r.msg} else multiset{})
            + (if ExpiresLate(s, key, r, requeue, expired, unsent, late) then multiset{r.msg} else multiset{})
  {
    hide RequeueMessage, FateOf, Deliver;
    match FateOf(s, key, r, requeue, expired, unsent)
    case Expires =>
    case Requeued => RequeueLedger(s, r, r.msg in late);
    case Bounced(c) =>
      DeliverLedger(s, c, r.msg, false);
      RequeueLedger(Deliver(s, c, r.msg, false), r, r.msg in late);
    case Redelivered(c) => DeliverLedger(s, c, r.msg, true);
  }

  lemma RecoverOneLetters(s: VHost, key: ChannelKey, r: Record, requeue: bool, expired: set<Message>,
                          unsent: set<Message>, late: set<Message>)
    requires r.queue in s.queues
    ensures var letters := RecoverOne(s, key, r, requeue, expired, unsent, late).ledger.deadLetters;
            && s.ledger.deadLetters <= letters
            && (FateOf(s, key, r, requeue, expired, unsent).Expires? ==> (r.msg, s.queues[r.queue].gen) in letters)
  {
    hide RequeueMessage, FateOf, Deliver;
    match FateOf(s, key, r, requeue, expired, unsent)
    case Expires =>
    case Requeued => RequeueLedger(s, r, r.msg in late);
    case Bounced(c) =>
      DeliverLedger(s, c, r.msg, false);
      RequeueLedger(Deliver(s, c, r.msg, false), r, r.msg in late);
    case Redelivered(c) => DeliverLedger(s, c, r.msg, true);
  }

  lemma RecoverOneMarks(s: VHost, key: ChannelKey, r: Record, requeue: bool, expired: set<Message>,
                        unsent: set<Message>, late: set<Message>)
    requires r.queue in s.queues
    ensures RecoverOne(s, key, r, requeue, expired, unsent, late).redelivered
         == match FateOf(s, key, r, requeue, expired, unsent)
            case Expires => s.redelivered
            case Redelivered(c) => s.redelivered - {r.msg.id}
            case _ => s.redelivered + {r.msg.id}
  {
    hide RequeueMessage, FateOf, Deliver;
    match FateOf(s, key, r, requeue, expired, unsent)
    case Expires =>
    case Requeued => RequeueLedger(s, r, r.msg in late);
    case Bounced(c) =>
      DeliverLedger(s, c, r.msg, false);
      RequeueLedger(Deliver(s, c, r.msg, false), r, r.msg in late);
    case Redelivered(c) => DeliverLedger(s, c, r.msg, true);
  }

  /** The expired ones and the late ones, and no others, are booked as expired. */
  lemma {:induction false} RecoverLedger(s: VHost, key: ChannelKey, records: seq<Record>, requeue: bool,
                                         expired: set<Message>, unsent: set<Message>, late: set<Message>)
    requires forall r | r in records :: r.queue in s.queues
    ensures RecoverEach(s, key, records, requeue, expired, unsent, late).ledger.expired
         == s.ledger.expired
           + (ExpiredOf(s, key, records, requeue, expired, unsent)
              + Late(s, key, records, requeue, expired, unsent, late))
    decreases |records|
  {
    hide RecoverOne, FateOf, ExpiresLate;
    if records != [] {
      var r, rest := records[0], records[1..];
      var s' := RecoverOne(s, key, r, requeue, expired, unsent, late);
      assert r in records && forall x | x in rest :: x in records;
      RecoverOneExpired(s, key, r, requeue, expired, unsent, late);
      RecoverOneKeeps(s, key, r, requeue, expired, unsent, late);
      SameExpired(s, s', key, rest, requeue, expired, unsent);
      SameLate(s, s', key, rest, requeue, expired, unsent, late);
      RecoverLedger(s', key, rest, requeue, expired, unsent, late);
      Regroup(s.ledger.expired, if FateOf(s, key, r, requeue, expired, unsent).Expires? then multiset{r.msg}
              else multiset{},
              if ExpiresLate(s, key, r, requeue, expired, unsent, late) then multiset{r.msg} else multiset{},
              ExpiredOf(s, key, rest, requeue, expired, unsent), Late(s, key, rest, requeue, expired, unsent, late));
    }
  }

  lemma Regroup(before: multiset<Message>, e: multiset<Message>, l: multiset<Message>, es: multiset<Message>,
                ls: multiset<Message>)
    ensures before + e + l + (es + ls) == before + ((e + es) + (l + ls))
  {
  }

  /** The expired ones go to the dead-letter path of the queue they came from. */
  lemma {:induction false} RecoverLetters(s: VHost, key: ChannelKey, records: seq<Record>, requeue: bool,
                                          expired: set<Message>, unsent: set<Message>, late: set<Message>)
    requires forall r | r in records :: Recoverable(s.queues, s.reg, key, r)
    ensures var s' := RecoverEach(s, key, records, requeue, expired, unsent, late);
            && s.ledger.deadLetters <= s'.ledger.deadLetters
            && forall r | r in records && FateOf(s, key, r, requeue, expired, unsent).Expires? ::
                (r.msg, r.msg.origin) in s'.ledger.deadLetters
    decreases |records|
  {
    hide RecoverOne, FateOf, LinkedTo, ExpiresLate;
    if records != [] {
      var r, rest := records[0], records[1..];
      var s' := RecoverOne(s, key, r, requeue, expired, unsent, late);
      assert r in records && forall x | x in rest :: x in records;
      assert forall x | x in records :: x == r || x in rest by { assert records == [r] + rest; }
      RecoverOneLetters(s, key, r, requeue, expired, unsent, late);
      RecoverOneKeeps(s, key, r, requeue, expired, unsent, late);
      RootsKept(s, key, records, requeue, expired, unsent, late);
      forall x ensures FateOf(s', key, x, requeue, expired, unsent) == FateOf(s, key, x, requeue, expired, unsent) {
        SameFate(s, s', key, x, requeue, expired, unsent);
      }
      RecoverLetters(s', key, rest, requeue, expired, unsent, late);
    }
  }

  /** Record i goes back, which marks its message. */
  predicate SetsMark(s: VHost, key: ChannelKey, records: seq<Record>, requeue: bool, expired: set<Message>,
                     unsent: set<Message>, id: nat, i: nat) {
    i < |records| && records[i].msg.id == id && Returns(FateOf(s, key, records[i], requeue, expired, unsent))
  }

  /** Record i is redelivered, which takes the mark away. */
  predicate TakesMark(s: VHost, key: ChannelKey, records: seq<Record>, requeue: bool, expired: set<Message>,
                      unsent: set<Message>, id: nat, i: nat) {
    i < |records| && records[i].msg.id == id && FateOf(s, key, records[i], requeue, expired, unsent).Redelivered?
  }

  ghost predicate NoneTakes(s: VHost, key: ChannelKey, records: seq<Record>, requeue: bool, expired: set<Message>,
                            unsent: set<Message>, id: nat, from: nat) {
    forall j | from <= j < |records| :: !TakesMark(s, key, records, requeue, expired, unsent, id, j)
  }

  /** Some record goes back, and no copy of its message is redelivered after it. */
  ghost predicate EndsMarked(s: VHost, key: ChannelKey, records: seq<Record>, requeue: bool, expired: set<Message>,
                             unsent: set<Message>, id: nat) {
    exists i :: 0 <= i < |records| && SetsMark(s, key, records, requeue, expired, unsent, id, i)
                && NoneTakes(s, key, records, requeue, expired, unsent, id, i + 1)
  }

  lemma MarksMore(s: VHost, s': VHost, key: ChannelKey, records: seq<Record>, requeue: bool, expired: set<Message>,
                  unsent: set<Message>, id: nat)
    requires records != [] && s'.reg == s.reg && s'.queues.Keys == s.queues.Keys
    ensures NoneTakes(s, key, records, requeue, expired, unsent, id, 1) <==>
              NoneTakes(s', key, records[1..], requeue, expired, unsent, id, 0)
    ensures EndsMarked(s, key, records, requeue, expired, unsent, id) <==>
            || EndsMarked(s', key, records[1..], requeue, expired, unsent, id)
            || (SetsMark(s, key, records, requeue, expired, unsent, id, 0)
                && NoneTakes(s, key, records, requeue, expired, unsent, id, 1))
  {
    hide FateOf;
    var rest := records[1..];
    forall i: nat
      ensures SetsMark(s', key, rest, requeue, expired, unsent, id, i) <==>
                SetsMark(s, key, records, requeue, expired, unsent, id, i + 1)
      ensures TakesMark(s', key, rest, requeue, expired, unsent, id, i) <==>
                TakesMark(s, key, records, requeue, expired, unsent, id, i + 1)
    {
      if i < |rest| { SameFate(s, s', key, rest[i], requeue, expired, unsent); }
    }
    hide SetsMark, TakesMark;
    forall i: nat
      ensures NoneTakes(s', key, rest, requeue, expired, unsent, id, i) <==>
                NoneTakes(s, key, records, requeue, expired, unsent, id, i + 1) {
      if NoneTakes(s', key, rest, requeue, expired, unsent, id, i) {
        forall j | i + 1 <= j < |records| ensures !TakesMark(s, key, records, requeue, expired, unsent, id, j) {
          assert !TakesMark(s', key, rest, requeue, expired, unsent, id, j - 1);
        }
      } else {
        var j :| i <= j < |rest| && TakesMark(s', key, rest, requeue, expired, unsent, id, j);
        assert TakesMark(s, key, records, requeue, expired, unsent, id, j + 1);
      }
    }
    hide NoneTakes;
    if i :| 0 <= i < |rest| && SetsMark(s', key, rest, requeue, expired, unsent, id, i)
            && NoneTakes(s', key, rest, requeue, expired, unsent, id, i + 1) {
      assert SetsMark(s, key, records, requeue, expired, unsent, id, i + 1)
        && NoneTakes(s, key, records, requeue, expired, unsent, id, i + 2);
    }
    if i :| 0 < i < |records| && SetsMark(s, key, records, requeue, expired, unsent, id, i)
            && NoneTakes(s, key, records, requeue, expired, unsent, id, i + 1) {
      assert SetsMark(s', key, rest, requeue, expired, unsent, id, i - 1)
        && NoneTakes(s', key, rest, requeue, expired, unsent, id, i);
    }
  }

  /** The mark is one for all copies of a message, and a delivery takes it away. After recover it is there
      exactly if some copy goes back and none is redelivered after it, or it was there before and none is
      redelivered at all. */
  lemma {:induction false} RecoverMarks(s: VHost, key: ChannelKey, records: seq<Record>, requeue: bool,
                                        expired: set<Message>, unsent: set<Message>, late: set<Message>, id: nat)
    requires forall r | r in records :: r.queue in s.queues
    ensures id in RecoverEach(s, key, records, requeue, expired, unsent, late).redelivered <==>
            || EndsMarked(s, key, records, requeue, expired, unsent, id)
            || (id in s.redelivered && NoneTakes(s, key, records, requeue, expired, unsent, id, 0))
    decreases |records|
  {
    hide RecoverOne, FateOf, EndsMarked;
    if records == [] {
      assert !EndsMarked(s, key, records, requeue, expired, unsent, id)
        by { NothingMarked(s, key, requeue, expired, unsent, id); }
    } else {
      var r, rest := records[0], records[1..];
      var s' := RecoverOne(s, key, r, requeue, expired, unsent, late);
      assert r in records && forall x | x in rest :: x in records;
      RecoverOneMarks(s, key, r, requeue, expired, unsent, late);
      RecoverOneKeeps(s, key, r, requeue, expired, unsent, late);
      MarksMore(s, s', key, records, requeue, expired, unsent, id);
      RecoverMarks(s', key, rest, requeue, expired, unsent, late, id);
      assert NoneTakes(s, key, records, requeue, expired, unsent, id, 0) <==>
             !TakesMark(s, key, records, requeue, expired, unsent, id, 0)
             && NoneTakes(s, key, records, requeue, expired, unsent, id, 1);
    }
  }

  lemma NothingMarked(s: VHost, key: ChannelKey, requeue: bool, expired: set<Message>, unsent: set<Message>, id: nat)
    ensures !EndsMarked(s, key, [], requeue, expired, unsent, id)
  {
  }

  lemma {:induction false} RecoverEachKeeps(s: VHost, key: ChannelKey, records: seq<Record>, requeue: bool,
                                            expired: set<Message>, unsent: set<Message>, late: set<Message>)
    ensures var s' := RecoverEach(s, key, records, requeue, expired, unsent, late);
            s'.reg == s.reg && s'.queues.Keys == s.queues.Keys
    decreases |records|
  {
    hide RecoverOne;
    if records != [] {
      RecoverOneKeeps(s, key, records[0], requeue, expired, unsent, late);
      RecoverEachKeeps(RecoverOne(s, key, records[0], requeue, expired, unsent, late), key, records[1..], requeue,
                       expired, unsent, late);
    }
  }

  lemma OutcomeQueues(s: VHost, s1: VHost, key: ChannelKey, popped: seq<Record>, requeue: bool, expired: set<Message>,
                      unsent: set<Message>, late: set<Message>)
    requires Structure(s) && s1.reg == s.reg && s1.queues == s.queues
    ensures var s' := RecoverEach(s1, key, popped, requeue, expired, unsent, late);
            && s'.reg == s.reg && s'.queues.Keys == s.queues.Keys
            && (forall n | n in s.queues ::
                s'.queues[n] == Refilled(s.queues[n], ReturnedBy(s, key, popped, n, requeue, expired, unsent)))
  {
    var s' := RecoverEach(s1, key, popped, requeue, expired, unsent, late);
    RecoverEachKeeps(s1, key, popped, requeue, expired, unsent, late);
    forall n | n in s.queues ensures LengthOk(s.queues[n]) { assert QueueOk(s.queues[n]); }
    hide Structure, LengthOk, Refilled, RecoverEach;
    forall n | n in s.queues
      ensures s'.queues[n] == Refilled(s.queues[n], ReturnedBy(s, key, popped, n, requeue, expired, unsent)) {
      RecoverQueues(s1, key, popped, requeue, expired, unsent, late, n);
      SameReturned(s, s1, key, popped, n, requeue, expired, unsent);
    }
  }

  lemma OutcomeChannel(s: VHost, s1: VHost, key: ChannelKey, popped: seq<Record>, requeue: bool,
                       expired: set<Message>, unsent: set<Message>, late: set<Message>)
    requires RegistryOk(s.reg) && key in s.channels && s1.reg == s.reg && s1.queues == s.queues
    requires key in s1.channels && s1.channels[key] == s.channels[key].(records := map[])
    requires forall r | r in popped :: Recoverable(s.queues, s.reg, key, r)
    ensures var ch := s.channels[key];
            var ch' := ChannelOf(RecoverEach(s1, key, popped, requeue, expired, unsent, late), key);
            && (forall r | r in popped && FateOf(s, key, r, requeue, expired, unsent).Redelivered? ::
                There(ch', ch.last, r))
            && (forall t | t in ch'.records ::
                t > ch.last && From(s, key, popped, requeue, expired, unsent, ch'.records[t]))
  {
    assert WellFormed(s1.channels[key]);
    hide RegistryOk, Recoverable, FateOf, RecoverEach, From, There, WellFormed;
    var ch, ch' := s.channels[key], ChannelOf(RecoverEach(s1, key, popped, requeue, expired, unsent, late), key);
    forall r | r in popped && FateOf(s, key, r, requeue, expired, unsent).Redelivered? ensures There(ch', ch.last, r) {
      SameFate(s, s1, key, r, requeue, expired, unsent);
      RecoverRedelivers(s1, key, popped, requeue, expired, unsent, late, ch.last, r);
    }
    forall t | t in ch'.records ensures t > ch.last && From(s, key, popped, requeue, expired, unsent, ch'.records[t]) {
      RecoverChannel(s1, key, popped, requeue, expired, unsent, late, t);
      SameFrom(s, s1, key, popped, requeue, expired, unsent, ch'.records[t]);
    }
  }

  lemma OutcomeLedger(s: VHost, s1: VHost, key: ChannelKey, popped: seq<Record>, requeue: bool, expired: set<Message>,
                      unsent: set<Message>, late: set<Message>)
    requires s1.reg == s.reg && s1.queues == s.queues && s1.ledger.expired == s.ledger.expired
    requires forall r | r in popped :: Recoverable(s.queues, s.reg, key, r)
    ensures var s' := RecoverEach(s1, key, popped, requeue, expired, unsent, late);
            && s'.ledger.expired == s.ledger.expired + (ExpiredOf(s, key, popped, requeue, expired, unsent)
                                                        + Late(s, key, popped, requeue, expired, unsent, late))
            && forall r | r in popped && FateOf(s, key, r, requeue, expired, unsent).Expires? ::
                (r.msg, r.msg.origin) in s'.ledger.deadLetters
  {
    assert forall r | r in popped :: r.queue in s1.queues;
    hide Recoverable, FateOf, RecoverEach;
    forall r ensures FateOf(s1, key, r, requeue, expired, unsent) == FateOf(s, key, r, requeue, expired, unsent) {
      SameFate(s, s1, key, r, requeue, expired, unsent);
    }
    RecoverLedger(s1, key, popped, requeue, expired, unsent, late);
    RecoverLetters(s1, key, popped, requeue, expired, unsent, late);
    SameExpired(s, s1, key, popped, requeue, expired, unsent);
    SameLate(s, s1, key, popped, requeue, expired, unsent, late);
  }

  // ---------------------------------------------------------------- all of it

  /** Recover in any reachable state, whatever mixture it finds. Every queue gets in order the messages from
      it that are neither redelivered nor expired; the channel has exactly the redelivered ones, under
      new tags, for the consumers they were delivered to; the expired ones are dead-lettered by the queue
      they came from; and consumers and queues stay. */
  lemma RecoverOutcome(s: VHost, key: ChannelKey, requeue: bool, popped: seq<Record>, dead: seq<Record>,
                       expired: set<Message>, unsent: set<Message>, late: set<Message>)
    requires Sound(s, multiset{}) && key in s.channels
    requires Lists(popped, s.channels[key], Requeueable(s.channels[key]))
             && Lists(dead, s.channels[key], DeadTags(s.channels[key]))
    ensures var s' := Recover(s, key, requeue, popped, dead, expired, unsent, late);
            && s'.reg == s.reg && s'.queues.Keys == s.queues.Keys
            && (forall n | n in s.queues ::
                s'.queues[n] == Refilled(s.queues[n], ReturnedBy(s, key, popped, n, requeue, expired, unsent)))
    ensures var s' := Recover(s, key, requeue, popped, dead, expired, unsent, late);
            var ch, ch' := s.channels[key], ChannelOf(s', key);
            && (forall r | r in popped && FateOf(s, key, r, requeue, expired, unsent).Redelivered? ::
                There(ch', ch.last, r))
            && (forall t | t in ch'.records ::
                t > ch.last && From(s, key, popped, requeue, expired, unsent, ch'.records[t]))
    ensures var s' := Recover(s, key, requeue, popped, dead, expired, unsent, late);
            && s'.ledger.expired == s.ledger.expired + (ExpiredOf(s, key, popped, requeue, expired, unsent)
                                                        + Late(s, key, popped, requeue, expired, unsent, late))
            && forall r | r in popped && FateOf(s, key, r, requeue, expired, unsent).Expires? ::
                (r.msg, r.msg.origin) in s'.ledger.deadLetters
  {
    hide BooksOk, Lists, FateOf, RecoverEach, From, There;
    var s1 := Emptied(s, key, dead);
    RecoverableRecords(s, key, popped);
    OutcomeQueues(s, s1, key, popped, requeue, expired, unsent, late);
    OutcomeChannel(s, s1, key, popped, requeue, expired, unsent, late);
    OutcomeLedger(s, s1, key, popped, requeue, expired, unsent, late);
  }

  // ---------------------------------------------------------------- which way each record goes

  lemma {:induction false} FindsOne(cs: seq<Consumer>, c: Consumer)
    requires c in cs
    ensures FindConsumer(cs, c.tag).Some?
    decreases |cs|
  {
    if cs[0] != c { FindsOne(cs[1..], c); }
  }

  /** The consumer a counted delivery belongs to is active, and it is the one that recover finds. */
  lemma OwnerFound(reg: Registry, key: ChannelKey, r: Record)
    requires RegistryOk(reg) && Counted(r) && LinkedTo(reg, key, r)
    ensures var target := FindConsumer(Get(reg.byChannel, key), r.consumerTag);
            && target.Some? && target.value in Members(reg) && target.value.id == r.owner
            && HomeOf(target.value) == key && r.owner in reg.active
  {
    var c := reg.consumers[ConsumerKey(key.channel, r.consumerTag)];
    MemberIff(reg, c);
    assert c.Key() == ConsumerKey(key.channel, r.consumerTag);
    assert c in Get(reg.byChannel, HomeOf(c));
    var cs := Get(reg.byChannel, key);
    FindsOne(cs, c);
    FoundConsumer(cs, r.consumerTag);
    var d := FindConsumer(cs, r.consumerTag).value;
    ListedAt(reg, key, d);
    assert d == c;
  }

  /** In any reachable state, the way a live delivery goes in a recover. One that has expired is dead-lettered;
      with requeue, and if it was fetched with basic.get or its consumer has left, it goes back to its queue;
      otherwise it is sent to that very consumer, on its channel, and goes back if the send fails. */
  lemma FateExactly(s: VHost, key: ChannelKey, t: nat, requeue: bool, expired: set<Message>, unsent: set<Message>)
    requires Sound(s, multiset{}) && key in s.channels && t in s.channels[key].records
             && !s.channels[key].records[t].queueDeleted
    ensures var r := s.channels[key].records[t];
            var fate := FateOf(s, key, r, requeue, expired, unsent);
            var stays := requeue || r.fromGet || r.owner !in s.reg.active;
            && (r.msg in expired ==> fate == Expires)
            && (r.msg !in expired && stays ==> fate == Requeued)
            && (r.msg !in expired && !stays ==>
                && (if r.msg in unsent then fate.Bounced? else fate.Redelivered?)
                && fate.c in Members(s.reg) && fate.c.id == r.owner && HomeOf(fate.c) == key)
  {
    hide BooksOk, Bounded, QueuesOk, DistinctGens, ConsumersOk;
    var r := s.channels[key].records[t];
    assert LinkedIn(s.reg, key, s.channels[key]) && RootedIn(s.queues, s.channels[key]);
    assert LeftIn(s.reg, s.nextConsumer, s.channels[key]) && RootedTo(s.queues, r);
    hide Linked, Rooted, Left, ChannelsOk, Absent;
    if Counted(r) {
      assert LinkedTo(s.reg, key, r);
      hide LinkedTo;
      OwnerFound(s.reg, key, r);
    }
    hide RegistryOk, FindConsumer, LinkedIn, RootedIn, LeftIn;
  }

  // ---------------------------------------------------------------- and the rest

  /** Only what has expired, what is there twice and what has to make room for a message. */
  ghost predicate OnlyReturns(l: Ledger, l': Ledger) {
    l' == l.(expired := l'.expired, duplicated := l'.duplicated, evicted := l'.evicted, overflow := l'.overflow,
             deadLetters := l'.deadLetters)
  }

  lemma RequeueRest(s: VHost, r: Record, late: bool)
    requires r.queue in s.queues
    ensures OnlyReturns(s.ledger, RequeueMessage(s, r, late).ledger)
  {
  }

  lemma RecoverOneRest(s: VHost, key: ChannelKey, r: Record, requeue: bool, expired: set<Message>,
                       unsent: set<Message>, late: set<Message>)
    requires RegistryOk(s.reg) && Recoverable(s.queues, s.reg, key, r)
    ensures OnlyReturns(s.ledger, RecoverOne(s, key, r, requeue, expired, unsent, late).ledger)
  {
    TargetOf(s, key, r, requeue, expired, unsent);
    hide RegistryOk, RequeueMessage, FateOf, LinkedTo, Absent;
    match FateOf(s, key, r, requeue, expired, unsent)
    case Expires =>
    case Requeued => RequeueRest(s, r, r.msg in late);
    case Bounced(c) => RequeueRest(Deliver(s, c, r.msg, false), r, r.msg in late);
    case Redelivered(c) =>
  }

  lemma {:induction false} RecoverEachRest(s: VHost, key: ChannelKey, records: seq<Record>, requeue: bool,
                                           expired: set<Message>, unsent: set<Message>, late: set<Message>)
    requires RegistryOk(s.reg) && forall r | r in records :: Recoverable(s.queues, s.reg, key, r)
    ensures OnlyReturns(s.ledger, RecoverEach(s, key, records, requeue, expired, unsent, late).ledger)
    decreases |records|
  {
    hide RegistryOk, Recoverable, RecoverOne;
    if records != [] {
      assert records[0] in records;
      RecoverOneRest(s, key, records[0], requeue, expired, unsent, late);
      RecoverOneKeeps(s, key, records[0], requeue, expired, unsent, late);
      RootsKept(s, key, records, requeue, expired, unsent, late);
      RecoverEachRest(RecoverOne(s, key, records[0], requeue, expired, unsent, late), key, records[1..], requeue,
                      expired, unsent, late);
    }
  }

  /** The deliveries of deleted queues are gone, exactly; nothing is acked, rejected or purged. */
  lemma RecoverRest(s: VHost, key: ChannelKey, requeue: bool, popped: seq<Record>, dead: seq<Record>,
                    expired: set<Message>, unsent: set<Message>, late: set<Message>)
    requires Sound(s, multiset{}) && key in s.channels
    requires Lists(popped, s.channels[key], Requeueable(s.channels[key]))
             && Lists(dead, s.channels[key], DeadTags(s.channels[key]))
    ensures var s' := Recover(s, key, requeue, popped, dead, expired, unsent, late);
            var gone := s.ledger.gone + Sum(Only(s.channels[key].records, DeadTags(s.channels[key])), RecordMessage);
            OnlyReturns(s.ledger.(gone := gone), s'.ledger)
  {
    ListedMessages(dead, s.channels[key], DeadTags(s.channels[key]));
    hide BooksOk, Lists, RecoverEach, RecordMessage, MessagesOf;
    RecoverableRecords(s, key, popped);
    hide Recoverable;
    RecoverEachRest(Emptied(s, key, dead), key, popped, requeue, expired, unsent, late);
  }
}
