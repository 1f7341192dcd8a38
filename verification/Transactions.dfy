/**
 Transactions of one channel (tx.go and the buffering in basic.go): publishes and acknowledgements
 are buffered, a commit first asks whether every exchange exists and then replays the buffers, and
 the closing gate keeps a failed commit from being run again.
 */
module Transactions {
  import opened Collections
  import opened ChannelDelivery
  import opened VHostState
  import opened RegistryProofs
  import opened StructureProofs
  import opened ConservationProofs
  import opened HandlerProofs
  import opened DeliveryProofs
  import opened RecoverProofs
  import opened CloseProofs
  import opened VHostRuns
  import opened ReturnResults
  import opened TagProofs
  import opened CloseResults
  import opened QueueResults

  const MAX_BUFFER: nat := 10000

  /** serial tells the buffered operations of a channel apart; id is the message. */
  datatype BufferedPublish = BufferedPublish(serial: nat, id: nat, exchange: Name, routingKey: Name, mandatory: bool)

  datatype AckKind = PositiveAck | NegativeAck(requeue: bool) | Reject(requeue: bool)

  datatype BufferedAck = BufferedAck(serial: nat, kind: AckKind, tag: nat, multiple: bool)

  /** What HasRoutingForMessage says in the dry run. */
  datatype DryAnswer = NoExchange | NoRoute | Routed

  /** What happens to a publish when it is executed: no routing, an error of Publish, which then has
      pushed nothing, or the queues it is pushed to. */
  datatype LiveAnswer = Unroutable | PublishError | Reaches(targets: seq<Name>)

  /** How sending channel.close goes: the channel is marked closing and its deliveries are released, or it
      is gone already; and the frame is sent, or not. */
  datatype CloseAnswer = CloseSent | ChannelGone | SendFailed

  /** Where an ack's loops come across the records, and which of their messages have expired. */
  datatype AckOrder = AckOrder(popped: seq<Record>, expired: set<Message>)

  // ---------------------------------------------------------------- the operations outside a transaction

  /** A publish that is not buffered. */
  function PlainPublish(s: VHost, p: BufferedPublish, live: LiveAnswer): VHost {
    if live.Reaches? then Publish(s, live.targets, p.id) else s
  }

  function Multiple(a: BufferedAck): bool {
    !a.kind.Reject? && a.multiple
  }

  /** An ack, nack or reject that is not buffered. */
  function PlainAck(s: VHost, key: ChannelKey, a: BufferedAck, order: AckOrder): VHost {
    match a.kind
    case PositiveAck => Ack(s, key, a.tag, Multiple(a), order.popped)
    case NegativeAck(requeue) => Nack(s, key, a.tag, Multiple(a), requeue, order.popped, order.expired)
    case Reject(requeue) => Nack(s, key, a.tag, Multiple(a), requeue, order.popped, order.expired)
  }

  /** Its error: an unknown tag; a channel without delivery state has none, but an ack of everything is no
      error there. */
  predicate AckFails(s: VHost, key: ChannelKey, a: BufferedAck) {
    Settles(ChannelOf(s, key), a.tag, Multiple(a)) == None
  }

  // ---------------------------------------------------------------- what acks, nacks and rejects mean

  /** An ack, nack or reject names an outstanding delivery, or all of them. A reject is never for more than one. */
  predicate Known(ch: Channel, kind: AckKind, tag: nat, multiple: bool) {
    tag in ch.records || (multiple && !kind.Reject? && tag == 0)
  }

  function Named(ch: Channel, kind: AckKind, tag: nat, multiple: bool): set<nat> {
    set t | t in ch.records && (t == tag || (multiple && !kind.Reject? && (tag == 0 || t < tag)))
  }

  /** The queues and the ledger once the records are settled. An ack books their messages as acked, and leaves
      the queues. A nack or reject with requeue gives every queue the messages from it that have not expired,
      in the order of the records and marked; without requeue it leaves the queues, and rejects the messages
      of queues that are not deleted. */
  ghost predicate SettledAs(s: VHost, s': VHost, kind: AckKind, popped: seq<Record>, expired: set<Message>) {
    var back := !kind.PositiveAck? && kind.requeue;
    && s'.queues.Keys == s.queues.Keys
    && (forall n | n in s.queues ::
          s'.queues[n] == if back then Refilled(s.queues[n], BackTo(popped, n, expired)) else s.queues[n])
    && (if back then forall n, r | n in s.queues && r in popped && GoesBack(r, n, expired) :: r.msg.id in s'.redelivered
        else s'.redelivered == s.redelivered)
    && (if kind.PositiveAck? then s'.ledger == s.ledger.(acked := s.ledger.acked + MessagesOf(popped))
        else BookedAs(s.ledger, s'.ledger, back, popped, expired))
  }

  ghost predicate BookedAs(l: Ledger, l': Ledger, back: bool, popped: seq<Record>, expired: set<Message>) {
    && NackBooked(l, l')
    && l'.gone == l.gone + MessagesOf(DeadOnes(popped))
    && l'.rejected == l.rejected + (if back then multiset{} else MessagesOf(LiveOnes(popped)))
    && l'.expired == l.expired + (if back then MessagesOf(ExpiredOnes(popped, expired)) else multiset{})
    && (!back ==> forall r | r in popped && !r.queueDeleted :: (r.msg, r.msg.origin) in l'.deadLetters)
  }

  /** What one ack, nack or reject does to the host. */
  ghost predicate Effect(s: VHost, s': VHost, key: ChannelKey, kind: AckKind, tag: nat, multiple: bool,
                         order: AckOrder) {
    var ch := ChannelOf(s, key);
    if key !in s.channels || !Known(ch, kind, tag, multiple) then s' == s
    else
      && s'.reg == s.reg
      && s'.channels == s.channels[key := ch.(records := ch.records - Named(ch, kind, tag, multiple))]
      && SettledAs(s, s', kind, order.popped, order.expired)
  }

  lemma SettlesNamed(ch: Channel, kind: AckKind, tag: nat, multiple: bool)
    ensures Settles(ch, tag, multiple && !kind.Reject?)
            == if Known(ch, kind, tag, multiple) then Some(Named(ch, kind, tag, multiple)) else None
  {
    var many, named := multiple && !kind.Reject?, Named(ch, kind, tag, multiple);
    if many && tag == 0 {
      assert named == ch.records.Keys;
    } else if tag in ch.records {
      assert named == if many then set t | t in ch.records && t <= tag else {tag};
    }
  }

  lemma NackReturnsAll(s: VHost, records: seq<Record>, expired: set<Message>)
    requires LengthsOk(s) && forall r | r in records :: RootedTo(s.queues, r)
    ensures var s' := NackEach(s, records, true, expired);
            && (forall n | n in s.queues ::
                  n in s'.queues && s'.queues[n] == Refilled(s.queues[n], BackTo(records, n, expired)))
            && (forall n, r | n in s.queues && r in records && GoesBack(r, n, expired) :: r.msg.id in s'.redelivered)
  {
    var s' := NackEach(s, records, true, expired);
    assert forall r | r in records :: !r.queueDeleted ==> r.queue in s.queues;
    hide RootedTo, NackEach, LengthOk, Refilled, BackTo, GoesBack;
    forall n | n in s.queues
      ensures n in s'.queues && s'.queues[n] == Refilled(s.queues[n], BackTo(records, n, expired))
      ensures forall r | r in records && GoesBack(r, n, expired) :: r.msg.id in s'.redelivered
    {
      NackReturns(s, records, expired, n);
    }
  }

  lemma NackBooksAll(s: VHost, records: seq<Record>, requeue: bool, expired: set<Message>)
    requires forall r | r in records :: RootedTo(s.queues, r)
    ensures BookedAs(s.ledger, NackEach(s, records, requeue, expired).ledger, requeue, records, expired)
  {
    hide RootedTo, NackEach, NackBooked, MessagesOf, LiveOnes, DeadOnes, ExpiredOnes;
    NackBooks(s, records, requeue, expired);
    if !requeue { NackRejects(s, records, expired); }
    assert s.ledger.rejected + multiset{} == s.ledger.rejected && s.ledger.expired + multiset{} == s.ledger.expired;
  }

  lemma NackSettles(s: VHost, records: seq<Record>, kind: AckKind, expired: set<Message>)
    requires !kind.PositiveAck? && LengthsOk(s) && forall r | r in records :: RootedTo(s.queues, r)
    ensures var s' := NackEach(s, records, kind.requeue, expired);
            SettledAs(s, s', kind, records, expired) && s'.reg == s.reg && s'.channels == s.channels
  {
    hide RootedTo, NackEach, LengthsOk, Refilled, BackTo, GoesBack, BookedAs;
    NackBooksAll(s, records, kind.requeue, expired);
    NackEachChannels(s, records, kind.requeue, expired);
    NackFrame(s, records, kind.requeue, expired);
    if kind.requeue {
      NackReturnsAll(s, records, expired);
    } else {
      NackRejects(s, records, expired);
      NackKeepsMarks(s, records, expired);
    }
  }

  lemma NackOneFrame(s: VHost, r: Record, requeue: bool, expired: set<Message>)
    ensures var s' := NackOne(s, r, requeue, expired);
            && s'.reg == s.reg && s'.queues.Keys == s.queues.Keys && (!requeue ==> s'.redelivered == s.redelivered)
  {
    hide PushBack;
    if r.queue in s.queues {
      PushBackKeeps(s, r.queue, r.msg);
      PushBackReg(s, r.queue, r.msg);
    }
  }

  lemma PushBackReg(s: VHost, n: Name, m: Message)
    requires n in s.queues
    ensures PushBack(s, n, m).reg == s.reg
  {
    hide LettersOf, Excess;
  }

  lemma {:induction false} NackFrame(s: VHost, records: seq<Record>, requeue: bool, expired: set<Message>)
    ensures var s' := NackEach(s, records, requeue, expired); s'.reg == s.reg && s'.queues.Keys == s.queues.Keys
    decreases |records|
  {
    hide NackOne;
    if records != [] {
      NackOneFrame(s, records[0], requeue, expired);
      NackFrame(NackOne(s, records[0], requeue, expired), records[1..], requeue, expired);
    }
  }

  lemma {:induction false} NackKeepsMarks(s: VHost, records: seq<Record>, expired: set<Message>)
    ensures NackEach(s, records, false, expired).redelivered == s.redelivered
    decreases |records|
  {
    hide NackOne;
    if records != [] {
      NackOneFrame(s, records[0], false, expired);
      NackKeepsMarks(NackOne(s, records[0], false, expired), records[1..], expired);
    }
  }

  /** In any reachable state, whatever the loops come across: an unknown tag changes nothing, and otherwise
      exactly the named deliveries leave the channel and are settled as the request says. */
  lemma AckExactly(s: VHost, key: ChannelKey, a: BufferedAck, order: AckOrder)
    requires Sound(s, multiset{}) && Pops(s, key, a.tag, Multiple(a), order.popped)
    ensures Effect(s, PlainAck(s, key, a, order), key, a.kind, a.tag, a.multiple, order)
  {
    SettlesNamed(ChannelOf(s, key), a.kind, a.tag, a.multiple);
    hide Sound, Settles, Lists, Named, Known, SettledAs, NackEach;
    if key in s.channels && Known(s.channels[key], a.kind, a.tag, a.multiple) {
      var ch := s.channels[key];
      var s1 := s.(channels := s.channels[key := ch.(records := ch.records - Named(ch, a.kind, a.tag, a.multiple))]);
      if a.kind.PositiveAck? {
        AckSettles(s, s1, order);
      } else {
        NackReady(s, key, Named(ch, a.kind, a.tag, a.multiple), order.popped);
        NackSettles(s1, order.popped, a.kind, order.expired);
        SettledFrom(s, s1, NackEach(s1, order.popped, a.kind.requeue, order.expired), a.kind, order);
      }
    }
  }

  lemma AckSettles(s: VHost, s1: VHost, order: AckOrder)
    requires s1.queues == s.queues && s1.redelivered == s.redelivered && s1.ledger == s.ledger
    ensures SettledAs(s, s1.(ledger := s.ledger.(acked := s.ledger.acked + MessagesOf(order.popped))), PositiveAck,
                    order.popped, order.expired)
  {
  }

  lemma NackReady(s: VHost, key: ChannelKey, tags: set<nat>, popped: seq<Record>)
    requires Sound(s, multiset{}) && key in s.channels && Lists(popped, s.channels[key], tags)
    ensures LengthsOk(s) && forall r | r in popped :: RootedTo(s.queues, r)
  {
    hide BooksOk, RegistryOk, Linked, Bounded, ConsumersOk, Left, Lists;
    assert forall n | n in s.queues :: QueueOk(s.queues[n]);
    RootedRecords(s, key, tags, popped);
  }

  lemma SettledFrom(s: VHost, s1: VHost, s': VHost, kind: AckKind, order: AckOrder)
    requires s1.queues == s.queues && s1.redelivered == s.redelivered && s1.ledger == s.ledger
    requires SettledAs(s1, s', kind, order.popped, order.expired)
    ensures SettledAs(s, s', kind, order.popped, order.expired)
  {
  }

  // ---------------------------------------------------------------- replaying the buffers

  /** The buffered publishes, one after the other. */
  function ReplayPublishes(s: VHost, ps: seq<BufferedPublish>, live: seq<LiveAnswer>): VHost
    requires |live| == |ps|
    decreases |ps|
  {
    if ps == [] then s
    else PlainPublish(ReplayPublishes(s, ps[..|ps| - 1], live[..|ps| - 1]), ps[|ps| - 1], live[|ps| - 1])
  }

  /** The buffered acks, one after the other; an error does not stop the rest. */
  function ReplayAcks(s: VHost, key: ChannelKey, acks: seq<BufferedAck>, orders: seq<AckOrder>): VHost
    requires |orders| == |acks|
    decreases |acks|
  {
    if acks == [] then s
    else PlainAck(ReplayAcks(s, key, acks[..|acks| - 1], orders[..|acks| - 1]), key, acks[|acks| - 1],
                  orders[|acks| - 1])
  }

  /** A publish counts as failed if it is mandatory and cannot be routed, or if Publish fails. */
  predicate PublishFails(p: BufferedPublish, live: LiveAnswer) {
    live.PublishError? || (live.Unroutable? && p.mandatory)
  }

  ghost predicate SomePublishFails(ps: seq<BufferedPublish>, live: seq<LiveAnswer>)
    requires |live| == |ps|
  {
    exists i :: 0 <= i < |ps| && PublishFails(ps[i], live[i])
  }

  ghost predicate SomeAckFails(s: VHost, key: ChannelKey, acks: seq<BufferedAck>, orders: seq<AckOrder>)
    requires |orders| == |acks|
  {
    exists i :: 0 <= i < |acks| && AckFailsAt(s, key, acks, orders, i)
  }

  /** Ack i fails in the state that the acks before it leave. */
  ghost predicate AckFailsAt(s: VHost, key: ChannelKey, acks: seq<BufferedAck>, orders: seq<AckOrder>, i: nat)
    requires |orders| == |acks| && i < |acks|
  {
    AckFails(ReplayAcks(s, key, acks[..i], orders[..i]), key, acks[i])
  }

  /** The host once both buffers are replayed: publishes first. */
  function Replayed(s: VHost, key: ChannelKey, ps: seq<BufferedPublish>, live: seq<LiveAnswer>,
                    acks: seq<BufferedAck>, orders: seq<AckOrder>): VHost
    requires |live| == |ps| && |orders| == |acks|
  {
    ReplayAcks(ReplayPublishes(s, ps, live), key, acks, orders)
  }

  /** The host once channel.close has been sent after a failure. */
  function AfterFailure(s: VHost, key: ChannelKey, close: CloseAnswer, taking: Taking): VHost {
    if close.ChannelGone? then s else CloseChannel(s, key, taking)
  }

  function Serials(ps: seq<BufferedPublish>, acks: seq<BufferedAck>): seq<nat> {
    PublishSerials(ps) + AckSerials(acks)
  }

  function PublishSerials(ps: seq<BufferedPublish>): (r: seq<nat>)
    ensures |r| == |ps| && forall i | 0 <= i < |ps| :: r[i] == ps[i].serial
  {
    if ps == [] then [] else PublishSerials(ps[..|ps| - 1]) + [ps[|ps| - 1].serial]
  }

  function AckSerials(acks: seq<BufferedAck>): (r: seq<nat>)
    ensures |r| == |acks| && forall i | 0 <= i < |acks| :: r[i] == acks[i].serial
  {
    if acks == [] then [] else AckSerials(acks[..|acks| - 1]) + [acks[|acks| - 1].serial]
  }

  lemma NoDupJoin(a: seq<nat>, b: seq<nat>)
    requires NoDup(a) && NoDup(b) && forall x | x in a :: x !in b
    ensures NoDup(a + b)
  {
    forall i, j | 0 <= i < j < |a + b| ensures (a + b)[i] != (a + b)[j] {
      if i < |a| <= j { assert a[i] in a && b[j - |a|] in b; }
    }
  }

  // ---------------------------------------------------------------- the channel

  datatype Outcome = Ignored | NotInTransaction | SelectOk | Buffered | Executed | TooMany | DryRunFailed | CommitOk
                   | CommitFailed | RollbackOk

  class TxChannel {
    const key: ChannelKey
    var host: VHost
    var inTransaction: bool
    var publishes: seq<BufferedPublish>
    var acks: seq<BufferedAck>
    var closingChannel: bool
    var closingConnection: bool
    var nextSerial: nat
    /** The serials of the operations that a commit has executed, in order. */
    ghost var executed: seq<nat>

    /** Requests of a closing channel or connection are ignored, but for close and close-ok. */
    predicate Gated()
      reads this
    {
      closingChannel || closingConnection
    }

    ghost predicate Valid()
      reads this
    {
      && |publishes| <= MAX_BUFFER && |acks| <= MAX_BUFFER
      && (!inTransaction ==> publishes == [] && acks == [])
      && NoDup(Serials(publishes, acks)) && NoDup(executed)
      && (forall x | x in Serials(publishes, acks) || x in executed :: x < nextSerial)
      && (!Gated() ==> forall x | x in Serials(publishes, acks) :: x !in executed)
    }

    constructor (key: ChannelKey, host: VHost)
      ensures Valid() && !Gated() && !inTransaction && executed == [] && this.key == key && this.host == host
    {
      this.key, this.host := key, host;
      inTransaction, publishes, acks := false, [], [];
      closingChannel, closingConnection := false, false;
      nextSerial, executed := 0, [];
    }

    /** txSelectHandler. */
    method Select() returns (outcome: Outcome)
      requires Valid()
      modifies this
      ensures Valid() && host == old(host) && executed == old(executed)
      ensures outcome.Ignored? <==> old(Gated())
      ensures !outcome.Ignored? ==> inTransaction
      ensures old(inTransaction) ==> publishes == old(publishes) && acks == old(acks)
    {
      if Gated() { return Ignored; }
      if inTransaction { return SelectOk; }
      inTransaction := true;
      publishes, acks := [], [];
      outcome := SelectOk;
    }

    /** basicPublishHandler once the message is complete and its exchange exists: buffered in a transaction,
        published otherwise. */
    method PublishRequest(id: nat, exchange: Name, routingKey: Name, mandatory: bool, live: LiveAnswer)
      returns (outcome: Outcome)
      requires Valid()
      modifies this
      ensures Valid() && executed == old(executed) && acks == old(acks) && inTransaction == old(inTransaction)
      ensures outcome.Ignored? <==> old(Gated())
      ensures outcome.TooMany? <==> !old(Gated()) && inTransaction && |old(publishes)| == 10000
      ensures outcome.TooMany? ==> Gated()
      ensures outcome.Buffered? ==>
                && inTransaction && host == old(host)
                && publishes == old(publishes) + [BufferedPublish(old(nextSerial), id, exchange, routingKey, mandatory)]
      ensures outcome.Executed? ==>
                && !inTransaction && publishes == old(publishes)
                && host == PlainPublish(old(host),
                                        BufferedPublish(old(nextSerial), id, exchange, routingKey, mandatory), live)
      ensures outcome.Ignored? || outcome.TooMany? ==> host == old(host) && publishes == old(publishes)
    {
      if Gated() { return Ignored; }
      var p := BufferedPublish(nextSerial, id, exchange, routingKey, mandatory);
      if inTransaction {
        if |publishes| >= MAX_BUFFER {
          closingConnection := true;
          return TooMany;
        }
        AddPublish(publishes, acks, p);
        publishes := publishes + [p];
        nextSerial := nextSerial + 1;
        return Buffered;
      }
      host := PlainPublish(host, p, live);
      outcome := Executed;
    }

    static lemma AddPublish(ps: seq<BufferedPublish>, acks: seq<BufferedAck>, p: BufferedPublish)
      requires NoDup(Serials(ps, acks)) && p.serial !in Serials(ps, acks)
      ensures NoDup(Serials(ps + [p], acks))
      ensures forall x | x in Serials(ps + [p], acks) :: x == p.serial || x in Serials(ps, acks)
    {
      var a, b := PublishSerials(ps), AckSerials(acks);
      assert (ps + [p])[..|ps|] == ps;
      assert PublishSerials(ps + [p]) == a + [p.serial];
      forall i, j | 0 <= i < j < |a| ensures a[i] != a[j] { assert (a + b)[i] == a[i] && (a + b)[j] == a[j]; }
      forall i, j | 0 <= i < j < |b| ensures b[i] != b[j] {
        assert (a + b)[|a| + i] == b[i] && (a + b)[|a| + j] == b[j];
      }
      forall x | x in a + [p.serial] ensures x !in b {
        if x in a {
          var i :| 0 <= i < |a| && a[i] == x;
          forall j | 0 <= j < |b| ensures b[j] != x { assert (a + b)[i] == x && (a + b)[|a| + j] == b[j]; }
        } else {
          forall j | 0 <= j < |b| ensures b[j] != x { assert (a + b)[|a| + j] == b[j]; }
        }
      }
      assert NoDup(a + [p.serial]) by {
        forall i | 0 <= i < |a| ensures a[i] != p.serial { assert (a + b)[i] == a[i]; }
      }
      NoDupJoin(a + [p.serial], b);
    }

    /** basic.ack, nack or reject: buffered in a transaction, executed otherwise. */
    method AckRequest(kind: AckKind, tag: nat, multiple: bool, order: AckOrder) returns (outcome: Outcome)
      requires Valid()
      modifies this
      ensures Valid() && executed == old(executed) && publishes == old(publishes) && inTransaction == old(inTransaction)
      ensures outcome.Ignored? <==> old(Gated())
      ensures outcome.TooMany? <==> !old(Gated()) && inTransaction && |old(acks)| == 10000
      ensures outcome.TooMany? ==> Gated()
      ensures outcome.Buffered? ==>
                && inTransaction && host == old(host)
                && acks == old(acks) + [BufferedAck(old(nextSerial), kind, tag, multiple)]
      ensures outcome.Executed? ==>
                && !inTransaction && acks == old(acks)
                && host == PlainAck(old(host), key, BufferedAck(old(nextSerial), kind, tag, multiple), order)
                && (Sound(old(host), multiset{})
                    && Pops(old(host), key, tag, multiple && !kind.Reject?, order.popped) ==>
                    Effect(old(host), host, key, kind, tag, multiple, order))
      ensures outcome.Ignored? || outcome.TooMany? ==> host == old(host) && acks == old(acks)
    {
      hide Sound, Pops, Effect, PlainAck, Serials, NoDup;
      if Gated() { return Ignored; }
      var a := BufferedAck(nextSerial, kind, tag, multiple);
      if inTransaction {
        if |acks| >= MAX_BUFFER {
          closingConnection := true;
          return TooMany;
        }
        AddAck(publishes, acks, a);
        acks := acks + [a];
        nextSerial := nextSerial + 1;
        return Buffered;
      }
      if Sound(host, multiset{}) && Pops(host, key, tag, Multiple(a), order.popped) { AckExactly(host, key, a, order); }
      host := PlainAck(host, key, a, order);
      outcome := Executed;
    }

    static lemma AddAck(ps: seq<BufferedPublish>, acks: seq<BufferedAck>, a: BufferedAck)
      requires NoDup(Serials(ps, acks)) && a.serial !in Serials(ps, acks)
      ensures NoDup(Serials(ps, acks + [a]))
      ensures forall x | x in Serials(ps, acks + [a]) :: x == a.serial || x in Serials(ps, acks)
    {
      assert (acks + [a])[..|acks|] == acks;
      assert Serials(ps, acks + [a]) == Serials(ps, acks) + [a.serial];
    }

    /** The dry run. */
    method DryRun(dry: seq<DryAnswer>) returns (errors: nat)
      requires |dry| == |publishes|
      ensures errors > 0 <==> exists i :: 0 <= i < |dry| && dry[i].NoExchange?
    {
      errors := 0;
      for i := 0 to |publishes|
        invariant errors > 0 <==> exists j :: 0 <= j < i && dry[j].NoExchange?
      {
        if dry[i].NoExchange? { errors := errors + 1; }
      }
    }

    method ExecutePublishes(live: seq<LiveAnswer>) returns (errors: nat)
      requires |live| == |publishes|
      modifies this`host
      ensures host == ReplayPublishes(old(host), publishes, live)
      ensures errors > 0 <==> SomePublishFails(publishes, live)
    {
      errors := 0;
      for i := 0 to |publishes|
        invariant host == ReplayPublishes(old(host), publishes[..i], live[..i])
        invariant errors > 0 <==> exists j :: 0 <= j < i && PublishFails(publishes[j], live[j])
      {
        var p := publishes[i];
        assert publishes[..i + 1][..i] == publishes[..i] && live[..i + 1][..i] == live[..i];
        if live[i].Unroutable? {
          // a mandatory message is returned, another one dropped; the channel's publish state is reset
          if p.mandatory { errors := errors + 1; }
        } else if live[i].PublishError? {
          errors := errors + 1;
        } else {
          host := Publish(host, live[i].targets, p.id);
        }
      }
      assert publishes[..|publishes|] == publishes && live[..|publishes|] == live;
    }

    static lemma NoAcks(s: VHost, key: ChannelKey)
      ensures ReplayAcks(s, key, [], []) == s
    {
    }

    static lemma AckStep(s: VHost, key: ChannelKey, acks: seq<BufferedAck>, orders: seq<AckOrder>, i: nat)
      requires |orders| == |acks| && i < |acks|
      ensures ReplayAcks(s, key, acks[..i + 1], orders[..i + 1])
              == PlainAck(ReplayAcks(s, key, acks[..i], orders[..i]), key, acks[i], orders[i])
      ensures AckFailsAt(s, key, acks, orders, i) == AckFails(ReplayAcks(s, key, acks[..i], orders[..i]), key, acks[i])
    {
      hide PlainAck, AckFails;
      assert acks[..i + 1][..i] == acks[..i] && orders[..i + 1][..i] == orders[..i];
    }

    method ExecuteAcks(orders: seq<AckOrder>) returns (errors: nat)
      requires |orders| == |acks|
      modifies this`host
      ensures host == ReplayAcks(old(host), key, acks, orders)
      ensures errors > 0 <==> SomeAckFails(old(host), key, acks, orders)
    {
      hide PlainAck, AckFails, AckFailsAt, ReplayAcks;
      NoAcks(host, key);
      assert acks[..0] == [] && orders[..0] == [];
      errors := 0;
      for i := 0 to |acks|
        invariant host == ReplayAcks(old(host), key, acks[..i], orders[..i])
        invariant errors > 0 <==> exists j :: 0 <= j < i && AckFailsAt(old(host), key, acks, orders, j)
      {
        AckStep(old(host), key, acks, orders, i);
        if AckFails(host, key, acks[i]) { errors := errors + 1; }
        host := PlainAck(host, key, acks[i], orders[i]);
      }
      assert acks[..|acks|] == acks && orders[..|acks|] == orders;
    }

    /** The execution of a commit: publishes, then acks. Every operation of the buffers is executed. */
    method ExecuteBuffers(live: seq<LiveAnswer>, orders: seq<AckOrder>) returns (failed: bool)
      requires Valid() && !Gated() && |live| == |publishes| && |orders| == |acks|
      modifies this`host, this`executed
      ensures host == ReplayAcks(ReplayPublishes(old(host), publishes, live), key, acks, orders)
      ensures executed == old(executed) + Serials(publishes, acks) && NoDup(executed)
      ensures failed <==>
                SomePublishFails(publishes, live)
                || SomeAckFails(ReplayPublishes(old(host), publishes, live), key, acks, orders)
    {
      NoDupJoin(executed, Serials(publishes, acks));
      hide ReplayPublishes, ReplayAcks, SomePublishFails, SomeAckFails, Serials;
      var publishErrors := ExecutePublishes(live);
      var ackErrors := ExecuteAcks(orders);
      executed := executed + Serials(publishes, acks);
      failed := publishErrors > 0 || ackErrors > 0;
    }

    /** sendChannelErrorResponse: the channel is marked closing and its deliveries are released before
        channel.close is written; an error of it closes the connection. */
    method SendChannelError(close: CloseAnswer, taking: Taking)
      modifies this`host, this`closingChannel, this`closingConnection
      ensures host == AfterFailure(old(host), key, close, taking)
      ensures host == if close.ChannelGone? then old(host) else CloseChannel(old(host), key, taking)
      ensures closingChannel == (old(closingChannel) || !close.ChannelGone?)
      ensures closingConnection == (old(closingConnection) || !close.CloseSent?)
    {
      hide CloseChannel;
      if close.ChannelGone? {
        closingConnection := true;
        return;
      }
      closingChannel := true;
      host := CloseChannel(host, key, taking);
      if close.SendFailed? { closingConnection := true; }
    }

    /** txCommitHandler. dry, live, orders and taking are what the host answers in the order it is asked. */
    method Commit(dry: seq<DryAnswer>, live: seq<LiveAnswer>, orders: seq<AckOrder>, close: CloseAnswer,
                  taking: Taking) returns (outcome: Outcome)
      requires Valid() && |dry| == |publishes| && |live| == |publishes| && |orders| == |acks|
      modifies this
      ensures Valid()
      ensures outcome.Ignored? <==> old(Gated())
      ensures outcome.NotInTransaction? <==> !old(Gated()) && !old(inTransaction)
      // a missing exchange in the dry run: nothing is executed and the buffers are dropped
      ensures outcome.DryRunFailed? <==>
                !old(Gated()) && old(inTransaction) && exists i :: 0 <= i < |dry| && dry[i].NoExchange?
      ensures outcome.Ignored? || outcome.NotInTransaction? || outcome.DryRunFailed? ==>
                host == old(host) && executed == old(executed)
      // otherwise: the routable publishes and then the acks, in the order they were buffered, each once;
      // and after a failure the channel's deliveries are released
      ensures outcome.CommitOk? || outcome.CommitFailed? ==>
                && executed == old(executed) + old(Serials(publishes, acks))
                && var s := ReplayAcks(ReplayPublishes(old(host), old(publishes), live), key, old(acks), orders);
                   host == if outcome.CommitOk? then s else AfterFailure(s, key, close, taking)
      // it fails if a publish does, or a mandatory one cannot be routed, or an ack names nothing outstanding in
      // the state it is executed in
      ensures outcome.CommitOk? || outcome.CommitFailed? ==>
                (outcome.CommitFailed? <==>
                 || (exists i :: 0 <= i < |live| && (live[i].PublishError?
                                                     || (live[i].Unroutable? && old(publishes)[i].mandatory)))
                 || SomeAckFails(ReplayPublishes(old(host), old(publishes), live), key, old(acks), orders))
      ensures outcome.CommitOk? ==> publishes == [] && acks == [] && !Gated()
      // a commit of one ack does what the ack does outside a transaction
      ensures outcome.CommitOk? && old(publishes) == [] && |old(acks)| == 1 && Sound(old(host), multiset{})
              && Pops(old(host), key, old(acks)[0].tag, Multiple(old(acks)[0]), orders[0].popped) ==>
                Effect(old(host), host, key, old(acks)[0].kind, old(acks)[0].tag, old(acks)[0].multiple, orders[0])
      // after a failure the gate is shut
      ensures outcome.CommitFailed? || outcome.DryRunFailed? || outcome.NotInTransaction? ==> Gated()
    {
      hide ReplayPublishes, ReplayAcks, SomeAckFails, NoDup, Serials, AfterFailure, Sound, Effect, Pops;
      NoSerials();
      if publishes == [] && |acks| == 1 && Sound(host, multiset{})
         && Pops(host, key, acks[0].tag, Multiple(acks[0]), orders[0].popped) {
        OneAck(host, key, acks[0], orders[0]);
        assert acks == [acks[0]] && orders == [orders[0]] && live == [];
      }
      if Gated() { return Ignored; }
      if !inTransaction {
        closingConnection := true;
        return NotInTransaction;
      }
      var dryErrors := DryRun(dry);
      if dryErrors > 0 {
        publishes, acks := [], [];
        closingConnection := true;
        return DryRunFailed;
      }
      var failed := ExecuteBuffers(live, orders);
      if failed {
        SendChannelError(close, taking);
        return CommitFailed;
      }
      publishes, acks := [], [];
      outcome := CommitOk;
    }

    static lemma NoSerials()
      ensures Serials([], []) == [] && NoDup(Serials([], [])) && NoDup<nat>([])
    {
    }

    /** txRollbackHandler. */
    method Rollback() returns (outcome: Outcome)
      requires Valid()
      modifies this
      ensures Valid() && host == old(host) && executed == old(executed)
      ensures outcome.Ignored? <==> old(Gated())
      ensures outcome.RollbackOk? <==> !old(Gated()) && old(inTransaction)
      ensures outcome.RollbackOk? ==> publishes == [] && acks == [] && inTransaction
      ensures outcome.NotInTransaction? ==> Gated()
    {
      if Gated() { return Ignored; }
      if !inTransaction {
        closingConnection := true;
        return NotInTransaction;
      }
      publishes, acks := [], [];
      outcome := RollbackOk;
    }

    /** The transaction part of CleanupChannel, on close or close-ok: an implicit rollback. The channel
        number starts clean if it is opened again. */
    method Cleanup()
      requires Valid()
      modifies this
      ensures Valid() && host == old(host) && executed == old(executed)
      ensures !inTransaction && publishes == [] && acks == [] && !closingChannel
    {
      publishes, acks := [], [];
      inTransaction := false;
      closingChannel := false;
    }
  }

  // ---------------------------------------------------------------- what a commit means for the host

  lemma OneAck(s: VHost, key: ChannelKey, a: BufferedAck, order: AckOrder)
    requires Sound(s, multiset{}) && Pops(s, key, a.tag, Multiple(a), order.popped)
    ensures Effect(s, ReplayAcks(ReplayPublishes(s, [], []), key, [a], [order]), key, a.kind, a.tag, a.multiple, order)
  {
    hide Sound, Pops, Effect, PlainAck;
    AckExactly(s, key, a, order);
    assert [a][..0] == [] && [order][..0] == [];
    TxChannel.NoAcks(s, key);
  }

  /** An ack fails in a commit exactly if, once those before it are executed, it names nothing outstanding. */
  lemma AckFailsExactly(s: VHost, key: ChannelKey, acks: seq<BufferedAck>, orders: seq<AckOrder>, i: nat)
    requires |orders| == |acks| && i < |acks|
    ensures AckFailsAt(s, key, acks, orders, i) <==>
            !Known(ChannelOf(ReplayAcks(s, key, acks[..i], orders[..i]), key), acks[i].kind, acks[i].tag,
                   acks[i].multiple)
  {
    hide ReplayAcks;
    SettlesNamed(ChannelOf(ReplayAcks(s, key, acks[..i], orders[..i]), key), acks[i].kind, acks[i].tag,
                 acks[i].multiple);
    hide Settles, Known, Named;
  }

  /** Each ack of a commit does, in the state that those before it leave, what it does outside a transaction. */
  lemma CommitEffects(s: VHost, key: ChannelKey, acks: seq<BufferedAck>, orders: seq<AckOrder>, i: nat)
    requires |orders| == |acks| && i < |acks| && Sound(s, multiset{}) && OrdersOk(s, key, acks, orders)
    ensures Effect(ReplayAcks(s, key, acks[..i], orders[..i]), ReplayAcks(s, key, acks[..i + 1], orders[..i + 1]),
                   key, acks[i].kind, acks[i].tag, acks[i].multiple, orders[i])
  {
    hide Sound, Pops, Effect, PlainAck, ReplayAcks;
    forall j | 0 <= j < i
      ensures Pops(ReplayAcks(s, key, acks[..i][..j], orders[..i][..j]), key, acks[..i][j].tag,
                   Multiple(acks[..i][j]), orders[..i][j].popped)
    {
      assert acks[..i][..j] == acks[..j] && orders[..i][..j] == orders[..j];
    }
    ReplayAcksSound(s, key, acks[..i], orders[..i]);
    TxChannel.AckStep(s, key, acks, orders, i);
    AckExactly(ReplayAcks(s, key, acks[..i], orders[..i]), key, acks[i], orders[i]);
  }

  /** The copies that the publishes of a commit give to a queue: of each that is routed to it, in their order. */
  function CommitCopies(s: VHost, ps: seq<BufferedPublish>, live: seq<LiveAnswer>, n: Name, gen: nat): seq<Message>
    requires |live| == |ps|
    decreases |ps|
  {
    if ps == [] then []
    else
      var k := |ps| - 1;
      CommitCopies(s, ps[..k], live[..k], n, gen)
      + (if live[k].Reaches? then Copies(s.queues.Keys, live[k].targets, n, ps[k].id, gen,
                                         ReplayPublishes(s, ps[..k], live[..k]).nextCopy) else [])
  }

  lemma {:induction false} CommitPublishes(s: VHost, ps: seq<BufferedPublish>, live: seq<LiveAnswer>, n: Name)
    requires |live| == |ps| && n in s.queues && LengthsOk(s)
    ensures var s' := ReplayPublishes(s, ps, live);
            && s'.queues.Keys == s.queues.Keys && s'.channels == s.channels && s'.redelivered == s.redelivered
            && s'.queues[n] == Refilled(s.queues[n], CommitCopies(s, ps, live, n, s.queues[n].gen))
            && LengthsOk(s')
    decreases |ps|
  {
    hide Publish, Refilled, LengthsOk;
    if ps == [] {
      NoPublishes(s, n);
    } else {
      var k := |ps| - 1;
      var s1 := ReplayPublishes(s, ps[..k], live[..k]);
      CommitPublishes(s, ps[..k], live[..k], n);
      var before := CommitCopies(s, ps[..k], live[..k], n, s.queues[n].gen);
      RefilledGen(s.queues[n], before);
      if live[k].Reaches? {
        PublishAll(s1, live[k].targets, ps[k].id, n);
        RefilledTwice(s.queues[n], before,
                      Copies(s.queues.Keys, live[k].targets, n, ps[k].id, s.queues[n].gen, s1.nextCopy));
      } else {
        assert before + [] == before;
      }
    }
  }

  lemma NoPublishes(s: VHost, n: Name)
    requires n in s.queues && LengthsOk(s)
    ensures Refilled(s.queues[n], CommitCopies(s, [], [], n, s.queues[n].gen)) == s.queues[n]
  {
    RefillNone(s.queues[n]);
  }

  lemma RefilledGen(q: Queue, ms: seq<Message>)
    ensures Refilled(q, ms).gen == q.gen
  {
  }

  lemma PublishAll(s: VHost, targets: seq<Name>, id: nat, n: Name)
    requires n in s.queues && LengthsOk(s)
    ensures var s' := Publish(s, targets, id);
            && s'.queues.Keys == s.queues.Keys && s'.channels == s.channels && s'.redelivered == s.redelivered
            && s'.queues[n]
               == Refilled(s.queues[n], Copies(s.queues.Keys, targets, n, id, s.queues[n].gen, s.nextCopy))
            && LengthsOk(s')
  {
    hide Publish, Refilled;
    PublishKeys(s, targets, id);
    PublishExactly(s, targets, id, n);
    forall m | m in s.queues ensures LengthOk(Publish(s, targets, id).queues[m]) {
      PublishExactly(s, targets, id, m);
      RefilledLength(s.queues[m], Copies(s.queues.Keys, targets, m, id, s.queues[m].gen, s.nextCopy));
    }
  }

  lemma RefilledLength(q: Queue, ms: seq<Message>)
    requires LengthOk(q)
    ensures LengthOk(Refilled(q, ms))
  {
  }

  lemma {:induction false} PublishKeys(s: VHost, targets: seq<Name>, id: nat)
    ensures Publish(s, targets, id).queues.Keys == s.queues.Keys
    decreases |targets|
  {
    hide Push;
    if targets != [] {
      if targets[0] !in s.queues {
        PublishKeys(s, targets[1..], id);
      } else {
        var m := Message(id, s.nextCopy, s.queues[targets[0]].gen);
        var s1 := s.(nextCopy := s.nextCopy + 1, ledger := s.ledger.(published := s.ledger.published + multiset{m}));
        PushMarks(s1, targets[0], m);
        PublishKeys(Push(s1, targets[0], m), targets[1..], id);
      }
    }
  }

  /** The orders are ones that the acks can come across, each in the state it is executed in. */
  ghost predicate OrdersOk(s: VHost, key: ChannelKey, acks: seq<BufferedAck>, orders: seq<AckOrder>)
    requires |orders| == |acks|
  {
    forall i | 0 <= i < |acks| ::
        Pops(ReplayAcks(s, key, acks[..i], orders[..i]), key, acks[i].tag, Multiple(acks[i]), orders[i].popped)
  }

  lemma {:induction false} ReplayPublishesSound(s: VHost, ps: seq<BufferedPublish>, live: seq<LiveAnswer>)
    requires |live| == |ps| && Sound(s, multiset{})
    ensures Sound(ReplayPublishes(s, ps, live), multiset{})
    decreases |ps|
  {
    hide Sound, Publish;
    if ps != [] {
      var n := |ps| - 1;
      ReplayPublishesSound(s, ps[..n], live[..n]);
      if live[n].Reaches? { PublishSound(ReplayPublishes(s, ps[..n], live[..n]), live[n].targets, ps[n].id); }
    }
  }

  lemma PlainAckSound(s: VHost, key: ChannelKey, a: BufferedAck, order: AckOrder)
    requires Sound(s, multiset{}) && Pops(s, key, a.tag, Multiple(a), order.popped)
    ensures Sound(PlainAck(s, key, a, order), multiset{})
  {
    hide Sound, Ack, Nack;
    match a.kind
    case PositiveAck => SettleOpSound(s, AckOp(key, a.tag, Multiple(a), order.popped));
    case NegativeAck(requeue) =>
      SettleOpSound(s, NackOp(key, a.tag, Multiple(a), requeue, order.popped, order.expired));
    case Reject(requeue) => SettleOpSound(s, NackOp(key, a.tag, Multiple(a), requeue, order.popped, order.expired));
  }

  lemma {:induction false} ReplayAcksSound(s: VHost, key: ChannelKey, acks: seq<BufferedAck>, orders: seq<AckOrder>)
    requires |orders| == |acks| && Sound(s, multiset{}) && OrdersOk(s, key, acks, orders)
    ensures Sound(ReplayAcks(s, key, acks, orders), multiset{})
    decreases |acks|
  {
    hide Sound, PlainAck, Pops;
    if acks != [] {
      var n := |acks| - 1;
      forall i | 0 <= i < n
        ensures Pops(ReplayAcks(s, key, acks[..n][..i], orders[..n][..i]), key, acks[..n][i].tag,
                     Multiple(acks[..n][i]), orders[..n][i].popped)
      {
        assert acks[..n][..i] == acks[..i] && orders[..n][..i] == orders[..i];
      }
      ReplayAcksSound(s, key, acks[..n], orders[..n]);
      PlainAckSound(ReplayAcks(s, key, acks[..n], orders[..n]), key, acks[n], orders[n]);
    }
  }

  /** A commit keeps the invariant of the host, and with it the account of messages: what it executes is
      what its operations would do outside a transaction. */
  lemma CommitSound(s: VHost, key: ChannelKey, ps: seq<BufferedPublish>, live: seq<LiveAnswer>,
                    acks: seq<BufferedAck>, orders: seq<AckOrder>)
    requires |live| == |ps| && |orders| == |acks| && Sound(s, multiset{})
    requires OrdersOk(ReplayPublishes(s, ps, live), key, acks, orders)
    ensures Sound(Replayed(s, key, ps, live, acks, orders), multiset{})
  {
    hide Sound, OrdersOk;
    ReplayPublishesSound(s, ps, live);
    ReplayAcksSound(ReplayPublishes(s, ps, live), key, acks, orders);
  }

  /** Releasing the channel's deliveries after a failed commit keeps the invariant too, and leaves the
      channel neither delivery state nor consumers. */
  lemma FailedCommitSound(s: VHost, key: ChannelKey, ps: seq<BufferedPublish>, live: seq<LiveAnswer>,
                          acks: seq<BufferedAck>, orders: seq<AckOrder>, close: CloseAnswer, taking: Taking)
    requires |live| == |ps| && |orders| == |acks| && Sound(s, multiset{})
    requires OrdersOk(ReplayPublishes(s, ps, live), key, acks, orders)
    requires Allowed(Replayed(s, key, ps, live, acks, orders), CloseChannelOp(key, taking))
    ensures var s' := AfterFailure(Replayed(s, key, ps, live, acks, orders), key, close, taking);
            && Sound(s', multiset{})
            && (!close.ChannelGone? ==> key !in s'.channels && forall c | c in Members(s'.reg) :: HomeOf(c) != key)
  {
    CommitSound(s, key, ps, live, acks, orders);
    CloseChannelSound(Replayed(s, key, ps, live, acks, orders), key, taking);
    hide Sound, Replayed, CloseChannel;
  }
}
