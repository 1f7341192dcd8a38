/**
 One virtual host as a state machine: every handler of consumer.go, delivery.go, ack.go and
 recover.go is one step. What the Go code leaves open (map iteration order, whether a message
 has expired, whether a frame was written) is a parameter of the step.
 */
module VHostState {
  import opened Collections
  import opened ChannelDelivery

  datatype ChannelKey = ChannelKey(conn: Name, channel: nat)

  /** Consumer keys do not name the connection. */
  datatype ConsumerKey = ConsumerKey(channel: nat, tag: Name)

  /** id stands for the identity of the consumer object. */
  datatype Consumer = Consumer(id: nat, tag: Name, channel: nat, queue: Name, conn: Name,
                               prefetch: nat, noAck: bool, exclusive: bool)
  {
    function Key(): ConsumerKey { ConsumerKey(channel, tag) }
  }

  function HomeOf(c: Consumer): ChannelKey { ChannelKey(c.conn, c.channel) }

  function QueueOf(c: Consumer): Name { c.queue }

  /** gen stands for the identity of the queue object; maxLength is x-max-length, 0 for none; hand is
      the message its delivery loop has taken and neither delivered nor put back. */
  datatype Queue = Queue(gen: nat, autoDelete: bool, exclusive: bool, owner: Option<Name>, capacity: nat,
                         maxLength: nat,
                         ready: seq<Message>, hand: Option<Message>)

  datatype Registry = Registry(consumers: map<ConsumerKey, Consumer>, active: set<nat>,
                               byQueue: map<Name, seq<Consumer>>, byChannel: map<ChannelKey, seq<Consumer>>)

  /** Where messages that left the queues and the channels went. lost takes what a handler drops
      because the queue of a live delivery is missing; deadLetters pairs each message handed to
      the dead-letter path with the generation of the queue it was handed to. duplicated takes what was
      settled and yet put back, so that it is there once more than it was published. */
  datatype Ledger = Ledger(published: multiset<Message>, acked: multiset<Message>, autoAcked: multiset<Message>,
                           expired: multiset<Message>, rejected: multiset<Message>, gone: multiset<Message>,
                           overflow: multiset<Message>, evicted: multiset<Message>, purged: multiset<Message>,
                           lost: multiset<Message>, duplicated: multiset<Message>, deadLetters: set<(Message, nat)>)

  datatype VHost = VHost(queues: map<Name, Queue>, reg: Registry, channels: map<ChannelKey, Channel>,
                         redelivered: set<nat>, ledger: Ledger, nextGen: nat, nextConsumer: nat, nextCopy: nat)

  const EMPTY_LEDGER := Ledger(multiset{}, multiset{}, multiset{}, multiset{}, multiset{}, multiset{}, multiset{},
                               multiset{},
                               multiset{}, multiset{}, multiset{}, {})
  const INIT := VHost(map[], Registry(map[], {}, map[], map[]), map[], {}, EMPTY_LEDGER, 0, 0, 0)

  // ---------------------------------------------------------------- queues

  /** A queue holds what its buffer takes and its length allows. */
  predicate LengthOk(q: Queue) {
    |q.ready| <= q.capacity && (q.maxLength > 0 ==> |q.ready| <= q.maxLength)
  }

  /** How many messages a queue loses so that one more keeps its length. */
  function Excess(q: Queue): (n: nat)
    ensures n <= |q.ready|
  {
    if q.maxLength == 0 || |q.ready| < q.maxLength then 0 else |q.ready| - q.maxLength + 1
  }

  /** EnforceMaxLength: the oldest messages are handed to the dead-letter path. */
  function Evict(s: VHost, queue: Name): VHost
    requires queue in s.queues
  {
    var q := s.queues[queue];
    var n := Excess(q);
    if n == 0 then s
    else s.(queues := s.queues[queue := q.(ready := q.ready[n..])],
            ledger := s.ledger.(evicted := s.ledger.evicted + multiset(q.ready[..n]),
                                deadLetters := s.ledger.deadLetters + LettersOf(q.ready[..n], q.gen)))
  }

  function LettersOf(ms: seq<Message>, gen: nat): set<(Message, nat)> {
    set m | m in ms :: (m, gen)
  }

  /** Appended, or dropped when the queue's buffer is full. */
  function Append(s: VHost, queue: Name, m: Message): VHost
    requires queue in s.queues
  {
    var q := s.queues[queue];
    if |q.ready| < q.capacity then s.(queues := s.queues[queue := q.(ready := q.ready + [m])])
    else s.(ledger := s.ledger.(overflow := s.ledger.overflow + multiset{m}))
  }

  /** Queue.Push. */
  function Push(s: VHost, queue: Name, m: Message): VHost
    requires queue in s.queues
  {
    Append(Evict(s, queue), queue, m)
  }

  /** A message goes back marked, so that its next delivery says redelivered. */
  function PushBack(s: VHost, queue: Name, m: Message): VHost
    requires queue in s.queues
  {
    Push(s.(redelivered := s.redelivered + {m.id}), queue, m)
  }

  function Expire(s: VHost, queue: Name, m: Message): VHost
    requires queue in s.queues
  {
    s.(ledger := s.ledger.(expired := s.ledger.expired + multiset{m},
                           deadLetters := s.ledger.deadLetters + {(m, s.queues[queue].gen)}))
  }

  function DeclareQueue(s: VHost, name: Name, conn: Name, autoDelete: bool, exclusive: bool, capacity: nat,
                        maxLength: nat): VHost {
    if name in s.queues then s
    else
      var q := Queue(s.nextGen, autoDelete, exclusive, if exclusive then Some(conn)
                     else None, capacity, maxLength, [], None);
      s.(queues := s.queues[name := q], nextGen := s.nextGen + 1)
  }

  /** One message of StreamPurge. */
  function PurgeHead(s: VHost, queue: Name, expired: set<Message>): VHost
    requires queue in s.queues && s.queues[queue].ready != []
  {
    var q := s.queues[queue];
    var m := q.ready[0];
    var s' := s.(queues := s.queues[queue := q.(ready := q.ready[1..])]);
    if m in expired then Expire(s', queue, m) else s'.(ledger := s.ledger.(purged := s.ledger.purged + multiset{m}))
  }

  function PurgeAll(s: VHost, queue: Name, expired: set<Message>): VHost
    requires queue in s.queues
    decreases |s.queues[queue].ready|
  {
    if s.queues[queue].ready == [] then s else PurgeAll(PurgeHead(s, queue, expired), queue, expired)
  }

  /** PurgeQueue; a missing queue and one of another connection are errors. */
  function Purge(s: VHost, queue: Name, conn: Name, expired: set<Message>): VHost {
    if queue !in s.queues || !OwnedBy(s.queues[queue], conn) then s else PurgeAll(s, queue, expired)
  }

  /** The copies of one published message, pushed to the queues it was routed to. */
  function Publish(s: VHost, targets: seq<Name>, id: nat): VHost
    decreases |targets|
  {
    if targets == [] then s
    else if targets[0] !in s.queues then Publish(s, targets[1..], id)
    else
      var m := Message(id, s.nextCopy, s.queues[targets[0]].gen);
      var s' := s.(nextCopy := s.nextCopy + 1, ledger := s.ledger.(published := s.ledger.published + multiset{m}));
      Publish(Push(s', targets[0], m), targets[1..], id)
  }

  // ---------------------------------------------------------------- consumers

  /** One turn of the loop of removeQueueConsumersLocked. */
  function DropConsumer(reg: Registry, c: Consumer): Registry {
    reg.(active := reg.active - {c.id},
         consumers := if c.Key() in reg.consumers && reg.consumers[c.Key()] == c then reg.consumers - {c.Key()}
           else reg.consumers,
         byChannel := RemoveFrom(reg.byChannel, HomeOf(c), c))
  }

  function DropConsumers(reg: Registry, cs: seq<Consumer>): Registry
    decreases |cs|
  {
    if cs == [] then reg else DropConsumers(DropConsumer(reg, cs[0]), cs[1..])
  }

  /** removeQueueConsumersLocked. */
  function RemoveQueueConsumers(reg: Registry, queue: Name): Registry {
    var reg' := DropConsumers(reg, Get(reg.byQueue, queue));
    reg'.(byQueue := reg'.byQueue - {queue})
  }

  function Held(q: Queue): seq<Message> {
    q.ready + if q.hand.Some? then [q.hand.value] else []
  }

  /** deleteQueuebyNameUnlocked. */
  function DeleteQueue(s: VHost, queue: Name): VHost
    requires queue in s.queues
  {
    s.(queues := s.queues - {queue},
       ledger := s.ledger.(gone := s.ledger.gone + multiset(Held(s.queues[queue]))),
       reg := RemoveQueueConsumers(s.reg, queue),
       channels := DetachFromAll(s.channels, queue))
  }

  /** detachQueueDeliveriesLocked. */
  function DetachFromAll(channels: map<ChannelKey, Channel>, queue: Name): map<ChannelKey, Channel> {
    map k | k in channels :: DetachQueue(channels[k], queue)
  }

  function Detach(channels: map<ChannelKey, Channel>, c: Consumer): map<ChannelKey, Channel> {
    if HomeOf(c) in channels then channels[HomeOf(c) := DetachConsumer(channels[HomeOf(c)], c.tag)] else channels
  }

  /** cancelConsumerLocked, in the order of the code: the queue may be auto-deleted while the
      consumer is still in the channel index. */
  function CancelLocked(s: VHost, c: Consumer): VHost {
    var reg1 := s.reg.(active := s.reg.active - {c.id}, consumers := s.reg.consumers - {c.Key()});
    var reg2 := reg1.(byQueue := RemoveFrom(reg1.byQueue, c.queue, c));
    var s1 := s.(reg := reg2, channels := Detach(s.channels, c));
    var s2 := if AutoDeletes(s1, c.queue) then DeleteQueue(s1, c.queue) else s1;
    s2.(reg := s2.reg.(byChannel := RemoveFrom(s2.reg.byChannel, HomeOf(c), c)))
  }

  predicate AutoDeletes(s: VHost, queue: Name) {
    queue in s.queues && Get(s.reg.byQueue, queue) == [] && s.queues[queue].autoDelete
  }

  function NewConsumer(s: VHost, conn: Name, channel: nat, tag: Name, generated: Name, queue: Name, noAck: bool,
                       exclusive: bool): Consumer {
    var home := ChannelKey(conn, channel);
    var prefetch := if home in s.channels && !s.channels[home].qos.prefetchGlobal
      then s.channels[home].qos.nextPrefetch else 0;
    Consumer(s.nextConsumer, if tag == Name("") then generated
             else tag, channel, queue, conn, prefetch, noAck, exclusive)
  }

  /** RegisterConsumer; generated is the tag generated for an empty one. */
  function Consume(s: VHost, conn: Name, channel: nat, tag: Name, generated: Name, queue: Name, noAck: bool,
                   exclusive: bool): VHost {
    var c := NewConsumer(s, conn, channel, tag, generated, queue, noAck, exclusive);
    var existing := Get(s.reg.byQueue, queue);
    if queue !in s.queues || !OwnedBy(s.queues[queue], conn) || c.Key() in s.reg.consumers then s
    else if (exists e | e in existing :: e.exclusive) || (exclusive && |existing| > 0) then s
    else s.(reg := Register(s.reg, c), nextConsumer := s.nextConsumer + 1)
  }

  function Register(reg: Registry, c: Consumer): Registry {
    Registry(reg.consumers[c.Key() := c], reg.active + {c.id},
             AddTo(reg.byQueue, c.queue, c), AddTo(reg.byChannel, HomeOf(c), c))
  }

  /** validateQueueOwnership. */
  predicate OwnedBy(q: Queue, conn: Name) {
    q.exclusive ==> q.owner == Some(conn)
  }

  function Cancel(s: VHost, channel: nat, tag: Name): VHost {
    var key := ConsumerKey(channel, tag);
    if key in s.reg.consumers then CancelLocked(s, s.reg.consumers[key]) else s
  }

  // ---------------------------------------------------------------- deliveries

  function ChannelOf(s: VHost, key: ChannelKey): Channel {
    if key in s.channels then s.channels[key] else EMPTY_CHANNEL
  }

  /** shouldThrottle; a channel without delivery state is never throttled. */
  predicate Throttled(s: VHost, c: Consumer) {
    HomeOf(c) in s.channels &&
    var ch := s.channels[HomeOf(c)];
    || !ch.qos.flowActive
    || (ch.qos.prefetchGlobal && ch.qos.globalPrefetch > 0 && |ch.records| >= ch.qos.globalPrefetch)
    || (!ch.qos.prefetchGlobal && c.prefetch > 0 && |OfConsumer(ch, c.tag)| >= c.prefetch)
  }

  /** The delivery loop takes the next message; an expired one goes to the dead-letter path. */
  function Take(s: VHost, queue: Name, expired: bool): VHost {
    if queue !in s.queues || s.queues[queue].hand.Some? || s.queues[queue].ready == [] then s
    else
      var q := s.queues[queue];
      var m := q.ready[0];
      var s' := s.(queues := s.queues[queue := q.(ready := q.ready[1..])]);
      if expired then Expire(s', queue, m)
      else s.(queues := s.queues[queue := q.(ready := q.ready[1..], hand := Some(m))])
  }

  /** deliverToConsumer with an active consumer. When the frames are not written the record is
      deleted again, but its tag stays used. */
  function Deliver(s: VHost, c: Consumer, m: Message, sent: bool): VHost {
    var ch := ChannelOf(s, HomeOf(c));
    if !sent then s.(channels := s.channels[HomeOf(c) := ch.(last := ch.last + 1)])
    else if c.noAck then
      s.(channels := s.channels[HomeOf(c) := ch.(last := ch.last + 1)], redelivered := s.redelivered - {m.id},
         ledger := s.ledger.(autoAcked := s.ledger.autoAcked + multiset{m}))
    else
      s.(channels := s.channels[HomeOf(c) := TrackConsumer(ch, c.tag, c.queue, m, c.id)],
         redelivered := s.redelivered - {m.id})
  }

  /** The delivery loop offers the message it holds to the i-th consumer of its queue. A consumer
      whose delivery fails is removed (removeFailedConsumer) and the loop keeps the message. */
  function Attempt(s: VHost, queue: Name, i: nat, sent: bool): VHost {
    if queue !in s.queues || s.queues[queue].hand == None || i >= |Get(s.reg.byQueue, queue)| then s
    else
      var q, c := s.queues[queue], Get(s.reg.byQueue, queue)[i];
      if c.id !in s.reg.active || Throttled(s, c) then s
      else if sent then Deliver(s.(queues := s.queues[queue := q.(hand := None)]), c, q.hand.value, true)
      else CancelLocked(Deliver(s, c, q.hand.value, false), c)
  }

  /** The delivery loop gives up and puts the message it holds back, unmarked. */
  function GiveBack(s: VHost, queue: Name): VHost {
    if queue !in s.queues || s.queues[queue].hand == None then s
    else
      var q := s.queues[queue];
      Push(s.(queues := s.queues[queue := q.(hand := None)]), queue, q.hand.value)
  }

  /** basicGetHandler. */
  function GetMessage(s: VHost, conn: Name, channel: nat, queue: Name, noAck: bool, expired: bool): VHost {
    if queue !in s.queues || !OwnedBy(s.queues[queue], conn) || s.queues[queue].ready == [] then s
    else
      var q, key := s.queues[queue], ChannelKey(conn, channel);
      var m, ch := q.ready[0], ChannelOf(s, key);
      var s' := s.(queues := s.queues[queue := q.(ready := q.ready[1..])]);
      if expired then Expire(s', queue, m)
      else if noAck then
        s'.(channels := s.channels[key := ch.(last := ch.last + 1)],
            ledger := s.ledger.(autoAcked := s.ledger.autoAcked + multiset{m}))
      else s'.(channels := s.channels[key := TrackGet(ch, queue, m)])
  }

  // ---------------------------------------------------------------- settling

  function MessagesOf(records: seq<Record>): multiset<Message> {
    if records == [] then multiset{} else multiset{records[0].msg} + MessagesOf(records[1..])
  }

  function Ack(s: VHost, key: ChannelKey, tag: nat, multiple: bool, popped: seq<Record>): VHost {
    if key !in s.channels || Settles(s.channels[key], tag, multiple) == None then s
    else
      s.(channels := s.channels[key := Without(s.channels[key], Settles(s.channels[key], tag, multiple).value)],
         ledger := s.ledger.(acked := s.ledger.acked + MessagesOf(popped)))
  }

  /** The requeue branch of handleBasicNack. */
  function RequeueOne(s: VHost, r: Record, expired: set<Message>): VHost {
    if r.queue !in s.queues then s.(ledger := s.ledger.(lost := s.ledger.lost + multiset{r.msg}))
    else if r.msg in expired then Expire(s, r.queue, r.msg)
    else PushBack(s, r.queue, r.msg)
  }

  /** One record of handleBasicNack. */
  function NackOne(s: VHost, r: Record, requeue: bool, expired: set<Message>): VHost {
    if r.queueDeleted then s.(ledger := s.ledger.(gone := s.ledger.gone + multiset{r.msg}))
    else if requeue then RequeueOne(s, r, expired)
    else if r.queue !in s.queues then s.(ledger := s.ledger.(lost := s.ledger.lost + multiset{r.msg}))
    else s.(ledger := s.ledger.(rejected := s.ledger.rejected + multiset{r.msg},
                                deadLetters := s.ledger.deadLetters + {(r.msg, s.queues[r.queue].gen)}))
  }

  function NackEach(s: VHost, records: seq<Record>, requeue: bool, expired: set<Message>): VHost
    decreases |records|
  {
    if records == [] then s else NackEach(NackOne(s, records[0], requeue, expired), records[1..], requeue, expired)
  }

  function Nack(s: VHost, key: ChannelKey, tag: nat, multiple: bool, requeue: bool, popped: seq<Record>,
                expired: set<Message>): VHost {
    if key !in s.channels || Settles(s.channels[key], tag, multiple) == None then s
    else
      var tags := Settles(s.channels[key], tag, multiple).value;
      NackEach(s.(channels := s.channels[key := Without(s.channels[key], tags)]), popped, requeue, expired)
  }

  /** The consumer of the channel with the given tag, as recover looks it up. */
  function FindConsumer(cs: seq<Consumer>, tag: Name): Option<Consumer> {
    if cs == [] then None else if cs[0].tag == tag then Some(cs[0]) else FindConsumer(cs[1..], tag)
  }

  /** What recover does with a record. Bounced is a redelivery that fails. */
  datatype Fate = Expires | Requeued | Redelivered(c: Consumer) | Bounced(c: Consumer)

  /** unsent lists the messages whose redelivery fails. */
  function FateOf(s: VHost, key: ChannelKey, r: Record, requeue: bool, expired: set<Message>,
                  unsent: set<Message>): Fate {
    if r.queue in s.queues && r.msg in expired then Expires
    else if requeue || r.fromGet || r.consumerCancelled then Requeued
    else
      var target := FindConsumer(Get(s.reg.byChannel, key), r.consumerTag);
      if target == None || target.value.id !in s.reg.active then Requeued
      else if r.msg in unsent then Bounced(target.value)
      else Redelivered(target.value)
  }

  /** A message expires, and the handler has it all the same. */
  function ExpireLate(s: VHost, queue: Name, m: Message): VHost
    requires queue in s.queues
  {
    var s1 := Expire(s, queue, m);
    s1.(ledger := s1.ledger.(duplicated := s1.ledger.duplicated + multiset{m}))
  }

  /** requeueMessage, which asks once more whether the message has expired and pushes it in any case. */
  function RequeueMessage(s: VHost, r: Record, late: bool): VHost {
    if r.queue !in s.queues then s.(ledger := s.ledger.(lost := s.ledger.lost + multiset{r.msg}))
    else PushBack(if late then ExpireLate(s, r.queue, r.msg) else s, r.queue, r.msg)
  }

  /** One record of HandleBasicRecover; late lists the messages that expire between its two questions. */
  function RecoverOne(s: VHost, key: ChannelKey, r: Record, requeue: bool, expired: set<Message>,
                      unsent: set<Message>, late: set<Message>): VHost {
    match FateOf(s, key, r, requeue, expired, unsent)
    case Expires => Expire(s, r.queue, r.msg)
    case Requeued => RequeueMessage(s, r, r.msg in late)
    case Bounced(c) => RequeueMessage(Deliver(s, c, r.msg, false), r, r.msg in late)
    case Redelivered(c) => Deliver(s, c, r.msg, true)
  }

  function RecoverEach(s: VHost, key: ChannelKey, records: seq<Record>, requeue: bool, expired: set<Message>,
                       unsent: set<Message>, late: set<Message>): VHost
    decreases |records|
  {
    if records == [] then s
    else RecoverEach(RecoverOne(s, key, records[0], requeue, expired, unsent, late), key, records[1..], requeue,
                     expired, unsent, late)
  }

  /** The records a channel holds of deleted queues; they leave with the channel's records. */
  function DeadTags(ch: Channel): set<nat> {
    ch.records.Keys - Requeueable(ch)
  }

  function Recover(s: VHost, key: ChannelKey, requeue: bool, popped: seq<Record>, dead: seq<Record>,
                   expired: set<Message>, unsent: set<Message>, late: set<Message>): VHost {
    if key !in s.channels then s
    else
      RecoverEach(s.(channels := s.channels[key := s.channels[key].(records := map[])],
                     ledger := s.ledger.(gone := s.ledger.gone + MessagesOf(dead))),
                  key, popped, requeue, expired, unsent, late)
  }

  /** The message goes back to the queue by requeueMessage. */
  predicate Returns(f: Fate) {
    f.Requeued? || f.Bounced?
  }

  /** No message that recover requeues expires between the two questions. */
  ghost predicate Punctual(s: VHost, key: ChannelKey, records: seq<Record>, requeue: bool, expired: set<Message>,
                           unsent: set<Message>, late: set<Message>) {
    forall r | r in records && Returns(FateOf(s, key, r, requeue, expired, unsent)) :: r.msg !in late
  }

  // ---------------------------------------------------------------- closing

  /** requeueWork: the records that go back to one queue. */
  datatype Work = Work(queue: Name, gen: nat, records: seq<Record>)

  function CancelListed(s: VHost, key: ChannelKey, cs: seq<Consumer>): VHost
    decreases |cs|
  {
    if cs == [] then s
    else
      var c := cs[0];
      var s' := if c.conn == key.conn && c.Key() in s.reg.consumers && s.reg.consumers[c.Key()] == c
        then CancelLocked(s, c) else s;
      CancelListed(s', key, cs[1..])
  }

  /** cancelChannelConsumersLocked. */
  function CancelChannelConsumers(s: VHost, key: ChannelKey): VHost {
    var s' := CancelListed(s, key, Get(s.reg.byChannel, key));
    s'.(reg := s'.reg.(byChannel := s'.reg.byChannel - {key}))
  }

  function AllRecords(work: seq<Work>): seq<Record> {
    if work == [] then [] else work[0].records + AllRecords(work[1..])
  }

  /** The live deliveries of a channel, which a close requeues. */
  function LiveTags(s: VHost, ch: Channel): set<nat> {
    set t | t in ch.records && !ch.records[t].queueDeleted && ch.records[t].queue in s.queues
  }

  /** What takeChannelDeliveriesLocked and inDeliveryOrder produce: every live delivery once, one
      item per queue, each item in delivery-tag order. */
  ghost predicate IsWork(s: VHost, ch: Channel, work: seq<Work>) {
    && Lists(AllRecords(work), ch, LiveTags(s, ch))
    && (forall i, j | 0 <= i < j < |work| :: work[i].queue != work[j].queue)
    && (forall i | 0 <= i < |work| :: work[i].queue in s.queues && s.queues[work[i].queue].gen == work[i].gen)
    && (forall i, j | 0 <= i < |work| && 0 <= j < |work[i].records| :: work[i].records[j].queue == work[i].queue)
    && (forall i, j, k | 0 <= i < |work| && 0 <= j < k < |work[i].records| ::
          work[i].records[j].tag < work[i].records[k].tag)
  }

  /** takeChannelDeliveriesLocked: the channel's state goes. stranded lists the records whose queue
      does not exist though they are not marked, dead those of deleted queues. */
  function DropChannel(s: VHost, key: ChannelKey, dead: seq<Record>, stranded: seq<Record>): VHost {
    s.(channels := s.channels - {key},
       ledger := s.ledger.(gone := s.ledger.gone + MessagesOf(dead), lost := s.ledger.lost + MessagesOf(stranded)))
  }

  function RequeueEach(s: VHost, queue: Name, records: seq<Record>): VHost
    requires queue in s.queues
    ensures RequeueEach(s, queue, records).queues.Keys == s.queues.Keys
    decreases |records|
  {
    if records == [] then s else RequeueEach(PushBack(s, queue, records[0].msg), queue, records[1..])
  }

  /** requeue; an item whose queue object is no longer the one of its name is left out. */
  function RequeueWork(s: VHost, work: seq<Work>): VHost
    decreases |work|
  {
    if work == [] then s
    else
      var w := work[0];
      var s' := if w.queue in s.queues && s.queues[w.queue].gen == w.gen then RequeueEach(s, w.queue, w.records)
                else s.(ledger := s.ledger.(gone := s.ledger.gone + MessagesOf(w.records)));
      RequeueWork(s', work[1..])
  }

  /** How one channel's deliveries are taken when it closes. */
  datatype Taking = Taking(work: seq<Work>, dead: seq<Record>, stranded: seq<Record>)

  ghost predicate Takes(s: VHost, key: ChannelKey, t: Taking) {
    var ch := ChannelOf(s, key);
    && IsWork(s, ch, t.work)
    && Lists(t.dead, ch, DeadTags(ch))
    && Lists(t.stranded, ch, Requeueable(ch) - LiveTags(s, ch))
  }

  /** ReleaseChannelDeliveries. */
  function CloseChannel(s: VHost, key: ChannelKey, t: Taking): VHost {
    var s1 := CancelChannelConsumers(s, key);
    if key !in s1.channels then s1 else RequeueWork(DropChannel(s1, key, t.dead, t.stranded), t.work)
  }

  /** One turn of the channel loop of CleanupConnection. */
  function TakeChannel(s: VHost, key: ChannelKey, t: Taking): VHost {
    var s1 := CancelChannelConsumers(s, key);
    if key in s1.channels then DropChannel(s1, key, t.dead, t.stranded) else s1
  }

  function TakeChannels(s: VHost, plan: seq<(ChannelKey, Taking)>): VHost
    decreases |plan|
  {
    if plan == [] then s else TakeChannels(TakeChannel(s, plan[0].0, plan[0].1), plan[1..])
  }

  ghost predicate PlanOk(s: VHost, plan: seq<(ChannelKey, Taking)>)
    decreases |plan|
  {
    plan == [] ||
    (var key, t := plan[0].0, plan[0].1;
     var s1 := CancelChannelConsumers(s, key);
     && (if key in s1.channels then Takes(s1, key, t) else t.work == [])
     && PlanOk(TakeChannel(s, key, t), plan[1..]))
  }

  function Collected(plan: seq<(ChannelKey, Taking)>): seq<Work>
    decreases |plan|
  {
    if plan == [] then [] else plan[0].1.work + Collected(plan[1..])
  }

  /** connectionChannelsLocked, channels known only to have a transaction aside. */
  function ChannelsOfConnection(s: VHost, conn: Name): set<ChannelKey> {
    (set k | k in s.reg.byChannel && k.conn == conn)
    + (set k | k in s.reg.consumers && s.reg.consumers[k].conn == conn :: HomeOf(s.reg.consumers[k]))
    + (set k | k in s.channels && k.conn == conn)
  }

  function CancelEach(s: VHost, cs: seq<Consumer>): VHost
    decreases |cs|
  {
    if cs == [] then s else CancelEach(CancelLocked(s, cs[0]), cs[1..])
  }

  /** The queues of a closed connection that are not exclusive lose their owner. */
  function Disown(s: VHost, conn: Name): VHost {
    s.(queues := map n | n in s.queues ::
         if s.queues[n].owner == Some(conn) && !s.queues[n].exclusive then s.queues[n].(owner := None) else s.queues[n])
  }

  function Owned(s: VHost, conn: Name): set<Name> {
    set n | n in s.queues && s.queues[n].owner == Some(conn) && s.queues[n].exclusive
  }

  function DeleteEach(s: VHost, names: seq<Name>): VHost
    decreases |names|
  {
    if names == [] then s
    else DeleteEach(if names[0] in s.queues then DeleteQueue(s, names[0]) else s, names[1..])
  }

  /** CleanupConnection. rest are the consumers the channel loop missed, doomed the connection's
      exclusive queues, each in the order the code comes across them. */
  function CloseConnection(s: VHost, conn: Name, plan: seq<(ChannelKey, Taking)>, rest: seq<Consumer>,
                           doomed: seq<Name>): VHost {
    RequeueWork(DeleteEach(Disown(CancelEach(TakeChannels(s, plan), rest), conn), doomed), Collected(plan))
  }

  ghost predicate ConnectionOrder(s: VHost, conn: Name, plan: seq<(ChannelKey, Taking)>, rest: seq<Consumer>,
                                  doomed: seq<Name>) {
    var s1 := TakeChannels(s, plan);
    && (forall i | 0 <= i < |plan| :: plan[i].0.conn == conn)
    && ChannelsOfConnection(s, conn) <= (set i | 0 <= i < |plan| :: plan[i].0)
    && PlanOk(s, plan)
    && NoDup(rest) && (forall c :: c in rest <==> c in s1.reg.consumers.Values && c.conn == conn)
    && (forall n :: n in doomed <==> n in Owned(CancelEach(s1, rest), conn))
  }

  // ---------------------------------------------------------------- limits

  function SetQos(s: VHost, key: ChannelKey, count: nat, global: bool): VHost {
    var ch := ChannelOf(s, key);
    var qos := if global then ch.qos.(globalPrefetch := count, prefetchGlobal := true)
      else ch.qos.(nextPrefetch := count);
    s.(channels := s.channels[key := ch.(qos := qos)])
  }

  function SetFlow(s: VHost, key: ChannelKey, active: bool): VHost {
    var ch := ChannelOf(s, key);
    s.(channels := s.channels[key := ch.(qos := ch.qos.(flowActive := active))])
  }
}
