/**
 deliverToConsumer racing consumer cancel, queue deletion and channel close, lock step by lock
 step. Each event below is what one thread does between two points where another can intervene:

 - sendMu of a consumer and mu of a delivery state are held by the thread in the matching phase;
 - the host's mu is held by the job, so an event that takes it needs the job to be Idle;
 - Active is the set active, read by deliveries without the host's mu.
 */
module DeliveryRace {
  import opened Collections
  import opened ChannelDelivery
  import opened VHostState

  /** A consumer object. gen is the identity of the queue it was registered on. */
  datatype Sub = Sub(tag: Name, home: ChannelKey, queue: Name, gen: nat, noAck: bool) {
    function Key(): ConsumerKey { ConsumerKey(home.channel, tag) }
  }

  /** Where a call of deliverToConsumer is. st names a channel's delivery state object.
      Waiting: before sendMu. Checked: Active was seen set, sendMu held. Fetched: the delivery state
      has been looked up or made. Entered: ch.mu held too. Seen: Active was seen set again. Ready:
      tag taken, record tracked, ch.mu released. Written or Failed: the send returned, sendMu still
      held. Undoing: sendMu released, the record of a failed send is still there. */
  datatype Phase = Waiting | Locked | Checked | Fetched(st: nat) | Entered(st: nat) | Seen(st: nat)
                 | Ready(st: nat, tag: nat) | Written(st: nat, tag: nat) | Failed(st: nat, tag: nat)
                 | Undoing(st: nat, tag: nat) | Finished

  datatype Thread = Thread(sub: nat, msg: Message, phase: Phase)

  /** What the holder of the host's mu has still to do. detaching: the consumer that is inactive but
      whose deliveries are not detached yet. deactivating and marking: what is left of the deletion
      of the queue deleting. closing: the channel whose close runs the job. */
  datatype Job = Idle | Busy(cancels: set<nat>, detaching: Option<nat>, deleting: Option<Name>,
                             deactivating: set<nat>, marking: set<nat>, closing: Option<ChannelKey>)

  /** ReleaseChannelDeliveries: it cancels subs, the channel's consumers when it starts, then waits
      for the sendMu of each, then takes the delivery state. */
  datatype Close = Cancelling(subs: set<nat>) | Barrier(subs: set<nat>, left: set<nat>)
                 | Returned(subs: set<nat>, taken: map<nat, Record>)

  /** A basic.deliver on the wire. */
  datatype Frame = Frame(sub: nat, st: nat, tag: nat)

  /** A basic.cancel on the wire, for a consumer that the server has removed. It comes after so many
      frames of deliveries. */
  datatype Notice = Notice(sub: nat, after: nat)

  datatype World = World(subs: map<nat, Sub>, active: set<nat>, registered: map<ConsumerKey, nat>,
                         queues: map<Name, nat>, nextGen: nat,
                         channels: map<ChannelKey, nat>, states: map<nat, Channel>,
                         threads: map<nat, Thread>, job: Job, closes: map<ChannelKey, Close>,
                         wire: seq<Frame>, notices: seq<Notice>, settled: set<(nat, nat)>)

  const START := World(map[], {}, map[], map[], 0, map[], map[], map[], Idle, map[], [], [], {})

  datatype Event =
    // the delivery, in the order of deliverToConsumer
    | Begin(d: nat, sub: nat, msg: Message) | LockSend(d: nat) | Check(d: nat) | Fetch(d: nat, made: nat)
    | Enter(d: nat) | Recheck(d: nat) | Track(d: nat) | Send(d: nat, ok: bool) | UnlockSend(d: nat) | Undo(d: nat)
    // handlers that are one event
    | Declare(queue: Name) | Subscribe(id: nat, tag: Name, home: ChannelKey, queue: Name, noAck: bool)
    | Settle(st: nat, tags: set<nat>)
    // handlers that hold the host's mu over several events
    | StartCancel(id: nat) | StartDelete(queue: Name) | StartClose(key: ChannelKey)
    | CancelNext(id: nat) | DetachNow(autoDelete: bool) | DeactivateNext(id: nat) | MarkNext(st: nat) | EndDelete
    | Release
    // the rest of a close
    | Pass(key: ChannelKey, id: nat) | TakeAll(key: ChannelKey)
    // consumerCancels.send, which writes with the consumer's sendMu held
    | Notify(id: nat)

  predicate HoldsSend(p: Phase) {
    p.Locked? || p.Checked? || p.Fetched? || p.Entered? || p.Seen? || p.Ready? || p.Written? || p.Failed?
  }

  predicate HoldsState(p: Phase, st: nat) {
    (p.Entered? || p.Seen?) && p.st == st
  }

  ghost predicate SendFree(w: World, id: nat) {
    forall d | d in w.threads :: w.threads[d].sub == id ==> !HoldsSend(w.threads[d].phase)
  }

  ghost predicate StateFree(w: World, st: nat) {
    forall d | d in w.threads :: !HoldsState(w.threads[d].phase, st)
  }

  ghost predicate InProgress(w: World, key: ChannelKey) {
    key in w.closes && !w.closes[key].Returned?
  }

  /** Whether the event can happen now. */
  ghost predicate Can(w: World, e: Event) {
    match e
    case Begin(d, sub, msg) => d !in w.threads && sub in w.subs
    case LockSend(d) => d in w.threads && w.threads[d].phase.Waiting? && SendFree(w, w.threads[d].sub)
    case Check(d) => d in w.threads && w.threads[d].phase.Locked?
    case Fetch(d, made) =>
      d in w.threads && w.threads[d].phase.Checked? && w.threads[d].sub in w.subs && w.job.Idle? && made !in w.states
    case Enter(d) => d in w.threads && w.threads[d].phase.Fetched? && StateFree(w, w.threads[d].phase.st)
    case Recheck(d) => d in w.threads && w.threads[d].phase.Entered?
    case Track(d) =>
      d in w.threads && w.threads[d].phase.Seen? && w.threads[d].phase.st in w.states && w.threads[d].sub in w.subs
    case Send(d, ok) => d in w.threads && w.threads[d].phase.Ready?
    case UnlockSend(d) => d in w.threads && (w.threads[d].phase.Written? || w.threads[d].phase.Failed?)
    case Undo(d) =>
      d in w.threads && w.threads[d].phase.Undoing? && w.threads[d].phase.st in w.states
      && StateFree(w, w.threads[d].phase.st)
    case Declare(queue) => w.job.Idle? && queue !in w.queues
    case Subscribe(id, tag, home, queue, noAck) =>
      // nothing is consumed on a channel that is being closed
      w.job.Idle? && id !in w.subs && queue in w.queues && ConsumerKey(home.channel, tag) !in w.registered
      && !InProgress(w, home)
    case Settle(st, tags) => st in w.states && StateFree(w, st) && tags <= w.states[st].records.Keys
    case StartCancel(id) => w.job.Idle? && id in w.active
    case StartDelete(queue) => w.job.Idle? && queue in w.queues
    case StartClose(key) => w.job.Idle? && !InProgress(w, key)
    case CancelNext(id) =>
      w.job.Busy? && id in w.job.cancels && w.job.detaching == None && w.job.deleting == None && id in w.subs
    case DetachNow(autoDelete) =>
      && w.job.Busy? && w.job.detaching.Some? && w.job.detaching.value in w.subs
      && var c := w.subs[w.job.detaching.value];
         && (c.home in w.channels ==> w.channels[c.home] in w.states && StateFree(w, w.channels[c.home]))
         && (autoDelete ==> c.queue in w.queues && OnQueue(w, c.queue) == {})
    case DeactivateNext(id) => w.job.Busy? && w.job.deleting.Some? && id in w.job.deactivating && id in w.subs
    case MarkNext(st) =>
      w.job.Busy? && w.job.deleting.Some? && w.job.deactivating == {} && st in w.job.marking && st in w.states
      && StateFree(w, st)
    case EndDelete => w.job.Busy? && w.job.deleting.Some? && w.job.deactivating == {} && w.job.marking == {}
    case Release =>
      && w.job.Busy? && w.job.cancels == {} && w.job.detaching == None && w.job.deleting == None
      && (w.job.closing.Some? ==> w.job.closing.value in w.closes && w.closes[w.job.closing.value].Cancelling?)
    case Pass(key, id) => key in w.closes && w.closes[key].Barrier? && id in w.closes[key].left && SendFree(w, id)
    case TakeAll(key) =>
      && w.job.Idle? && key in w.closes && w.closes[key].Barrier? && w.closes[key].left == {}
      && (key in w.channels ==> w.channels[key] in w.states && StateFree(w, w.channels[key]))
    case Notify(id) => id in w.subs && id !in w.active && SendFree(w, id)
  }

  /** The active consumers of a queue, and of a channel. */
  ghost function OnQueue(w: World, queue: Name): set<nat> {
    set id | id in w.active && id in w.subs && w.subs[id].queue == queue
  }

  ghost function OnChannel(w: World, key: ChannelKey): set<nat> {
    set id | id in w.active && id in w.subs && w.subs[id].home == key
  }

  function Move(w: World, d: nat, p: Phase): World
    requires d in w.threads
  {
    w.(threads := w.threads[d := w.threads[d].(phase := p)])
  }

  /** Active is cleared and the consumer leaves the maps. */
  function Deactivated(w: World, id: nat): World
    requires id in w.subs
  {
    var key := w.subs[id].Key();
    w.(active := w.active - {id},
       registered := if key in w.registered && w.registered[key] == id then w.registered - {key} else w.registered)
  }

  /** What the event does. */
  ghost function Do(w: World, e: Event): World
    requires Can(w, e)
  {
    match e
    case Begin(d, sub, msg) => w.(threads := w.threads[d := Thread(sub, msg, Waiting)])
    case LockSend(d) => Move(w, d, Locked)
    case Check(d) => Move(w, d, if w.threads[d].sub in w.active then Checked else Finished)
    case Fetch(d, made) =>
      var home := w.subs[w.threads[d].sub].home;
      if home in w.channels then Move(w, d, Fetched(w.channels[home]))
      else Move(w.(channels := w.channels[home := made], states := w.states[made := EMPTY_CHANNEL]), d, Fetched(made))
    case Enter(d) => Move(w, d, Entered(w.threads[d].phase.st))
    case Recheck(d) => Move(w, d, if w.threads[d].sub in w.active then Seen(w.threads[d].phase.st) else Finished)
    case Track(d) =>
      var st, id := w.threads[d].phase.st, w.threads[d].sub;
      Move(w.(states := w.states[st := Tracks(w.states[st], w.subs[id], id, w.threads[d].msg)]), d,
           Ready(st, w.states[st].last + 1))
    case Send(d, ok) =>
      var p := w.threads[d].phase;
      if ok then Move(w.(wire := w.wire + [Frame(w.threads[d].sub, p.st, p.tag)]), d, Written(p.st, p.tag))
      else Move(w, d, Failed(p.st, p.tag))
    case UnlockSend(d) =>
      var p := w.threads[d].phase;
      Move(w, d, if p.Failed? && !TagOnly(w, d) then Undoing(p.st, p.tag) else Finished)
    case Undo(d) =>
      var p := w.threads[d].phase;
      Move(w.(states := w.states[p.st := Without(w.states[p.st], {p.tag})]), d, Finished)
    case Declare(queue) => w.(queues := w.queues[queue := w.nextGen], nextGen := w.nextGen + 1)
    case Subscribe(id, tag, home, queue, noAck) =>
      var c := Sub(tag, home, queue, w.queues[queue], noAck);
      w.(subs := w.subs[id := c], active := w.active + {id}, registered := w.registered[c.Key() := id])
    case Settle(st, tags) =>
      w.(states := w.states[st := Without(w.states[st], tags)], settled := w.settled + (set t | t in tags :: (st, t)))
    case StartCancel(id) => w.(job := Busy({id}, None, None, {}, {}, None))
    case StartDelete(queue) =>
      w.(queues := w.queues - {queue}, job := Busy({}, None, Some(queue), OnQueue(w, queue), w.channels.Values, None))
    case StartClose(key) =>
      w.(job := Busy(OnChannel(w, key), None, None, {}, {}, Some(key)),
         closes := w.closes[key := Cancelling(OnChannel(w, key))])
    case CancelNext(id) => Deactivated(w, id).(job := w.job.(cancels := w.job.cancels - {id}, detaching := Some(id)))
    case DetachNow(autoDelete) =>
      var c := w.subs[w.job.detaching.value];
      var w1 := if c.home in w.channels then
                  w.(states := w.states[w.channels[c.home] := DetachConsumer(w.states[w.channels[c.home]], c.tag)])
                else w;
      if autoDelete then
        w1.(queues := w.queues - {c.queue},
            job := w.job.(detaching := None, deleting := Some(c.queue), marking := w.channels.Values))
      else w1.(job := w.job.(detaching := None))
    case DeactivateNext(id) => Deactivated(w, id).(job := w.job.(deactivating := w.job.deactivating - {id}))
    case MarkNext(st) =>
      w.(states := w.states[st := DetachQueue(w.states[st], w.job.deleting.value)],
         job := w.job.(marking := w.job.marking - {st}))
    case EndDelete => w.(job := w.job.(deleting := None))
    case Release =>
      if w.job.closing.Some? then
        var key := w.job.closing.value;
        w.(job := Idle, closes := w.closes[key := Barrier(w.closes[key].subs, w.closes[key].subs)])
      else w.(job := Idle)
    case Pass(key, id) =>
      w.(closes := w.closes[key := Barrier(w.closes[key].subs, w.closes[key].left - {id})])
    case TakeAll(key) =>
      var taken := if key in w.channels then w.states[w.channels[key]].records else map[];
      w.(channels := w.channels - {key}, closes := w.closes[key := Returned(w.closes[key].subs, taken)])
    case Notify(id) => w.(notices := w.notices + [Notice(id, |w.wire|)])
  }

  /** The delivery took a tag but tracked no record. */
  predicate TagOnly(w: World, d: nat) {
    d in w.threads && w.threads[d].sub in w.subs && w.subs[w.threads[d].sub].noAck
  }

  /** The channel with the delivery's tag taken and, unless it needs no ack, its record tracked. */
  function Tracks(ch: Channel, c: Sub, id: nat, m: Message): Channel {
    if c.noAck then ch.(last := ch.last + 1) else TrackConsumer(ch, c.tag, c.queue, m, id)
  }

  ghost predicate Runs(w: World, es: seq<Event>, w': World)
    decreases |es|
  {
    if es == [] then w' == w else Can(w, es[0]) && Runs(Do(w, es[0]), es[1..], w')
  }
}
