/**
 What every interleaving of deliveries, cancels, queue deletions and channel closes keeps.
 */
module DeliveryRaceProofs {
  import opened Collections
  import opened ChannelDelivery
  import opened VHostState
  import opened DeliveryRace

  predicate HasSt(p: Phase) {
    p.Fetched? || p.Entered? || p.Seen? || p.Ready? || p.Written? || p.Failed? || p.Undoing?
  }

  predicate HasTag(p: Phase) {
    p.Ready? || p.Written? || p.Failed? || p.Undoing?
  }

  /** A tag was taken and no frame written for it yet, or ever. */
  predicate Unwritten(p: Phase) {
    p.Ready? || p.Failed? || p.Undoing?
  }

  // ---------------------------------------------------------------- the invariant, part by part

  /** Names refer to things that exist, and a delivery state belongs to one channel. */
  ghost predicate Scoped(w: World) {
    && w.active <= w.subs.Keys
    && (forall k | k in w.channels :: w.channels[k] in w.states)
    && (forall j, k | j in w.channels && k in w.channels && w.channels[j] == w.channels[k] :: j == k)
    && (forall d | d in w.threads :: w.threads[d].sub in w.subs)
    && (forall d | d in w.threads && HasSt(w.threads[d].phase) :: w.threads[d].phase.st in w.states)
    && (forall f | f in w.wire :: f.sub in w.subs && f.st in w.states)
    && (forall k, id | k in w.closes && id in w.closes[k].subs :: id in w.subs && w.subs[id].home == k)
  }

  /** The registered consumers are the active ones. */
  ghost predicate RegisteredOk(w: World) {
    && (forall id | id in w.active ::
        id in w.subs && w.subs[id].Key() in w.registered && w.registered[w.subs[id].Key()] == id)
    && (forall k | k in w.registered ::
        w.registered[k] in w.active && w.registered[k] in w.subs && w.subs[w.registered[k]].Key() == k)
  }

  /** The holder of the host's mu. */
  ghost predicate JobOk(w: World) {
    w.job.Busy? ==>
      && w.job.cancels <= w.subs.Keys
      && (w.job.detaching.Some? ==> w.job.detaching.value in w.subs && w.job.deleting == None)
      && (w.job.deleting == None ==> w.job.deactivating == {} && w.job.marking == {})
      && (w.job.deleting.Some? ==> w.job.deleting.value !in w.queues)
      && (forall id | id in w.job.deactivating :: id in w.subs && w.subs[id].queue == w.job.deleting.value)
      && (w.job.deactivating != {} ==> w.job.marking == w.channels.Values)
      && w.job.marking <= w.channels.Values
  }

  /** A close in its first part runs the job, and has yet to cancel what is active on its channel. */
  ghost predicate ClosesOk(w: World) {
    && (forall k | k in w.closes && w.closes[k].Cancelling? :: w.job.Busy? && w.job.closing == Some(k))
    && (w.job.Busy? && w.job.closing.Some? ==>
          w.job.closing.value in w.closes && w.closes[w.job.closing.value].Cancelling?)
    && (forall id | id in w.active && id in w.subs && InProgress(w, w.subs[id].home) ::
          w.closes[w.subs[id].home].Cancelling? && id in w.job.cancels)
  }

  ghost predicate Deleting(w: World, queue: Name, st: nat) {
    w.job.Busy? && w.job.deleting == Some(queue) && st in w.job.marking
  }

  /** The consumer is active, or the holder of the host's mu will still detach its deliveries. */
  ghost predicate Covered(w: World, id: nat, st: nat) {
    id in w.subs
    && (id in w.active || (w.job.Busy? && w.job.detaching == Some(id)) || Deleting(w, w.subs[id].queue, st))
  }

  /** The consumer's queue is the one registered, or its deliveries will still be marked. */
  ghost predicate Rooted(w: World, id: nat, st: nat) {
    id in w.subs
    && ((w.subs[id].queue in w.queues && w.queues[w.subs[id].queue] == w.subs[id].gen)
        || Deleting(w, w.subs[id].queue, st))
  }

  ghost predicate RecordOk(w: World, k: ChannelKey, st: nat, r: Record) {
    && r.owner in w.subs && w.subs[r.owner].home == k && w.subs[r.owner].tag == r.consumerTag
    && w.subs[r.owner].queue == r.queue
    && !r.fromGet
    && (r.Attached() ==> Covered(w, r.owner, st))
    && (!r.queueDeleted ==> Rooted(w, r.owner, st))
  }

  ghost predicate RecordsOk(w: World) {
    forall k, t | k in w.channels && w.channels[k] in w.states && t in w.states[w.channels[k]].records ::
      RecordOk(w, k, w.channels[k], w.states[w.channels[k]].records[t])
  }

  /** A delivery about to track a record in a channel's state. */
  ghost predicate SeenOk(w: World) {
    forall d, k | d in w.threads && k in w.channels && HasSt(w.threads[d].phase)
      && w.threads[d].phase.st == w.channels[k] ::
      && w.threads[d].sub in w.subs && w.subs[w.threads[d].sub].home == k
      && (w.threads[d].phase.Seen? ==>
          Covered(w, w.threads[d].sub, w.channels[k]) && Rooted(w, w.threads[d].sub, w.channels[k]))
  }

  /** The queue of an active consumer exists, or is being deleted and the consumer with it. */
  ghost predicate ActiveRooted(w: World) {
    forall id | id in w.active && id in w.subs ::
      || (w.subs[id].queue in w.queues && w.queues[w.subs[id].queue] == w.subs[id].gen)
      || (w.job.Busy? && w.job.deleting == Some(w.subs[id].queue) && id in w.job.deactivating)
  }

  // ---------------------------------------------------------------- tags and frames

  /** The delivery can still be settled through the state, or has been settled. */
  ghost predicate Kept(w: World, id: nat, st: nat, tag: nat) {
    && st in w.states && tag <= w.states[st].last
    && (id in w.subs && !w.subs[id].noAck && (st, tag) !in w.settled ==>
          tag in w.states[st].records && w.states[st].records[tag].owner == id)
  }

  ghost predicate TagsOk(w: World) {
    && (forall st | st in w.states :: WellFormed(w.states[st]))
    && (forall f | f in w.wire :: Kept(w, f.sub, f.st, f.tag))
    && (forall d | d in w.threads && w.threads[d].phase.Ready? ::
        Kept(w, w.threads[d].sub, w.threads[d].phase.st, w.threads[d].phase.tag))
    && (forall d | d in w.threads && HasTag(w.threads[d].phase) ::
          w.threads[d].phase.st in w.states && w.threads[d].phase.tag <= w.states[w.threads[d].phase.st].last)
  }

  /** The tag of a delivery that is not written is nobody else's. */
  ghost predicate OwnTags(w: World) {
    && (forall d, e | d in w.threads && e in w.threads && d != e && Unwritten(w.threads[d].phase)
        && Unwritten(w.threads[e].phase) ::
          w.threads[d].phase.st != w.threads[e].phase.st || w.threads[d].phase.tag != w.threads[e].phase.tag)
    && (forall d, f | d in w.threads && f in w.wire && Unwritten(w.threads[d].phase) ::
          w.threads[d].phase.st != f.st || w.threads[d].phase.tag != f.tag)
  }

  // ---------------------------------------------------------------- closing

  /** The consumer is active, or its channel's close has yet to take what it was delivered. */
  ghost predicate Current(w: World, id: nat) {
    && id in w.subs
    && (id in w.active || (InProgress(w, w.subs[id].home) && id in w.closes[w.subs[id].home].subs))
  }

  ghost predicate Mapped(w: World, id: nat, st: nat) {
    id in w.subs && w.subs[id].home in w.channels && w.channels[w.subs[id].home] == st
  }

  /** What a current consumer was or is being delivered is in its channel's present state. */
  ghost predicate CurrentOk(w: World) {
    && (forall f | f in w.wire && Current(w, f.sub) :: Mapped(w, f.sub, f.st))
    && (forall d | d in w.threads && HasSt(w.threads[d].phase) && Current(w, w.threads[d].sub) ::
        Mapped(w, w.threads[d].sub, w.threads[d].phase.st))
  }

  /** No delivery to the consumer can come to be written any more. */
  ghost predicate Silent(w: World, id: nat) {
    && id in w.subs && id !in w.active
    && forall d | d in w.threads && w.threads[d].sub == id :: !Committed(w.threads[d].phase)
  }

  ghost predicate Passed(c: Close, id: nat) {
    match c
    case Cancelling(subs) => false
    case Barrier(subs, left) => id in subs && id !in left
    case Returned(subs, taken) => id in subs
  }

  ghost predicate BarrierOk(w: World) {
    && (forall k, id | k in w.closes && Passed(w.closes[k], id) :: Silent(w, id))
    && (forall k, id | k in w.closes && w.closes[k].Barrier? && id in w.closes[k].left :: id in w.closes[k].subs)
  }

  /** Each delivery written to a consumer of a closed channel was settled or has been taken. */
  ghost predicate TakenOk(w: World) {
    forall k, f | k in w.closes && w.closes[k].Returned? && f in w.wire && f.sub in w.closes[k].subs ::
      f.sub in w.subs &&
      (!w.subs[f.sub].noAck ==>
         (f.st, f.tag) in w.settled || (f.tag in w.closes[k].taken && w.closes[k].taken[f.tag].owner == f.sub))
  }

  ghost predicate Inv(w: World) {
    && Scoped(w) && RegisteredOk(w) && JobOk(w) && ClosesOk(w) && RecordsOk(w) && SeenOk(w) && ActiveRooted(w)
    && TagsOk(w) && OwnTags(w) && CurrentOk(w) && BarrierOk(w) && TakenOk(w)
  }

  // ---------------------------------------------------------------- a delivery moves on

  predicate Committed(p: Phase) {
    p.Checked? || p.Fetched? || p.Entered? || p.Seen? || p.Ready?
  }

  /** The next phase claims nothing new, unless the consumer is active. */
  ghost predicate MovesOn(w: World, d: nat, p': Phase) {
    d in w.threads &&
    var id, p := w.threads[d].sub, w.threads[d].phase;
    && (HasSt(p') ==> HasSt(p) && p'.st == p.st)
    && (HasTag(p') ==> HasTag(p) && p'.tag == p.tag)
    && (Unwritten(p') ==> Unwritten(p))
    && !p'.Ready?
    && (p'.Seen? ==> id in w.active)
    && (Committed(p') ==> Committed(p) || id in w.active)
  }

  lemma MoveOk(w: World, d: nat, p': Phase)
    requires Inv(w) && MovesOn(w, d, p')
    ensures Inv(Move(w, d, p'))
  {
    hide Scoped, RegisteredOk, JobOk, ClosesOk, RecordsOk, SeenOk, ActiveRooted, TagsOk, OwnTags, CurrentOk,
      BarrierOk, TakenOk, MovesOn;
    MovedThread(w, d, p');
    MoveScoped(w, d, p');
    MoveRest(w, d, p');
    MoveSeen(w, d, p');
    MoveRecords(w, d, p');
    MoveTags(w, d, p');
    MoveCurrent(w, d, p');
    MoveBarrier(w, d, p');
  }

  lemma MovedThread(w: World, d: nat, p': Phase)
    requires MovesOn(w, d, p')
    ensures d in w.threads
  {
  }

  lemma MoveScoped(w: World, d: nat, p': Phase)
    requires Scoped(w) && MovesOn(w, d, p')
    ensures Scoped(Move(w, d, p'))
  {
  }

  lemma MoveRest(w: World, d: nat, p': Phase)
    requires d in w.threads && RegisteredOk(w) && JobOk(w) && ClosesOk(w) && ActiveRooted(w) && TakenOk(w)
    ensures var w' := Move(w, d, p'); RegisteredOk(w') && JobOk(w') && ClosesOk(w') && ActiveRooted(w') && TakenOk(w')
  {
  }

  /** What the invariant says of an active consumer's own state. */
  lemma ActiveCovered(w: World, id: nat, st: nat)
    requires Scoped(w) && JobOk(w) && ActiveRooted(w) && id in w.active
             && (exists k :: k in w.channels && w.channels[k] == st)
    ensures Covered(w, id, st) && Rooted(w, id, st)
  {
    var k :| k in w.channels && w.channels[k] == st;
    assert st in w.channels.Values;
  }

  lemma MoveSeen(w: World, d: nat, p': Phase)
    requires SeenOk(w) && ActiveRooted(w) && JobOk(w) && Scoped(w) && MovesOn(w, d, p')
    ensures SeenOk(Move(w, d, p'))
  {
    hide ActiveRooted, JobOk, Scoped;
    var id := w.threads[d].sub;
    forall k | k in w.channels && p'.Seen? && p'.st == w.channels[k]
      ensures Covered(w, id, w.channels[k]) && Rooted(w, id, w.channels[k]) {
      ActiveCovered(w, id, w.channels[k]);
    }
  }

  lemma MoveRecords(w: World, d: nat, p': Phase)
    requires RecordsOk(w) && d in w.threads
    ensures RecordsOk(Move(w, d, p'))
  {
  }

  lemma MoveTags(w: World, d: nat, p': Phase)
    requires TagsOk(w) && OwnTags(w) && MovesOn(w, d, p')
    ensures TagsOk(Move(w, d, p')) && OwnTags(Move(w, d, p'))
  {
    hide Kept, WellFormed;
    var w' := Move(w, d, p');
    assert forall id, st, tag :: Kept(w, id, st, tag) ==> Kept(w', id, st, tag) by { MoveKept(w, d, p'); }
  }

  lemma MoveKept(w: World, d: nat, p': Phase)
    requires d in w.threads
    ensures forall id, st, tag :: Kept(w, id, st, tag) ==> Kept(Move(w, d, p'), id, st, tag)
  {
  }

  lemma MoveCurrent(w: World, d: nat, p': Phase)
    requires CurrentOk(w) && Scoped(w) && MovesOn(w, d, p')
    ensures CurrentOk(Move(w, d, p'))
  {
  }

  lemma MoveBarrier(w: World, d: nat, p': Phase)
    requires BarrierOk(w) && MovesOn(w, d, p')
    ensures BarrierOk(Move(w, d, p'))
  {
    var w' := Move(w, d, p');
    forall id | Silent(w, id) ensures Silent(w', id) {
    }
  }

  // ---------------------------------------------------------------- a delivery begins

  lemma BeginOk(w: World, d: nat, sub: nat, msg: Message)
    requires Inv(w) && d !in w.threads && sub in w.subs
    ensures Inv(w.(threads := w.threads[d := Thread(sub, msg, Waiting)]))
  {
    hide Scoped, RegisteredOk, JobOk, ClosesOk, RecordsOk, SeenOk, ActiveRooted, TagsOk, OwnTags, CurrentOk,
      BarrierOk, TakenOk;
    var threads := w.threads[d := Thread(sub, msg, Waiting)];
    ThreadsRest(w, threads);
    BeginScoped(w, d, sub, msg);
    BeginSeen(w, d, sub, msg);
    BeginTags(w, d, sub, msg);
    BeginBarrier(w, d, sub, msg);
  }

  lemma ThreadsRest(w: World, threads: map<nat, Thread>)
    ensures var w' := w.(threads := threads);
            && (RegisteredOk(w) ==> RegisteredOk(w')) && (JobOk(w) ==> JobOk(w')) && (ClosesOk(w) ==> ClosesOk(w'))
            && (ActiveRooted(w) ==> ActiveRooted(w')) && (TakenOk(w) ==> TakenOk(w'))
            && (RecordsOk(w) ==> RecordsOk(w'))
  {
    ThreadsJob(w, threads);
    ThreadsRecords(w, threads);
    hide JobOk, RecordsOk;
  }

  lemma ThreadsJob(w: World, threads: map<nat, Thread>)
    ensures JobOk(w) ==> JobOk(w.(threads := threads))
  {
  }

  lemma ThreadsRecords(w: World, threads: map<nat, Thread>)
    ensures RecordsOk(w) ==> RecordsOk(w.(threads := threads))
  {
  }

  lemma BeginScoped(w: World, d: nat, sub: nat, msg: Message)
    requires Scoped(w) && sub in w.subs && d !in w.threads
    ensures Scoped(w.(threads := w.threads[d := Thread(sub, msg, Waiting)]))
  {
  }

  lemma BeginSeen(w: World, d: nat, sub: nat, msg: Message)
    requires SeenOk(w) && CurrentOk(w) && d !in w.threads
    ensures var w' := w.(threads := w.threads[d := Thread(sub, msg, Waiting)]); SeenOk(w') && CurrentOk(w')
  {
  }

  /** What is kept of a delivery depends on no thread. */
  lemma KeptSame(w: World, threads: map<nat, Thread>)
    ensures forall id, st, tag :: Kept(w.(threads := threads), id, st, tag) == Kept(w, id, st, tag)
  {
  }

  lemma BeginTags(w: World, d: nat, sub: nat, msg: Message)
    requires TagsOk(w) && OwnTags(w) && d !in w.threads
    ensures var w' := w.(threads := w.threads[d := Thread(sub, msg, Waiting)]); TagsOk(w') && OwnTags(w')
  {
    hide Kept, WellFormed;
    KeptSame(w, w.threads[d := Thread(sub, msg, Waiting)]);
  }

  lemma BeginBarrier(w: World, d: nat, sub: nat, msg: Message)
    requires BarrierOk(w) && d !in w.threads
    ensures BarrierOk(w.(threads := w.threads[d := Thread(sub, msg, Waiting)]))
  {
    var w' := w.(threads := w.threads[d := Thread(sub, msg, Waiting)]);
    forall id | Silent(w, id) ensures Silent(w', id) {
    }
  }

  // ---------------------------------------------------------------- GetOrCreateChannelDelivery

  function Made(w: World, k: ChannelKey, st: nat): World {
    w.(channels := w.channels[k := st], states := w.states[st := EMPTY_CHANNEL])
  }

  lemma MadeOk(w: World, k: ChannelKey, st: nat)
    requires Inv(w) && w.job.Idle? && k !in w.channels && st !in w.states
    ensures Inv(Made(w, k, st))
  {
    hide Scoped, RegisteredOk, JobOk, ClosesOk, RecordsOk, SeenOk, ActiveRooted, TagsOk, OwnTags, CurrentOk,
      BarrierOk, TakenOk;
    MadeRest(w, k, st);
    MadeScoped(w, k, st);
    MadeRecords(w, k, st);
    MadeSeen(w, k, st);
    MadeCurrent(w, k, st);
    MadeTags(w, k, st);
  }

  lemma MadeRest(w: World, k: ChannelKey, st: nat)
    requires w.job.Idle?
    requires RegisteredOk(w) && ClosesOk(w) && ActiveRooted(w) && OwnTags(w) && BarrierOk(w) && TakenOk(w)
    ensures var w' := Made(w, k, st);
            RegisteredOk(w') && ClosesOk(w') && ActiveRooted(w') && OwnTags(w') && BarrierOk(w') && TakenOk(w')
            && JobOk(w')
  {
    var w' := Made(w, k, st);
    forall id | Silent(w, id) ensures Silent(w', id) {
    }
  }

  lemma MadeScoped(w: World, k: ChannelKey, st: nat)
    requires Scoped(w) && k !in w.channels && st !in w.states
    ensures Scoped(Made(w, k, st))
  {
  }

  lemma MadeRecords(w: World, k: ChannelKey, st: nat)
    requires RecordsOk(w) && w.job.Idle? && st !in w.states
    ensures RecordsOk(Made(w, k, st))
  {
    forall r, j, s | RecordOk(w, j, s, r) ensures RecordOk(Made(w, k, st), j, s, r) {
    }
    hide RecordOk;
  }

  lemma MadeSeen(w: World, k: ChannelKey, st: nat)
    requires Scoped(w) && SeenOk(w) && w.job.Idle? && st !in w.states
    ensures SeenOk(Made(w, k, st))
  {
  }

  lemma MadeCurrent(w: World, k: ChannelKey, st: nat)
    requires CurrentOk(w) && k !in w.channels
    ensures CurrentOk(Made(w, k, st))
  {
  }

  lemma MadeTags(w: World, k: ChannelKey, st: nat)
    requires TagsOk(w) && st !in w.states
    ensures TagsOk(Made(w, k, st))
  {
    var w' := Made(w, k, st);
    forall id, s, tag | Kept(w, id, s, tag) ensures Kept(w', id, s, tag) {
    }
  }

  /** The delivery holds the state that its channel has now. */
  lemma FetchedOk(w: World, d: nat, st: nat)
    requires Inv(w) && d in w.threads && w.threads[d].phase.Checked? && Mapped(w, w.threads[d].sub, st)
    ensures Inv(Move(w, d, Fetched(st)))
  {
    hide Scoped, RegisteredOk, JobOk, ClosesOk, RecordsOk, SeenOk, ActiveRooted, TagsOk, OwnTags, CurrentOk,
      BarrierOk, TakenOk;
    ThreadsRest(w, w.threads[d := w.threads[d].(phase := Fetched(st))]);
    FetchedScoped(w, d, st);
    FetchedSeen(w, d, st);
    FetchedCurrent(w, d, st);
    FetchedTags(w, d, st);
  }

  lemma FetchedScoped(w: World, d: nat, st: nat)
    requires Scoped(w) && d in w.threads && Mapped(w, w.threads[d].sub, st)
    ensures Scoped(Move(w, d, Fetched(st)))
  {
  }

  lemma FetchedSeen(w: World, d: nat, st: nat)
    requires Scoped(w) && SeenOk(w) && d in w.threads && Mapped(w, w.threads[d].sub, st)
    ensures SeenOk(Move(w, d, Fetched(st)))
  {
  }

  lemma FetchedCurrent(w: World, d: nat, st: nat)
    requires CurrentOk(w) && d in w.threads && Mapped(w, w.threads[d].sub, st)
    ensures CurrentOk(Move(w, d, Fetched(st)))
  {
  }

  lemma FetchedTags(w: World, d: nat, st: nat)
    requires TagsOk(w) && OwnTags(w) && BarrierOk(w) && d in w.threads && w.threads[d].phase.Checked?
    ensures var w' := Move(w, d, Fetched(st)); TagsOk(w') && OwnTags(w') && BarrierOk(w')
  {
    var w' := Move(w, d, Fetched(st));
    forall id | Silent(w, id) ensures Silent(w', id) {
    }
  }

  lemma FetchOk(w: World, d: nat, made: nat)
    requires Inv(w) && Can(w, Fetch(d, made))
    ensures Inv(Do(w, Fetch(d, made)))
  {
    hide Inv, RegisteredOk, JobOk, ClosesOk, RecordsOk, SeenOk, ActiveRooted, TagsOk, OwnTags, CurrentOk, BarrierOk,
      TakenOk;
    var home := w.subs[w.threads[d].sub].home;
    if home in w.channels {
      FetchedOk(w, d, w.channels[home]);
    } else {
      MadeOk(w, home, made);
      FetchedOk(Made(w, home, made), d, made);
    }
  }

  // ---------------------------------------------------------------- a delivery is tracked

  function TrackedIn(w: World, d: nat): World
    requires d in w.threads && w.threads[d].phase.Seen? && w.threads[d].phase.st in w.states
             && w.threads[d].sub in w.subs
  {
    var st, id := w.threads[d].phase.st, w.threads[d].sub;
    Move(w.(states := w.states[st := Tracks(w.states[st], w.subs[id], id, w.threads[d].msg)]), d,
         Ready(st, w.states[st].last + 1))
  }

  ghost predicate CanTrack(w: World, d: nat) {
    d in w.threads && w.threads[d].phase.Seen? && w.threads[d].phase.st in w.states && w.threads[d].sub in w.subs
  }

  lemma TrackOk(w: World, d: nat)
    requires Inv(w) && CanTrack(w, d)
    ensures Inv(TrackedIn(w, d))
  {
    hide Scoped, RegisteredOk, JobOk, ClosesOk, RecordsOk, SeenOk, ActiveRooted, TagsOk, OwnTags, CurrentOk,
      BarrierOk, TakenOk;
    TrackRest(w, d);
    TrackScoped(w, d);
    TrackSeen(w, d);
    TrackCurrent(w, d);
    TrackRecords(w, d);
    TrackTags(w, d);
    TrackOwn(w, d);
    TrackBarrier(w, d);
  }

  lemma TrackRest(w: World, d: nat)
    requires CanTrack(w, d) && RegisteredOk(w) && JobOk(w) && ClosesOk(w) && ActiveRooted(w) && TakenOk(w)
    ensures var w' := TrackedIn(w, d); RegisteredOk(w') && JobOk(w') && ClosesOk(w') && ActiveRooted(w') && TakenOk(w')
  {
  }

  lemma TrackScoped(w: World, d: nat)
    requires CanTrack(w, d) && Scoped(w)
    ensures Scoped(TrackedIn(w, d))
  {
    hide Tracks;
  }

  lemma TrackSeen(w: World, d: nat)
    requires CanTrack(w, d) && SeenOk(w)
    ensures SeenOk(TrackedIn(w, d))
  {
    hide Tracks;
  }

  lemma TrackCurrent(w: World, d: nat)
    requires CanTrack(w, d) && CurrentOk(w)
    ensures CurrentOk(TrackedIn(w, d))
  {
    hide Tracks;
  }

  lemma TrackRecords(w: World, d: nat)
    requires CanTrack(w, d) && Scoped(w) && SeenOk(w) && RecordsOk(w)
    ensures RecordsOk(TrackedIn(w, d))
  {
    var w' := TrackedIn(w, d);
    var st := w.threads[d].phase.st;
    forall k, t | k in w'.channels && w'.channels[k] in w'.states && t in w'.states[w'.channels[k]].records
      ensures RecordOk(w', k, w'.channels[k], w'.states[w'.channels[k]].records[t])
    {
      if t in w.states[w.channels[k]].records && !(w.channels[k] == st && t == w.states[st].last + 1) {
        assert RecordOk(w, k, w.channels[k], w.states[w.channels[k]].records[t]);
      }
    }
  }

  lemma TrackTags(w: World, d: nat)
    requires CanTrack(w, d) && TagsOk(w)
    ensures TagsOk(TrackedIn(w, d))
  {
    var w' := TrackedIn(w, d);
    forall id, s, tag | Kept(w, id, s, tag) ensures Kept(w', id, s, tag) {
    }
    assert Kept(w', w.threads[d].sub, w'.threads[d].phase.st, w'.threads[d].phase.tag);
    hide Kept;
  }

  lemma TrackOwn(w: World, d: nat)
    requires CanTrack(w, d) && TagsOk(w) && OwnTags(w)
    ensures OwnTags(TrackedIn(w, d))
  {
    var st := w.threads[d].phase.st;
    assert forall f | f in w.wire && f.st == st :: f.tag <= w.states[st].last by {
      assert forall f | f in w.wire :: Kept(w, f.sub, f.st, f.tag);
    }
    hide Tracks, Kept;
  }

  lemma TrackBarrier(w: World, d: nat)
    requires CanTrack(w, d) && BarrierOk(w)
    ensures BarrierOk(TrackedIn(w, d))
  {
    hide Tracks;
    var w' := TrackedIn(w, d);
    forall id | Silent(w, id) ensures Silent(w', id) {
    }
  }

  // ---------------------------------------------------------------- a delivery is written, or undone

  function Sent(w: World, d: nat): World
    requires d in w.threads && w.threads[d].phase.Ready?
  {
    var p := w.threads[d].phase;
    Move(w.(wire := w.wire + [Frame(w.threads[d].sub, p.st, p.tag)]), d, Written(p.st, p.tag))
  }

  lemma SentOk(w: World, d: nat)
    requires Inv(w) && d in w.threads && w.threads[d].phase.Ready?
    ensures Inv(Sent(w, d))
  {
    hide Scoped, RegisteredOk, JobOk, ClosesOk, RecordsOk, SeenOk, ActiveRooted, TagsOk, OwnTags, CurrentOk,
      BarrierOk, TakenOk;
    SentRest(w, d);
    SentScoped(w, d);
    SentSeen(w, d);
    SentCurrent(w, d);
    SentTags(w, d);
    SentBarrier(w, d);
  }

  lemma SentRest(w: World, d: nat)
    requires d in w.threads && w.threads[d].phase.Ready? && RegisteredOk(w) && JobOk(w) && ClosesOk(w)
             && ActiveRooted(w) && RecordsOk(w)
    ensures var w' := Sent(w, d); RegisteredOk(w') && JobOk(w') && ClosesOk(w') && ActiveRooted(w') && RecordsOk(w')
  {
  }

  lemma SentScoped(w: World, d: nat)
    requires d in w.threads && w.threads[d].phase.Ready? && Scoped(w)
    ensures Scoped(Sent(w, d))
  {
  }

  lemma SentSeen(w: World, d: nat)
    requires d in w.threads && w.threads[d].phase.Ready? && SeenOk(w)
    ensures SeenOk(Sent(w, d))
  {
  }

  lemma SentCurrent(w: World, d: nat)
    requires d in w.threads && w.threads[d].phase.Ready? && CurrentOk(w)
    ensures CurrentOk(Sent(w, d))
  {
  }

  lemma SentTags(w: World, d: nat)
    requires d in w.threads && w.threads[d].phase.Ready? && TagsOk(w) && OwnTags(w)
    ensures var w' := Sent(w, d); TagsOk(w') && OwnTags(w')
  {
    var w' := Sent(w, d);
    forall id, s, tag | Kept(w, id, s, tag) ensures Kept(w', id, s, tag) {
    }
    hide Kept, WellFormed;
  }

  /** A consumer that is silent for a close has no delivery that could be written. */
  lemma SentBarrier(w: World, d: nat)
    requires d in w.threads && w.threads[d].phase.Ready? && BarrierOk(w) && TakenOk(w)
    ensures var w' := Sent(w, d); BarrierOk(w') && TakenOk(w')
  {
    var w' := Sent(w, d);
    forall id | Silent(w, id) ensures Silent(w', id) && id != w.threads[d].sub {
    }
    var sub := w.threads[d].sub;
    forall k | k in w.closes && w.closes[k].Returned? ensures sub !in w.closes[k].subs {
      assert Passed(w.closes[k], sub) ==> Silent(w, sub);
    }
    hide Silent;
  }

  function Undone(w: World, d: nat): World
    requires d in w.threads && w.threads[d].phase.Undoing? && w.threads[d].phase.st in w.states
  {
    var p := w.threads[d].phase;
    Move(w.(states := w.states[p.st := Without(w.states[p.st], {p.tag})]), d, Finished)
  }

  lemma UndoneOk(w: World, d: nat)
    requires Inv(w) && d in w.threads && w.threads[d].phase.Undoing? && w.threads[d].phase.st in w.states
    ensures Inv(Undone(w, d))
  {
    hide Scoped, RegisteredOk, JobOk, ClosesOk, RecordsOk, SeenOk, ActiveRooted, TagsOk, OwnTags, CurrentOk,
      BarrierOk, TakenOk;
    UndoneRest(w, d);
    UndoneRecords(w, d);
    UndoneTags(w, d);
  }

  lemma UndoneRest(w: World, d: nat)
    requires d in w.threads && w.threads[d].phase.Undoing? && w.threads[d].phase.st in w.states
    requires Scoped(w) && RegisteredOk(w) && JobOk(w) && ClosesOk(w) && ActiveRooted(w) && TakenOk(w) && SeenOk(w)
             && CurrentOk(w) && OwnTags(w) && BarrierOk(w)
    ensures var w' := Undone(w, d);
            && Scoped(w') && RegisteredOk(w') && JobOk(w') && ClosesOk(w') && ActiveRooted(w') && TakenOk(w')
            && SeenOk(w') && CurrentOk(w') && OwnTags(w') && BarrierOk(w')
  {
    hide Scoped, RegisteredOk, JobOk, ClosesOk, RecordsOk, SeenOk, ActiveRooted, TagsOk, OwnTags, CurrentOk,
      BarrierOk, TakenOk, MovesOn;
    assert MovesOn(w, d, Finished) by { FinishMoves(w, d); }
    MoveScoped(w, d, Finished);
    MoveRest(w, d, Finished);
    MoveSeen(w, d, Finished);
    MoveOwn(w, d, Finished);
    MoveCurrent(w, d, Finished);
    MoveBarrier(w, d, Finished);
    var p := w.threads[d].phase;
    StateRest(Move(w, d, Finished), p.st, Without(w.states[p.st], {p.tag}));
  }

  lemma FinishMoves(w: World, d: nat)
    requires d in w.threads
    ensures MovesOn(w, d, Finished)
  {
  }

  lemma MoveOwn(w: World, d: nat, p': Phase)
    requires OwnTags(w) && MovesOn(w, d, p')
    ensures OwnTags(Move(w, d, p'))
  {
  }

  /** The parts that do not look inside a delivery state. */
  lemma StateRest(w: World, st: nat, ch: Channel)
    requires st in w.states
    ensures var w' := w.(states := w.states[st := ch]);
            && (Scoped(w) ==> Scoped(w')) && (RegisteredOk(w) ==> RegisteredOk(w')) && (JobOk(w) ==> JobOk(w'))
            && (ClosesOk(w) ==> ClosesOk(w')) && (ActiveRooted(w) ==> ActiveRooted(w')) && (TakenOk(w) ==> TakenOk(w'))
            && (SeenOk(w) ==> SeenOk(w')) && (CurrentOk(w) ==> CurrentOk(w')) && (OwnTags(w) ==> OwnTags(w'))
            && (BarrierOk(w) ==> BarrierOk(w'))
  {
    StateRestOne(w, st, ch);
    StateJob(w, w.states[st := ch]);
    StateRestTwo(w, st, ch);
    hide *;
  }

  lemma StateRestOne(w: World, st: nat, ch: Channel)
    requires st in w.states
    ensures var w' := w.(states := w.states[st := ch]);
            && (Scoped(w) ==> Scoped(w')) && (RegisteredOk(w) ==> RegisteredOk(w'))
            && (ClosesOk(w) ==> ClosesOk(w')) && (ActiveRooted(w) ==> ActiveRooted(w'))
  {
    assert w.states[st := ch].Keys == w.states.Keys;
  }

  lemma StateJob(w: World, states: map<nat, Channel>)
    ensures JobOk(w) ==> JobOk(w.(states := states))
  {
  }

  lemma StateRestTwo(w: World, st: nat, ch: Channel)
    ensures var w' := w.(states := w.states[st := ch]);
            && (TakenOk(w) ==> TakenOk(w')) && (SeenOk(w) ==> SeenOk(w')) && (CurrentOk(w) ==> CurrentOk(w'))
            && (OwnTags(w) ==> OwnTags(w')) && (BarrierOk(w) ==> BarrierOk(w'))
  {
    var w' := w.(states := w.states[st := ch]);
    assert forall id :: Silent(w, id) ==> Silent(w', id);
    hide Silent;
  }

  lemma UndoneRecords(w: World, d: nat)
    requires d in w.threads && w.threads[d].phase.Undoing? && w.threads[d].phase.st in w.states && RecordsOk(w)
    ensures RecordsOk(Undone(w, d))
  {
  }

  lemma UndoneTags(w: World, d: nat)
    requires d in w.threads && w.threads[d].phase.Undoing? && w.threads[d].phase.st in w.states && TagsOk(w)
             && OwnTags(w)
    ensures TagsOk(Undone(w, d))
  {
    var w', p := Undone(w, d), w.threads[d].phase;
    forall id: nat, s: nat, tag: nat | Kept(w, id, s, tag) && (s != p.st || tag != p.tag) ensures Kept(w', id, s, tag) {
    }
    hide Kept;
  }

  // ---------------------------------------------------------------- queues and consumers come

  /** The parts about tags depend only on the states, the deliveries, and what is settled. */
  lemma TagsSame(w: World, w': World)
    requires w'.states == w.states && w'.wire == w.wire && w'.threads == w.threads && w'.subs == w.subs
             && w'.settled == w.settled
    ensures (TagsOk(w) ==> TagsOk(w')) && (OwnTags(w) ==> OwnTags(w'))
  {
    forall id, st, tag ensures Kept(w', id, st, tag) == Kept(w, id, st, tag) {
    }
    hide Kept, WellFormed;
  }

  lemma DeclareOk(w: World, queue: Name)
    requires Inv(w) && w.job.Idle? && queue !in w.queues
    ensures Inv(w.(queues := w.queues[queue := w.nextGen], nextGen := w.nextGen + 1))
  {
    hide Scoped, RegisteredOk, JobOk, ClosesOk, RecordsOk, SeenOk, ActiveRooted, TagsOk, OwnTags, CurrentOk,
      BarrierOk, TakenOk;
    var queues := w.queues[queue := w.nextGen];
    QueuesRest(w, queues, w.nextGen + 1);
    DeclareRooted(w, queue);
    DeclareRecords(w, queue);
  }

  /** The parts that do not mention queues. */
  lemma QueuesRest(w: World, queues: map<Name, nat>, nextGen: nat)
    ensures var w' := w.(queues := queues, nextGen := nextGen);
            && (Scoped(w) ==> Scoped(w')) && (RegisteredOk(w) ==> RegisteredOk(w')) && (ClosesOk(w) ==> ClosesOk(w'))
            && (TagsOk(w) ==> TagsOk(w')) && (OwnTags(w) ==> OwnTags(w')) && (CurrentOk(w) ==> CurrentOk(w'))
            && (BarrierOk(w) ==> BarrierOk(w')) && (TakenOk(w) ==> TakenOk(w'))
  {
    QueuesScoped(w, queues, nextGen);
    TagsSame(w, w.(queues := queues, nextGen := nextGen));
    QueuesClosing(w, queues, nextGen);
    hide *;
  }

  lemma QueuesScoped(w: World, queues: map<Name, nat>, nextGen: nat)
    ensures var w' := w.(queues := queues, nextGen := nextGen);
            (Scoped(w) ==> Scoped(w')) && (RegisteredOk(w) ==> RegisteredOk(w')) && (ClosesOk(w) ==> ClosesOk(w'))
  {
  }

  lemma QueuesClosing(w: World, queues: map<Name, nat>, nextGen: nat)
    ensures var w' := w.(queues := queues, nextGen := nextGen);
            (CurrentOk(w) ==> CurrentOk(w')) && (BarrierOk(w) ==> BarrierOk(w')) && (TakenOk(w) ==> TakenOk(w'))
  {
    assert forall id :: Silent(w.(queues := queues, nextGen := nextGen), id) == Silent(w, id);
    hide Silent;
  }

  lemma DeclareRooted(w: World, queue: Name)
    requires JobOk(w) && ActiveRooted(w) && SeenOk(w) && w.job.Idle? && queue !in w.queues
    ensures var w' := w.(queues := w.queues[queue := w.nextGen], nextGen := w.nextGen + 1);
            JobOk(w') && ActiveRooted(w') && SeenOk(w')
  {
  }

  lemma DeclareRecords(w: World, queue: Name)
    requires RecordsOk(w) && w.job.Idle? && queue !in w.queues
    ensures RecordsOk(w.(queues := w.queues[queue := w.nextGen], nextGen := w.nextGen + 1))
  {
    var w' := w.(queues := w.queues[queue := w.nextGen], nextGen := w.nextGen + 1);
    forall k, st, r | RecordOk(w, k, st, r) ensures RecordOk(w', k, st, r) {
    }
    hide RecordOk;
  }

  function Subscribed(w: World, id: nat, c: Sub): World {
    w.(subs := w.subs[id := c], active := w.active + {id}, registered := w.registered[c.Key() := id])
  }

  lemma SubscribedOk(w: World, id: nat, c: Sub)
    requires Inv(w) && w.job.Idle? && id !in w.subs && c.queue in w.queues && w.queues[c.queue] == c.gen
    requires c.Key() !in w.registered && !InProgress(w, c.home)
    ensures Inv(Subscribed(w, id, c))
  {
    hide Scoped, RegisteredOk, JobOk, ClosesOk, RecordsOk, SeenOk, ActiveRooted, TagsOk, OwnTags, CurrentOk,
      BarrierOk, TakenOk;
    SubscribedRegistered(w, id, c);
    SubscribedScoped(w, id, c);
    SubscribedRecords(w, id, c);
    SubscribedSeen(w, id, c);
    SubscribedTags(w, id, c);
    SubscribedCurrent(w, id, c);
    SubscribedBarrier(w, id, c);
  }

  lemma SubscribedRegistered(w: World, id: nat, c: Sub)
    requires Scoped(w) && RegisteredOk(w) && ClosesOk(w) && ActiveRooted(w) && w.job.Idle?
    requires id !in w.subs && c.queue in w.queues && w.queues[c.queue] == c.gen && c.Key() !in w.registered
             && !InProgress(w, c.home)
    ensures var w' := Subscribed(w, id, c); RegisteredOk(w') && ClosesOk(w') && ActiveRooted(w') && JobOk(w')
  {
  }

  lemma SubscribedScoped(w: World, id: nat, c: Sub)
    requires Scoped(w) && id !in w.subs
    ensures Scoped(Subscribed(w, id, c)) && (OwnTags(w) ==> OwnTags(Subscribed(w, id, c)))
  {
  }

  lemma SubscribedRecords(w: World, id: nat, c: Sub)
    requires RecordsOk(w) && w.job.Idle? && id !in w.subs
    ensures RecordsOk(Subscribed(w, id, c))
  {
    var w' := Subscribed(w, id, c);
    forall k, st, r | RecordOk(w, k, st, r) ensures RecordOk(w', k, st, r) {
    }
    hide RecordOk;
  }

  lemma SubscribedSeen(w: World, id: nat, c: Sub)
    requires Scoped(w) && SeenOk(w) && w.job.Idle? && id !in w.subs
    ensures SeenOk(Subscribed(w, id, c))
  {
  }

  lemma SubscribedTags(w: World, id: nat, c: Sub)
    requires Scoped(w) && TagsOk(w) && id !in w.subs
    ensures TagsOk(Subscribed(w, id, c))
  {
    var w' := Subscribed(w, id, c);
    forall i: nat, st: nat, tag: nat | Kept(w, i, st, tag) && i != id ensures Kept(w', i, st, tag) {
    }
    hide Kept, WellFormed;
  }

  lemma SubscribedCurrent(w: World, id: nat, c: Sub)
    requires Scoped(w) && CurrentOk(w) && id !in w.subs
    ensures CurrentOk(Subscribed(w, id, c))
  {
  }

  lemma SubscribedBarrier(w: World, id: nat, c: Sub)
    requires Scoped(w) && BarrierOk(w) && TakenOk(w) && id !in w.subs
    ensures BarrierOk(Subscribed(w, id, c)) && TakenOk(Subscribed(w, id, c))
  {
    var w' := Subscribed(w, id, c);
    forall i | Silent(w, i) ensures Silent(w', i) {
    }
    hide Silent;
  }

  // ---------------------------------------------------------------- settling

  function SettledIn(w: World, st: nat, tags: set<nat>): World
    requires st in w.states
  {
    w.(states := w.states[st := Without(w.states[st], tags)], settled := w.settled + (set t | t in tags :: (st, t)))
  }

  lemma SettledOk(w: World, st: nat, tags: set<nat>)
    requires Inv(w) && st in w.states
    ensures Inv(SettledIn(w, st, tags))
  {
    hide Scoped, RegisteredOk, JobOk, ClosesOk, RecordsOk, SeenOk, ActiveRooted, TagsOk, OwnTags, CurrentOk,
      BarrierOk, TakenOk;
    var ch := Without(w.states[st], tags);
    StateRest(w, st, ch);
    FewerRecords(w, st, tags);
    SettledTags(w, st, tags);
    MoreSettled(w.(states := w.states[st := ch]), w.settled + (set t | t in tags :: (st, t)));
  }

  lemma FewerRecords(w: World, st: nat, tags: set<nat>)
    requires st in w.states && RecordsOk(w)
    ensures RecordsOk(w.(states := w.states[st := Without(w.states[st], tags)]))
  {
    var w' := w.(states := w.states[st := Without(w.states[st], tags)]);
    forall k, s, r | RecordOk(w, k, s, r) ensures RecordOk(w', k, s, r) {
    }
    hide RecordOk;
  }

  /** The parts that do not mention what is settled, and that of what was taken. */
  lemma MoreSettled(w: World, settled: set<(nat, nat)>)
    requires w.settled <= settled
    ensures var w' := w.(settled := settled);
            && (Scoped(w) ==> Scoped(w')) && (RegisteredOk(w) ==> RegisteredOk(w')) && (JobOk(w) ==> JobOk(w'))
            && (ClosesOk(w) ==> ClosesOk(w')) && (ActiveRooted(w) ==> ActiveRooted(w')) && (TakenOk(w) ==> TakenOk(w'))
            && (SeenOk(w) ==> SeenOk(w')) && (CurrentOk(w) ==> CurrentOk(w')) && (OwnTags(w) ==> OwnTags(w'))
            && (BarrierOk(w) ==> BarrierOk(w')) && (RecordsOk(w) ==> RecordsOk(w'))
  {
    SettledOne(w, settled);
    SettledTwo(w, settled);
    SettledThree(w, settled);
    hide *;
  }

  lemma SettledOne(w: World, settled: set<(nat, nat)>)
    requires w.settled <= settled
    ensures var w' := w.(settled := settled);
            && (Scoped(w) ==> Scoped(w')) && (RegisteredOk(w) ==> RegisteredOk(w')) && (JobOk(w) ==> JobOk(w'))
            && (ClosesOk(w) ==> ClosesOk(w')) && (ActiveRooted(w) ==> ActiveRooted(w'))
  {
  }

  lemma SettledTwo(w: World, settled: set<(nat, nat)>)
    requires w.settled <= settled
    ensures var w' := w.(settled := settled);
            (TakenOk(w) ==> TakenOk(w')) && (SeenOk(w) ==> SeenOk(w')) && (CurrentOk(w) ==> CurrentOk(w'))
            && (OwnTags(w) ==> OwnTags(w'))
  {
  }

  lemma SettledThree(w: World, settled: set<(nat, nat)>)
    ensures var w' := w.(settled := settled); (BarrierOk(w) ==> BarrierOk(w')) && (RecordsOk(w) ==> RecordsOk(w'))
  {
    assert forall id :: Silent(w.(settled := settled), id) == Silent(w, id);
    hide Silent;
  }

  lemma SettledTags(w: World, st: nat, tags: set<nat>)
    requires st in w.states && TagsOk(w)
    ensures TagsOk(SettledIn(w, st, tags))
  {
    var w' := SettledIn(w, st, tags);
    forall id: nat, s: nat, tag: nat | Kept(w, id, s, tag) ensures Kept(w', id, s, tag) {
      if s == st && tag in tags { assert (st, tag) in w'.settled; }
    }
    hide Kept;
  }

  // ---------------------------------------------------------------- the holder of the host's mu

  /** The parts that mention neither the job, nor queues, nor which consumers are active. */
  lemma JobRest(w: World, job: Job)
    ensures var w' := w.(job := job);
            && (Scoped(w) ==> Scoped(w')) && (RegisteredOk(w) ==> RegisteredOk(w')) && (TagsOk(w) ==> TagsOk(w'))
            && (OwnTags(w) ==> OwnTags(w')) && (CurrentOk(w) ==> CurrentOk(w')) && (BarrierOk(w) ==> BarrierOk(w'))
            && (TakenOk(w) ==> TakenOk(w'))
  {
    JobScoped(w, job);
    TagsSame(w, w.(job := job));
    JobClosing(w, job);
    hide *;
  }

  lemma JobScoped(w: World, job: Job)
    ensures var w' := w.(job := job);
            (Scoped(w) ==> Scoped(w')) && (RegisteredOk(w) ==> RegisteredOk(w')) && (OwnTags(w) ==> OwnTags(w'))
  {
  }

  lemma JobClosing(w: World, job: Job)
    ensures var w' := w.(job := job);
            (CurrentOk(w) ==> CurrentOk(w')) && (BarrierOk(w) ==> BarrierOk(w')) && (TakenOk(w) ==> TakenOk(w'))
  {
    assert forall id :: Silent(w.(job := job), id) == Silent(w, id);
    hide Silent;
  }

  /** Whatever was covered or rooted in a state that a channel has still is. */
  ghost predicate CoverKept(w: World, w': World) {
    && w'.subs == w.subs && w'.channels == w.channels && w'.states == w.states && w'.threads == w.threads
    && (forall id, k | k in w.channels && Covered(w, id, w.channels[k]) :: Covered(w', id, w.channels[k]))
    && (forall id, k | k in w.channels && Rooted(w, id, w.channels[k]) :: Rooted(w', id, w.channels[k]))
  }

  lemma CoverRecords(w: World, w': World)
    requires CoverKept(w, w') && RecordsOk(w)
    ensures RecordsOk(w')
  {
    hide Covered, Rooted;
    forall k, t | k in w.channels && w.channels[k] in w.states && t in w.states[w.channels[k]].records
      ensures RecordOk(w', k, w.channels[k], w.states[w.channels[k]].records[t])
    {
      assert RecordOk(w, k, w.channels[k], w.states[w.channels[k]].records[t]);
    }
  }

  lemma CoverSeen(w: World, w': World)
    requires CoverKept(w, w') && SeenOk(w)
    ensures SeenOk(w')
  {
    hide Covered, Rooted;
  }

  /** A change of the job alone. */
  lemma JobOnly(w: World, job: Job)
    requires Inv(w)
    requires var w' := w.(job := job); JobOk(w') && ClosesOk(w') && ActiveRooted(w') && CoverKept(w, w')
    ensures Inv(w.(job := job))
  {
    hide Scoped, RegisteredOk, JobOk, ClosesOk, RecordsOk, SeenOk, ActiveRooted, TagsOk, OwnTags, CurrentOk,
      BarrierOk, TakenOk, CoverKept;
    JobRest(w, job);
    CoverRecords(w, w.(job := job));
    CoverSeen(w, w.(job := job));
  }

  lemma StartCancelOk(w: World, id: nat)
    requires Inv(w) && w.job.Idle? && id in w.active
    ensures Inv(w.(job := Busy({id}, None, None, {}, {}, None)))
  {
    var job := Busy({id}, None, None, {}, {}, None);
    assert JobOk(w.(job := job)) && ClosesOk(w.(job := job)) && ActiveRooted(w.(job := job))
      && CoverKept(w, w.(job := job)) by {
      hide RecordsOk, SeenOk, TagsOk, OwnTags, CurrentOk, BarrierOk, TakenOk;
    }
    hide *;
    JobOnly(w, job);
  }

  lemma EndDeleteOk(w: World)
    requires Inv(w) && w.job.Busy? && w.job.deleting.Some? && w.job.deactivating == {} && w.job.marking == {}
    ensures Inv(w.(job := w.job.(deleting := None)))
  {
    assert JobOk(w) && ClosesOk(w) && ActiveRooted(w);
    hide Inv;
    EndDeleteJob(w);
    hide *;
    JobOnly(w, w.job.(deleting := None));
  }

  lemma EndDeleteJob(w: World)
    requires JobOk(w) && ClosesOk(w) && ActiveRooted(w)
    requires w.job.Busy? && w.job.deleting.Some? && w.job.deactivating == {} && w.job.marking == {}
    ensures var w' := w.(job := w.job.(deleting := None));
            JobOk(w') && ClosesOk(w') && ActiveRooted(w') && CoverKept(w, w')
  {
  }

  // ---------------------------------------------------------------- consumers are deactivated

  lemma DeactivatedRest(w: World, id: nat)
    requires id in w.subs && Scoped(w) && RegisteredOk(w)
    ensures var w' := Deactivated(w, id); Scoped(w') && RegisteredOk(w')
  {
  }

  lemma DeactivatedSame(w: World, id: nat)
    requires id in w.subs
    ensures Deactivated(w, id) == w.(active := w.active - {id}, registered := Deactivated(w, id).registered)
  {
  }

  lemma DeactivatedClosing(w: World, id: nat)
    requires id in w.subs && CurrentOk(w) && BarrierOk(w) && TakenOk(w)
    ensures var w' := Deactivated(w, id); CurrentOk(w') && BarrierOk(w') && TakenOk(w')
  {
    var w' := Deactivated(w, id);
    assert forall i :: Silent(w, i) ==> Silent(w', i);
    assert forall i :: Current(w', i) ==> Current(w, i);
    hide Silent, Current;
  }

  /** A consumer that is cancelled or loses its queue, with what the job then has to do. */
  lemma DeactivatedOk(w: World, id: nat, job: Job)
    requires Inv(w) && id in w.subs
    requires var w' := Deactivated(w, id).(job := job);
             JobOk(w') && ClosesOk(w') && ActiveRooted(w') && CoverKept(w, w')
    ensures Inv(Deactivated(w, id).(job := job))
  {
    hide Scoped, RegisteredOk, JobOk, ClosesOk, RecordsOk, SeenOk, ActiveRooted, TagsOk, OwnTags, CurrentOk,
      BarrierOk, TakenOk, CoverKept, Deactivated;
    DeactivatedRest(w, id);
    DeactivatedSame(w, id);
    TagsSame(w, Deactivated(w, id));
    DeactivatedClosing(w, id);
    JobRest(Deactivated(w, id), job);
    CoverRecords(w, Deactivated(w, id).(job := job));
    CoverSeen(w, Deactivated(w, id).(job := job));
  }

  lemma CancelNextOk(w: World, id: nat)
    requires Inv(w) && w.job.Busy? && id in w.job.cancels && w.job.detaching == None && w.job.deleting == None
             && id in w.subs
    ensures Inv(Deactivated(w, id).(job := w.job.(cancels := w.job.cancels - {id}, detaching := Some(id))))
  {
    var job := w.job.(cancels := w.job.cancels - {id}, detaching := Some(id));
    assert JobOk(w) && ClosesOk(w) && ActiveRooted(w);
    CancelNextJob(w, id);
    hide *;
    DeactivatedOk(w, id, job);
  }

  lemma CancelNextJob(w: World, id: nat)
    requires JobOk(w) && ClosesOk(w) && ActiveRooted(w)
    requires w.job.Busy? && id in w.job.cancels && w.job.detaching == None && w.job.deleting == None && id in w.subs
    ensures var w' := Deactivated(w, id).(job := w.job.(cancels := w.job.cancels - {id}, detaching := Some(id)));
            JobOk(w') && ClosesOk(w') && ActiveRooted(w') && CoverKept(w, w')
  {
  }

  lemma DeactivateNextOk(w: World, id: nat)
    requires Inv(w) && w.job.Busy? && w.job.deleting.Some? && id in w.job.deactivating && id in w.subs
    ensures Inv(Deactivated(w, id).(job := w.job.(deactivating := w.job.deactivating - {id})))
  {
    var job := w.job.(deactivating := w.job.deactivating - {id});
    assert JobOk(w) && ClosesOk(w) && ActiveRooted(w);
    DeactivateNextJob(w, id);
    hide *;
    DeactivatedOk(w, id, job);
  }

  /** Every state of a channel is still to be marked while consumers are being deactivated. */
  lemma DeactivateNextJob(w: World, id: nat)
    requires JobOk(w) && ClosesOk(w) && ActiveRooted(w)
    requires w.job.Busy? && w.job.deleting.Some? && id in w.job.deactivating && id in w.subs
    ensures var w' := Deactivated(w, id).(job := w.job.(deactivating := w.job.deactivating - {id}));
            JobOk(w') && ClosesOk(w') && ActiveRooted(w') && CoverKept(w, w')
  {
    forall k | k in w.channels ensures w.channels[k] in w.job.marking {
      assert w.channels[k] in w.channels.Values;
    }
  }

  // ---------------------------------------------------------------- a queue is deleted

  lemma StartDeleteOk(w: World, queue: Name)
    requires Inv(w) && w.job.Idle? && queue in w.queues
    ensures Inv(w.(queues := w.queues - {queue},
                   job := Busy({}, None, Some(queue), OnQueue(w, queue), w.channels.Values, None)))
  {
    assert Scoped(w) && RegisteredOk(w) && JobOk(w) && ClosesOk(w) && ActiveRooted(w);
    StartDeleteJob(w, queue);
    hide *;
    QueueGoes(w, queue, Busy({}, None, Some(queue), OnQueue(w, queue), w.channels.Values, None));
  }

  lemma QueueGoes(w: World, queue: Name, job: Job)
    requires Inv(w)
    requires var w' := w.(queues := w.queues - {queue}, job := job);
             JobOk(w') && ClosesOk(w') && ActiveRooted(w') && CoverKept(w, w')
    ensures Inv(w.(queues := w.queues - {queue}, job := job))
  {
    hide Scoped, RegisteredOk, JobOk, ClosesOk, RecordsOk, SeenOk, ActiveRooted, TagsOk, OwnTags, CurrentOk,
      BarrierOk, TakenOk, CoverKept;
    var w1 := w.(queues := w.queues - {queue}, nextGen := w.nextGen);
    assert w1 == w.(queues := w.queues - {queue});
    QueuesRest(w, w.queues - {queue}, w.nextGen);
    JobRest(w1, job);
    CoverRecords(w, w1.(job := job));
    CoverSeen(w, w1.(job := job));
  }

  lemma StartDeleteJob(w: World, queue: Name)
    requires RegisteredOk(w) && JobOk(w) && ClosesOk(w) && ActiveRooted(w) && w.job.Idle? && queue in w.queues
    ensures var w' := w.(queues := w.queues - {queue},
                         job := Busy({}, None, Some(queue), OnQueue(w, queue), w.channels.Values, None));
            JobOk(w') && ClosesOk(w') && ActiveRooted(w') && CoverKept(w, w')
  {
    forall k | k in w.channels ensures w.channels[k] in w.channels.Values {
    }
  }

  // ---------------------------------------------------------------- deliveries are detached and marked

  function DetachedTag(w: World, c: Sub): World {
    if c.home in w.channels && w.channels[c.home] in w.states then
      w.(states := w.states[w.channels[c.home] := DetachConsumer(w.states[w.channels[c.home]], c.tag)])
    else w
  }

  ghost predicate CanDetach(w: World) {
    && w.job.Busy? && w.job.detaching.Some? && w.job.detaching.value in w.subs
    && var c := w.subs[w.job.detaching.value];
       c.home in w.channels ==> w.channels[c.home] in w.states && StateFree(w, w.channels[c.home])
  }

  lemma DetachedOk(w: World)
    requires Inv(w) && CanDetach(w)
    ensures Inv(DetachedTag(w, w.subs[w.job.detaching.value]).(job := w.job.(detaching := None)))
  {
    hide Scoped, RegisteredOk, JobOk, ClosesOk, RecordsOk, SeenOk, ActiveRooted, TagsOk, OwnTags, CurrentOk,
      BarrierOk, TakenOk;
    var c := w.subs[w.job.detaching.value];
    var job := w.job.(detaching := None);
    DetachedRecords(w);
    DetachedSeen(w);
    DetachedJob(w);
    if c.home in w.channels {
      var st := w.channels[c.home];
      StateRest(w, st, DetachConsumer(w.states[st], c.tag));
      SameRecordsTags(w, st, DetachConsumer(w.states[st], c.tag));
    }
    JobRest(DetachedTag(w, c), job);
  }

  /** A state whose records keep their tags and owners. */
  lemma SameRecordsTags(w: World, st: nat, ch: Channel)
    requires st in w.states && TagsOk(w) && ch.last == w.states[st].last && ch.records.Keys == w.states[st].records.Keys
    requires forall t | t in ch.records ::
               ch.records[t]
                 == w.states[st].records[t].(queueDeleted := ch.records[t].queueDeleted,
                                             consumerCancelled := ch.records[t].consumerCancelled)
    requires WellFormed(w.states[st]) ==> WellFormed(ch)
    ensures TagsOk(w.(states := w.states[st := ch]))
  {
    var w' := w.(states := w.states[st := ch]);
    forall id, s, tag | Kept(w, id, s, tag) ensures Kept(w', id, s, tag) {
    }
    hide Kept, WellFormed;
  }

  lemma DetachedJob(w: World)
    requires Scoped(w) && JobOk(w) && ClosesOk(w) && ActiveRooted(w) && CanDetach(w)
    ensures var w' := DetachedTag(w, w.subs[w.job.detaching.value]).(job := w.job.(detaching := None));
            JobOk(w') && ClosesOk(w') && ActiveRooted(w')
  {
    hide DetachConsumer, StateFree;
  }

  lemma DetachedRecord(w: World, k: ChannelKey, r: Record)
    requires k in w.channels && RecordOk(w, k, w.channels[k], r) && CanDetach(w)
    ensures var c := w.subs[w.job.detaching.value];
            RecordOk(w.(job := w.job.(detaching := None)), k, w.channels[k], if k == c.home then Cancelled(r, c.tag)
                     else r)
  {
    hide StateFree;
  }

  /** The deliveries of the consumer are the ones that are detached. */
  lemma DetachedRecords(w: World)
    requires Scoped(w) && RecordsOk(w) && CanDetach(w)
    ensures RecordsOk(DetachedTag(w, w.subs[w.job.detaching.value]).(job := w.job.(detaching := None)))
  {
    var c := w.subs[w.job.detaching.value];
    var w1, w' := w.(job := w.job.(detaching := None)), DetachedTag(w, c).(job := w.job.(detaching := None));
    assert forall j, k | j in w.channels && k in w.channels && w.channels[j] == w.channels[k] :: j == k;
    hide StateFree, Scoped;
    forall k, t | k in w'.channels && w'.channels[k] in w'.states && t in w'.states[w'.channels[k]].records
      ensures RecordOk(w', k, w'.channels[k], w'.states[w'.channels[k]].records[t])
    {
      DetachedRecord(w, k, w.states[w.channels[k]].records[t]);
      SameCover(w1, w', k, w'.states[w'.channels[k]].records[t]);
    }
  }

  /** Whether a record is in order does not depend on what the states hold. */
  lemma SameCover(w: World, w': World, k: ChannelKey, r: Record)
    requires k in w.channels && w' == w.(states := w'.states) && RecordOk(w, k, w.channels[k], r)
    ensures RecordOk(w', k, w.channels[k], r)
  {
  }

  lemma DetachedSeen(w: World)
    requires Scoped(w) && JobOk(w) && SeenOk(w) && CanDetach(w)
    ensures SeenOk(DetachedTag(w, w.subs[w.job.detaching.value]).(job := w.job.(detaching := None)))
  {
    hide DetachConsumer;
  }

  /** The auto-delete of the queue that the cancelled consumer leaves empty. */
  lemma AutoDeleteOk(w: World, queue: Name)
    requires Inv(w) && w.job.Busy? && w.job.detaching == None && w.job.deleting == None && queue in w.queues
             && OnQueue(w, queue) == {}
    ensures Inv(w.(queues := w.queues - {queue}, job := w.job.(deleting := Some(queue), marking := w.channels.Values)))
  {
    assert Scoped(w) && RegisteredOk(w) && JobOk(w) && ClosesOk(w) && ActiveRooted(w);
    AutoDeleteJob(w, queue);
    hide *;
    QueueGoes(w, queue, w.job.(deleting := Some(queue), marking := w.channels.Values));
  }

  lemma AutoDeleteJob(w: World, queue: Name)
    requires JobOk(w) && ClosesOk(w) && ActiveRooted(w) && w.job.Busy? && w.job.detaching == None
             && w.job.deleting == None
    requires queue in w.queues && OnQueue(w, queue) == {}
    ensures var w' := w.(queues := w.queues - {queue},
                         job := w.job.(deleting := Some(queue), marking := w.channels.Values));
            JobOk(w') && ClosesOk(w') && ActiveRooted(w') && CoverKept(w, w')
  {
    forall k | k in w.channels ensures w.channels[k] in w.channels.Values {
    }
    forall id | id in w.active && id in w.subs ensures w.subs[id].queue != queue {
      assert id !in OnQueue(w, queue);
    }
  }

  function MarkedIn(w: World, st: nat): World
    requires w.job.Busy? && w.job.deleting.Some? && st in w.states
  {
    w.(states := w.states[st := DetachQueue(w.states[st], w.job.deleting.value)],
       job := w.job.(marking := w.job.marking - {st}))
  }

  ghost predicate CanMark(w: World, st: nat) {
    w.job.Busy? && w.job.deleting.Some? && w.job.deactivating == {} && st in w.job.marking && st in w.states
    && StateFree(w, st)
  }

  lemma MarkedOk(w: World, st: nat)
    requires Inv(w) && CanMark(w, st)
    ensures Inv(MarkedIn(w, st))
  {
    hide Scoped, RegisteredOk, JobOk, ClosesOk, RecordsOk, SeenOk, ActiveRooted, TagsOk, OwnTags, CurrentOk,
      BarrierOk, TakenOk;
    var ch := DetachQueue(w.states[st], w.job.deleting.value);
    StateRest(w, st, ch);
    SameRecordsTags(w, st, ch);
    JobRest(w.(states := w.states[st := ch]), w.job.(marking := w.job.marking - {st}));
    MarkedJob(w, st);
    MarkedRecords(w, st);
    MarkedSeen(w, st);
  }

  lemma MarkedJob(w: World, st: nat)
    requires JobOk(w) && ClosesOk(w) && ActiveRooted(w) && CanMark(w, st)
    ensures var w' := MarkedIn(w, st); JobOk(w') && ClosesOk(w') && ActiveRooted(w')
  {
    hide StateFree;
  }

  lemma MarkedRecords(w: World, st: nat)
    requires Scoped(w) && RecordsOk(w) && CanMark(w, st)
    ensures RecordsOk(MarkedIn(w, st))
  {
    hide StateFree;
    var w' := MarkedIn(w, st);
    forall k, t | k in w'.channels && w'.channels[k] in w'.states && t in w'.states[w'.channels[k]].records
      ensures RecordOk(w', k, w'.channels[k], w'.states[w'.channels[k]].records[t])
    {
      assert RecordOk(w, k, w.channels[k], w.states[w.channels[k]].records[t]);
    }
  }

  lemma MarkedSeen(w: World, st: nat)
    requires SeenOk(w) && CanMark(w, st)
    ensures SeenOk(MarkedIn(w, st))
  {
    hide DetachQueue;
  }

  // ---------------------------------------------------------------- the close

  /** The parts that do not mention closes. */
  lemma ClosesRest(w: World, closes: map<ChannelKey, Close>)
    ensures var w' := w.(closes := closes);
            && (RegisteredOk(w) ==> RegisteredOk(w')) && (JobOk(w) ==> JobOk(w'))
            && (ActiveRooted(w) ==> ActiveRooted(w'))
            && (RecordsOk(w) ==> RecordsOk(w')) && (SeenOk(w) ==> SeenOk(w')) && (TagsOk(w) ==> TagsOk(w'))
            && (OwnTags(w) ==> OwnTags(w'))
  {
    ClosesRestOne(w, closes);
    ClosesRestTwo(w, closes);
    TagsSame(w, w.(closes := closes));
    hide *;
  }

  lemma ClosesRestOne(w: World, closes: map<ChannelKey, Close>)
    ensures var w' := w.(closes := closes);
            (RegisteredOk(w) ==> RegisteredOk(w')) && (JobOk(w) ==> JobOk(w'))
            && (ActiveRooted(w) ==> ActiveRooted(w')) && (OwnTags(w) ==> OwnTags(w'))
  {
  }

  lemma ClosesRestTwo(w: World, closes: map<ChannelKey, Close>)
    ensures var w' := w.(closes := closes); (RecordsOk(w) ==> RecordsOk(w')) && (SeenOk(w) ==> SeenOk(w'))
  {
  }

  function Closing(w: World, key: ChannelKey, c: Close): World {
    w.(closes := w.closes[key := c])
  }

  lemma ClosingOk(w: World, key: ChannelKey, c: Close)
    requires Inv(w)
    requires var w' := Closing(w, key, c);
             Scoped(w') && ClosesOk(w') && CurrentOk(w') && BarrierOk(w') && TakenOk(w')
    ensures Inv(Closing(w, key, c))
  {
    hide Scoped, RegisteredOk, JobOk, ClosesOk, RecordsOk, SeenOk, ActiveRooted, TagsOk, OwnTags, CurrentOk,
      BarrierOk, TakenOk;
    ClosesRest(w, w.closes[key := c]);
  }

  function Started(w: World, key: ChannelKey, subs: set<nat>): World {
    w.(job := Busy(subs, None, None, {}, {}, Some(key)), closes := w.closes[key := Cancelling(subs)])
  }

  lemma StartedOk(w: World, key: ChannelKey)
    requires Inv(w) && w.job.Idle? && !InProgress(w, key)
    ensures Inv(Started(w, key, OnChannel(w, key)))
  {
    hide Scoped, RegisteredOk, JobOk, ClosesOk, RecordsOk, SeenOk, ActiveRooted, TagsOk, OwnTags, CurrentOk,
      BarrierOk, TakenOk, CoverKept;
    var subs := OnChannel(w, key);
    var job := Busy(subs, None, None, {}, {}, Some(key));
    StartedJob(w, key);
    StartedClosing(w, key);
    ClosesRest(w, w.closes[key := Cancelling(subs)]);
    JobRest(Closing(w, key, Cancelling(subs)), job);
    CoverRecords(w, Started(w, key, subs));
    CoverSeen(w, Started(w, key, subs));
  }

  lemma StartedJob(w: World, key: ChannelKey)
    requires JobOk(w) && ClosesOk(w) && ActiveRooted(w) && w.job.Idle? && !InProgress(w, key)
    ensures var w' := Started(w, key, OnChannel(w, key));
            JobOk(w') && ClosesOk(w') && ActiveRooted(w') && CoverKept(w, w')
  {
  }

  lemma StartedClosing(w: World, key: ChannelKey)
    requires Scoped(w) && CurrentOk(w) && BarrierOk(w) && TakenOk(w)
    ensures var w' := Closing(w, key, Cancelling(OnChannel(w, key)));
            Scoped(w') && CurrentOk(w') && BarrierOk(w') && TakenOk(w')
  {
    var w' := Closing(w, key, Cancelling(OnChannel(w, key)));
    assert forall id :: Silent(w', id) == Silent(w, id);
    forall id | Current(w', id) ensures Current(w, id) {
    }
    hide Silent, Current;
  }

  lemma ReleasedOk(w: World)
    requires Inv(w) && Can(w, Release) && w.job.closing == None
    ensures Inv(w.(job := Idle))
  {
    assert JobOk(w.(job := Idle)) && ClosesOk(w.(job := Idle)) && ActiveRooted(w.(job := Idle))
      && CoverKept(w, w.(job := Idle)) by {
      hide RecordsOk, SeenOk, TagsOk, OwnTags, CurrentOk, BarrierOk, TakenOk;
    }
    hide *;
    JobOnly(w, Idle);
  }

  function Closed(w: World, key: ChannelKey, subs: set<nat>): World {
    w.(job := Idle, closes := w.closes[key := Barrier(subs, subs)])
  }

  ghost predicate CanClose(w: World, key: ChannelKey) {
    && w.job.Busy? && w.job.cancels == {} && w.job.detaching == None && w.job.deleting == None
    && w.job.closing == Some(key) && key in w.closes && w.closes[key].Cancelling?
  }

  lemma ClosedOk(w: World, key: ChannelKey)
    requires Inv(w) && CanClose(w, key)
    ensures Inv(Closed(w, key, w.closes[key].subs))
  {
    hide Scoped, RegisteredOk, JobOk, ClosesOk, RecordsOk, SeenOk, ActiveRooted, TagsOk, OwnTags, CurrentOk,
      BarrierOk, TakenOk, CoverKept;
    var subs := w.closes[key].subs;
    ClosedJob(w, key);
    ClosedClosing(w, key);
    ClosesRest(w, w.closes[key := Barrier(subs, subs)]);
    JobRest(Closing(w, key, Barrier(subs, subs)), Idle);
    CoverRecords(w, Closed(w, key, subs));
    CoverSeen(w, Closed(w, key, subs));
  }

  /** Nothing is active on the channel once its consumers have been cancelled. */
  lemma ClosedJob(w: World, key: ChannelKey)
    requires JobOk(w) && ClosesOk(w) && ActiveRooted(w) && CanClose(w, key)
    ensures var w' := Closed(w, key, w.closes[key].subs);
            JobOk(w') && ClosesOk(w') && ActiveRooted(w') && CoverKept(w, w')
  {
  }

  lemma ClosedClosing(w: World, key: ChannelKey)
    requires Scoped(w) && CurrentOk(w) && BarrierOk(w) && TakenOk(w) && CanClose(w, key)
    ensures var w' := Closing(w, key, Barrier(w.closes[key].subs, w.closes[key].subs));
            Scoped(w') && CurrentOk(w') && BarrierOk(w') && TakenOk(w')
  {
    var w' := Closing(w, key, Barrier(w.closes[key].subs, w.closes[key].subs));
    assert forall id :: Silent(w', id) == Silent(w, id);
    assert forall id :: Current(w', id) == Current(w, id);
    hide Silent, Current;
  }

  lemma PassedOk(w: World, key: ChannelKey, id: nat)
    requires Inv(w) && Can(w, Pass(key, id))
    ensures Inv(Closing(w, key, Barrier(w.closes[key].subs, w.closes[key].left - {id})))
  {
    assert Scoped(w) && ClosesOk(w) && CurrentOk(w) && BarrierOk(w) && TakenOk(w);
    hide Inv, RecordsOk, SeenOk, TagsOk, OwnTags;
    PassedClosing(w, key, id);
    hide *;
    ClosingOk(w, key, Barrier(w.closes[key].subs, w.closes[key].left - {id}));
  }

  /** An inactive consumer whose sendMu is free has nothing more to write. */
  lemma PassedClosing(w: World, key: ChannelKey, id: nat)
    requires Scoped(w) && ClosesOk(w) && CurrentOk(w) && BarrierOk(w) && TakenOk(w)
    requires key in w.closes && w.closes[key].Barrier? && id in w.closes[key].left && SendFree(w, id)
    ensures var w' := Closing(w, key, Barrier(w.closes[key].subs, w.closes[key].left - {id}));
            Scoped(w') && ClosesOk(w') && CurrentOk(w') && BarrierOk(w') && TakenOk(w')
  {
    var w' := Closing(w, key, Barrier(w.closes[key].subs, w.closes[key].left - {id}));
    assert id in w.closes[key].subs && InProgress(w, w.subs[id].home);
    assert Silent(w, id);
    assert forall i :: Silent(w', i) == Silent(w, i);
    assert forall i :: Current(w', i) == Current(w, i);
    hide Silent, Current, SendFree;
  }

  function TakenState(w: World, key: ChannelKey, subs: set<nat>, taken: map<nat, Record>): World {
    w.(channels := w.channels - {key}, closes := w.closes[key := Returned(subs, taken)])
  }

  ghost predicate CanTake(w: World, key: ChannelKey, taken: map<nat, Record>) {
    && w.job.Idle? && key in w.closes && w.closes[key].Barrier? && w.closes[key].left == {}
    && (key in w.channels ==> w.channels[key] in w.states)
    && taken == if key in w.channels then w.states[w.channels[key]].records else map[]
  }

  lemma TakenAllOk(w: World, key: ChannelKey, taken: map<nat, Record>)
    requires Inv(w) && CanTake(w, key, taken)
    ensures Inv(TakenState(w, key, w.closes[key].subs, taken))
  {
    hide Scoped, RegisteredOk, JobOk, ClosesOk, RecordsOk, SeenOk, ActiveRooted, TagsOk, OwnTags, CurrentOk,
      BarrierOk, TakenOk;
    TakenRest(w, key, taken);
    TagsSame(w, TakenState(w, key, w.closes[key].subs, taken));
    TakenRecords(w, key, taken);
    TakenClosing(w, key, taken);
    TakenCurrent(w, key, taken);
    TakenFrames(w, key, taken);
  }

  lemma TakenRest(w: World, key: ChannelKey, taken: map<nat, Record>)
    requires CanTake(w, key, taken) && Scoped(w) && RegisteredOk(w) && ClosesOk(w) && ActiveRooted(w)
    ensures var w' := TakenState(w, key, w.closes[key].subs, taken);
            Scoped(w') && RegisteredOk(w') && JobOk(w') && ClosesOk(w') && ActiveRooted(w')
  {
  }

  lemma TakenRecords(w: World, key: ChannelKey, taken: map<nat, Record>)
    requires CanTake(w, key, taken) && RecordsOk(w) && SeenOk(w)
    ensures var w' := TakenState(w, key, w.closes[key].subs, taken); RecordsOk(w') && SeenOk(w')
  {
    var w' := TakenState(w, key, w.closes[key].subs, taken);
    forall k, st, r | RecordOk(w, k, st, r) ensures RecordOk(w', k, st, r) {
    }
    hide RecordOk;
  }

  lemma TakenClosing(w: World, key: ChannelKey, taken: map<nat, Record>)
    requires CanTake(w, key, taken) && BarrierOk(w)
    ensures BarrierOk(TakenState(w, key, w.closes[key].subs, taken))
  {
    var w' := TakenState(w, key, w.closes[key].subs, taken);
    assert forall id :: Silent(w', id) == Silent(w, id);
    assert forall id :: Passed(w'.closes[key], id) == Passed(w.closes[key], id);
    hide Silent;
  }

  /** No consumer of the channel is current any more. */
  lemma TakenCurrent(w: World, key: ChannelKey, taken: map<nat, Record>)
    requires CanTake(w, key, taken) && ClosesOk(w) && CurrentOk(w)
    ensures CurrentOk(TakenState(w, key, w.closes[key].subs, taken))
  {
    var w' := TakenState(w, key, w.closes[key].subs, taken);
    forall id | Current(w', id) ensures Current(w, id) && w.subs[id].home != key {
    }
    hide Current;
  }

  /** What was written to the closed channel's consumers is in the state taken. */
  lemma TakenFrames(w: World, key: ChannelKey, taken: map<nat, Record>)
    requires CanTake(w, key, taken) && Scoped(w) && TagsOk(w) && CurrentOk(w) && TakenOk(w)
    ensures TakenOk(TakenState(w, key, w.closes[key].subs, taken))
  {
    forall f | f in w.wire && f.sub in w.closes[key].subs
      ensures f.sub in w.subs && Mapped(w, f.sub, f.st) && w.subs[f.sub].home == key && Kept(w, f.sub, f.st, f.tag)
    {
      assert Current(w, f.sub);
    }
  }

  // ---------------------------------------------------------------- the client is told of a cancel

  lemma NoticesOne(w: World, notices: seq<Notice>)
    requires Scoped(w) && RegisteredOk(w) && ActiveRooted(w) && SeenOk(w) && RecordsOk(w)
    ensures var w' := w.(notices := notices);
            Scoped(w') && RegisteredOk(w') && ActiveRooted(w') && SeenOk(w') && RecordsOk(w')
  {
    var w' := w.(notices := notices);
    NoticesRecords(w, notices);
    NoticesSeen(w, notices);
    hide RecordsOk, SeenOk;
  }

  lemma NoticesRecords(w: World, notices: seq<Notice>)
    requires RecordsOk(w)
    ensures RecordsOk(w.(notices := notices))
  {
  }

  lemma NoticesSeen(w: World, notices: seq<Notice>)
    requires SeenOk(w)
    ensures SeenOk(w.(notices := notices))
  {
  }

  lemma NoticesTwo(w: World, notices: seq<Notice>)
    requires JobOk(w) && ClosesOk(w) && CurrentOk(w) && TakenOk(w) && OwnTags(w)
    ensures var w' := w.(notices := notices); JobOk(w') && ClosesOk(w') && CurrentOk(w') && TakenOk(w') && OwnTags(w')
  {
  }

  lemma NoticesThree(w: World, notices: seq<Notice>)
    requires TagsOk(w) && BarrierOk(w)
    ensures var w' := w.(notices := notices); TagsOk(w') && BarrierOk(w')
  {
    var w' := w.(notices := notices);
    assert forall id, st, tag :: Kept(w, id, st, tag) ==> Kept(w', id, st, tag);
    assert forall id :: Silent(w, id) ==> Silent(w', id);
    hide Kept, Silent, WellFormed;
  }

  lemma NotifiedOk(w: World, notices: seq<Notice>)
    requires Inv(w)
    ensures Inv(w.(notices := notices))
  {
    hide Scoped, RegisteredOk, JobOk, ClosesOk, RecordsOk, SeenOk, ActiveRooted, TagsOk, OwnTags, CurrentOk,
      BarrierOk, TakenOk;
    NoticesOne(w, notices);
    NoticesTwo(w, notices);
    NoticesThree(w, notices);
  }

  // ---------------------------------------------------------------- every event

  ghost predicate OfDelivery(e: Event) {
    e.Begin? || e.LockSend? || e.Check? || e.Fetch? || e.Enter? || e.Recheck? || e.Track? || e.Send? || e.UnlockSend?
    || e.Undo?
  }

  lemma DeliveryStep(w: World, e: Event)
    requires Inv(w) && Can(w, e) && OfDelivery(e)
    ensures Inv(Do(w, e))
  {
    hide Inv, Tracks, SendFree, StateFree, InProgress;
    match e
    case Begin(d, sub, msg) => BeginOk(w, d, sub, msg);
    case LockSend(d) => MoveOk(w, d, Locked);
    case Check(d) => MoveOk(w, d, if w.threads[d].sub in w.active then Checked else Finished);
    case Fetch(d, made) => FetchOk(w, d, made);
    case Enter(d) => MoveOk(w, d, Entered(w.threads[d].phase.st));
    case Recheck(d) => MoveOk(w, d, if w.threads[d].sub in w.active then Seen(w.threads[d].phase.st) else Finished);
    case Track(d) => TrackOk(w, d);
    case Send(d, ok) =>
      if ok { SentOk(w, d); } else { MoveOk(w, d, Failed(w.threads[d].phase.st, w.threads[d].phase.tag)); }
    case UnlockSend(d) =>
      var p := w.threads[d].phase;
      MoveOk(w, d, if p.Failed? && !TagOnly(w, d) then Undoing(p.st, p.tag) else Finished);
    case Undo(d) => UndoneOk(w, d);
  }

  lemma DetachStep(w: World, autoDelete: bool)
    requires Inv(w) && Can(w, DetachNow(autoDelete))
    ensures Inv(Do(w, DetachNow(autoDelete)))
  {
    DetachMeans(w, autoDelete);
    NothingDeleting(w);
    hide *;
    DetachedOk(w);
    if autoDelete {
      AutoDeleteOk(DetachedTag(w, w.subs[w.job.detaching.value]).(job := w.job.(detaching := None)),
                   w.subs[w.job.detaching.value].queue);
    }
  }

  lemma NothingDeleting(w: World)
    requires Inv(w) && w.job.Busy? && w.job.detaching.Some?
    ensures w.job.deleting == None
  {
  }

  lemma DetachMeans(w: World, autoDelete: bool)
    requires Can(w, DetachNow(autoDelete))
    ensures CanDetach(w)
    ensures var c := w.subs[w.job.detaching.value];
            var w1 := DetachedTag(w, c).(job := w.job.(detaching := None));
            && (autoDelete ==> c.queue in w1.queues && OnQueue(w1, c.queue) == {})
            && w1.job == w.job.(detaching := None)
            && Do(w, DetachNow(autoDelete)) ==
               if autoDelete
                 then w1.(queues := w1.queues - {c.queue},
                          job := w1.job.(deleting := Some(c.queue), marking := w1.channels.Values))
               else w1
  {
    hide StateFree, DetachConsumer;
  }

  lemma HandlerStep(w: World, e: Event)
    requires Inv(w) && Can(w, e) && !OfDelivery(e)
    ensures Inv(Do(w, e))
  {
    hide Inv, StateFree, SendFree, InProgress, OnQueue, OnChannel, Deactivated;
    match e
    case Declare(queue) => DeclareOk(w, queue);
    case Subscribe(id, tag, home, queue, noAck) => SubscribedOk(w, id, Sub(tag, home, queue, w.queues[queue], noAck));
    case Settle(st, tags) => SettledOk(w, st, tags);
    case StartCancel(id) => StartCancelOk(w, id);
    case StartDelete(queue) => StartDeleteOk(w, queue);
    case StartClose(key) => StartedOk(w, key);
    case CancelNext(id) => CancelNextOk(w, id);
    case DetachNow(autoDelete) => DetachStep(w, autoDelete);
    case DeactivateNext(id) => DeactivateNextOk(w, id);
    case MarkNext(st) => MarkedOk(w, st);
    case EndDelete => EndDeleteOk(w);
    case Release => if w.job.closing.Some? { ClosedOk(w, w.job.closing.value); } else { ReleasedOk(w); }
    case Pass(key, id) => PassedOk(w, key, id);
    case TakeAll(key) => TakenAllOk(w, key, if key in w.channels then w.states[w.channels[key]].records else map[]);
    case Notify(id) => NotifiedOk(w, w.notices + [Notice(id, |w.wire|)]);
  }

  /** Every event keeps the invariant. */
  lemma StepInv(w: World, e: Event)
    requires Inv(w) && Can(w, e)
    ensures Inv(Do(w, e))
  {
    hide Inv, Can, Do;
    if OfDelivery(e) { DeliveryStep(w, e); } else { HandlerStep(w, e); }
  }

  lemma {:induction false} RunInv(w: World, es: seq<Event>, w': World)
    requires Inv(w) && Runs(w, es, w')
    ensures Inv(w')
    decreases |es|
  {
    hide Inv, Can, Do;
    if es != [] {
      StepInv(w, es[0]);
      RunInv(Do(w, es[0]), es[1..], w');
    }
  }

  /** Nothing has happened yet. */
  ghost predicate Empty(w: World) {
    && w.subs == map[] && w.active == {} && w.registered == map[] && w.channels == map[] && w.states == map[]
    && w.threads == map[] && w.job == Idle && w.closes == map[] && w.wire == []
  }

  lemma EmptyOne(w: World)
    requires Empty(w)
    ensures Scoped(w) && RegisteredOk(w) && JobOk(w) && ClosesOk(w) && ActiveRooted(w)
  {
  }

  lemma EmptyTwo(w: World)
    requires Empty(w)
    ensures RecordsOk(w) && SeenOk(w) && TagsOk(w) && OwnTags(w)
  {
  }

  lemma EmptyThree(w: World)
    requires Empty(w)
    ensures CurrentOk(w) && BarrierOk(w) && TakenOk(w)
  {
  }

  lemma StartInv()
    ensures Inv(START)
  {
    assert Empty(START);
    hide Scoped, RegisteredOk, JobOk, ClosesOk, RecordsOk, SeenOk, ActiveRooted, TagsOk, OwnTags, CurrentOk,
      BarrierOk, TakenOk, Empty;
    EmptyOne(START);
    EmptyTwo(START);
    EmptyThree(START);
  }

  lemma ReachedInv(es: seq<Event>, w: World)
    requires Runs(START, es, w)
    ensures Inv(w)
  {
    hide Inv;
    StartInv();
    RunInv(START, es, w);
  }
}
