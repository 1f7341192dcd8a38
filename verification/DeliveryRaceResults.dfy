/**
 What holds in every interleaving of deliveries, cancels, queue deletions and channel closes.
 */
module DeliveryRaceResults {
  import opened Collections
  import opened ChannelDelivery
  import opened VHostState
  import opened DeliveryRace
  import opened DeliveryRaceProofs

  // ---------------------------------------------------------------- cancel and delete against delivery

  /** Cancel and delete against delivery. Whenever nobody holds the host's mu, a delivery counted
      against a consumer tag is one of the consumer registered under that tag, and a delivery of a
      queue that is gone is marked. */
  lemma NothingInherited(es: seq<Event>, w: World, k: ChannelKey, t: nat)
    requires Runs(START, es, w) && w.job.Idle?
    requires k in w.channels && w.channels[k] in w.states && t in w.states[w.channels[k]].records
    ensures var r := w.states[w.channels[k]].records[t];
            && (ByConsumer(r, r.consumerTag) ==>
                  ConsumerKey(k.channel, r.consumerTag) in w.registered
                  && w.registered[ConsumerKey(k.channel, r.consumerTag)] == r.owner)
            && (r.owner in w.subs && w.subs[r.owner].home == k)
            && (!r.queueDeleted ==> r.queue in w.queues && w.queues[r.queue] == w.subs[r.owner].gen)
  {
    hide Runs;
    ReachedInv(es, w);
    hide SeenOk, TagsOk, OwnTags, CurrentOk, BarrierOk, TakenOk, ClosesOk, JobOk, ActiveRooted;
    assert RecordOk(w, k, w.channels[k], w.states[w.channels[k]].records[t]);
  }

  /** The same, said of the holder of the host's mu: a delivery that a cancel or delete missed would
      have to be of an active consumer, or wait for what the holder has yet to do. */
  lemma DetachedByTheSame(es: seq<Event>, w: World, k: ChannelKey, t: nat)
    requires Runs(START, es, w)
    requires k in w.channels && w.channels[k] in w.states && t in w.states[w.channels[k]].records
    ensures var r := w.states[w.channels[k]].records[t];
            && (ByConsumer(r, r.consumerTag) ==> Covered(w, r.owner, w.channels[k]))
            && (!r.queueDeleted ==> Rooted(w, r.owner, w.channels[k]))
  {
    hide Runs;
    ReachedInv(es, w);
    hide SeenOk, TagsOk, OwnTags, CurrentOk, BarrierOk, TakenOk, ClosesOk, JobOk, ActiveRooted, Covered, Rooted;
    assert RecordOk(w, k, w.channels[k], w.states[w.channels[k]].records[t]);
  }

  // ---------------------------------------------------------------- close against delivery

  /** A delivery comes past the first check only while its consumer is active, and a frame is written
      only by a delivery past it. */
  ghost predicate OnlyCommitted(w: World, w': World) {
    && (forall d | d in w'.threads && Committed(w'.threads[d].phase) ::
          w'.threads[d].sub in w.active
          || (d in w.threads && w.threads[d].sub == w'.threads[d].sub && Committed(w.threads[d].phase)))
    && (w'.wire == w.wire
        || exists d :: d in w.threads && Committed(w.threads[d].phase)
             && |w'.wire| == |w.wire| + 1 && w'.wire[..|w.wire|] == w.wire && w'.wire[|w.wire|].sub == w.threads[d].sub)
  }

  lemma CommittedMove(w: World, d: nat, p': Phase)
    requires d in w.threads && (Committed(p') ==> Committed(w.threads[d].phase) || w.threads[d].sub in w.active)
    ensures StaysCommitted(w, Move(w, d, p'))
  {
  }

  ghost predicate StaysCommitted(w: World, w': World) {
    w'.active == w.active && w'.subs == w.subs && OnlyCommitted(w, w')
  }

  ghost predicate MovesOnly(e: Event) {
    e.Begin? || e.LockSend? || e.Check? || e.Enter? || e.Recheck?
  }

  lemma CommittedMoves(w: World, e: Event)
    requires Can(w, e) && MovesOnly(e)
    ensures StaysCommitted(w, Do(w, e))
  {
    hide SendFree, StateFree, StaysCommitted;
    match e
    case Begin(d, sub, msg) => CommittedBegin(w, d, sub, msg);
    case LockSend(d) => CommittedMove(w, d, Locked);
    case Check(d) => CommittedMove(w, d, if w.threads[d].sub in w.active then Checked else Finished);
    case Enter(d) => CommittedMove(w, d, Entered(w.threads[d].phase.st));
    case Recheck(d) =>
      CommittedMove(w, d, if w.threads[d].sub in w.active then Seen(w.threads[d].phase.st) else Finished);
  }

  lemma CommittedFetch(w: World, d: nat, made: nat)
    requires Can(w, Fetch(d, made))
    ensures StaysCommitted(w, Do(w, Fetch(d, made)))
  {
    hide OnlyCommitted;
    CommittedFields(w, Do(w, Fetch(d, made)), d);
  }

  lemma CommittedTrack(w: World, d: nat)
    requires Can(w, Track(d))
    ensures StaysCommitted(w, Do(w, Track(d)))
  {
    hide OnlyCommitted, Tracks;
    CommittedFields(w, Do(w, Track(d)), d);
  }

  lemma CommittedWrite(w: World, d: nat, ok: bool)
    requires Can(w, Send(d, ok))
    ensures StaysCommitted(w, Do(w, Send(d, ok)))
  {
    hide OnlyCommitted;
    CommittedSend(w, Do(w, Send(d, ok)), d);
  }

  lemma CommittedEnd(w: World, e: Event)
    requires Can(w, e) && (e.UnlockSend? || e.Undo?)
    ensures StaysCommitted(w, Do(w, e))
  {
    hide OnlyCommitted, StateFree;
    CommittedFields(w, Do(w, e), e.d);
  }

  lemma CommittedDelivery(w: World, e: Event)
    requires Can(w, e) && OfDelivery(e)
    ensures StaysCommitted(w, Do(w, e))
  {
    hide Can, Do, StaysCommitted;
    if MovesOnly(e) { CommittedMoves(w, e); }
    else if e.Fetch? { CommittedFetch(w, e.d, e.made); }
    else if e.Track? { CommittedTrack(w, e.d); }
    else if e.Send? { CommittedWrite(w, e.d, e.ok); }
    else { CommittedEnd(w, e); }
  }

  lemma CommittedBegin(w: World, d: nat, sub: nat, msg: Message)
    requires d !in w.threads
    ensures StaysCommitted(w, w.(threads := w.threads[d := Thread(sub, msg, Waiting)]))
  {
  }

  lemma CommittedFields(w: World, w': World, d: nat)
    requires d in w.threads && d in w'.threads
             && w'.threads == w.threads[d := w.threads[d].(phase := w'.threads[d].phase)] && w'.wire == w.wire
    requires Committed(w'.threads[d].phase) ==> Committed(w.threads[d].phase)
    ensures OnlyCommitted(w, w')
  {
  }

  lemma CommittedSend(w: World, w': World, d: nat)
    requires d in w.threads && w.threads[d].phase.Ready? && d in w'.threads && !Committed(w'.threads[d].phase)
    requires w'.threads == w.threads[d := w.threads[d].(phase := w'.threads[d].phase)]
    requires w'.wire == w.wire || exists f: Frame :: f.sub == w.threads[d].sub && w'.wire == w.wire + [f]
    ensures OnlyCommitted(w, w')
  {
  }

  /** Deliveries and frames are as they were, and nobody known becomes active. */
  ghost predicate Quiet(w: World, w': World) {
    && w'.threads == w.threads && w'.wire == w.wire
    && forall id | id in w.subs :: id in w'.subs && (id in w'.active ==> id in w.active)
  }

  ghost predicate MarksOnly(e: Event) {
    e.Settle? || e.DetachNow? || e.MarkNext? || e.TakeAll?
  }

  lemma QuietDetach(w: World, autoDelete: bool)
    requires Can(w, DetachNow(autoDelete))
    ensures Quiet(w, Do(w, DetachNow(autoDelete)))
  {
    DetachMeans(w, autoDelete);
    hide Can, Do, OnQueue, DetachConsumer, StateFree;
  }

  lemma QuietTake(w: World, key: ChannelKey)
    requires Can(w, TakeAll(key))
    ensures Quiet(w, Do(w, TakeAll(key)))
  {
    hide StateFree;
  }

  lemma QuietRecords(w: World, e: Event)
    requires Can(w, e) && (e.Settle? || e.MarkNext?)
    ensures Quiet(w, Do(w, e))
  {
    hide StateFree, DetachQueue, Without;
  }

  ghost predicate StartsOnly(e: Event) {
    e.Declare? || e.StartCancel? || e.StartDelete? || e.StartClose?
  }

  lemma QuietStarts(w: World, e: Event)
    requires Can(w, e) && StartsOnly(e)
    ensures Quiet(w, Do(w, e))
  {
    hide InProgress, OnQueue, OnChannel, Quiet;
    QuietFields(w, Do(w, e));
  }

  lemma QuietDeactivates(w: World, e: Event)
    requires Can(w, e) && (e.CancelNext? || e.DeactivateNext?)
    ensures Quiet(w, Do(w, e))
  {
    hide Quiet;
    QuietFields(w, Do(w, e));
  }

  lemma QuietEnds(w: World, e: Event)
    requires Can(w, e) && (e.EndDelete? || e.Pass? || e.Notify?)
    ensures Quiet(w, Do(w, e))
  {
    hide SendFree, Quiet;
    QuietFields(w, Do(w, e));
  }

  lemma QuietRelease(w: World)
    requires Can(w, Release)
    ensures Quiet(w, Do(w, Release))
  {
    hide Quiet;
    if w.job.closing.Some? {
      var key := w.job.closing.value;
      QuietFields(w, Closed(w, key, w.closes[key].subs));
    } else {
      QuietFields(w, w.(job := Idle));
    }
  }

  lemma QuietFields(w: World, w': World)
    requires w'.threads == w.threads && w'.wire == w.wire && w'.subs == w.subs && w'.active <= w.active
    ensures Quiet(w, w')
  {
  }

  lemma QuietSubscribe(w: World, e: Event)
    requires Can(w, e) && e.Subscribe?
    ensures Quiet(w, Do(w, e))
  {
    hide InProgress;
  }

  lemma HandlerFrame(w: World, e: Event)
    requires Can(w, e) && !OfDelivery(e)
    ensures Quiet(w, Do(w, e))
  {
    hide Can, Do, Quiet;
    if e.DetachNow? { QuietDetach(w, e.autoDelete); }
    else if e.TakeAll? { QuietTake(w, e.key); }
    else if MarksOnly(e) { QuietRecords(w, e); }
    else if e.Subscribe? { QuietSubscribe(w, e); }
    else if StartsOnly(e) { QuietStarts(w, e); }
    else if e.CancelNext? || e.DeactivateNext? { QuietDeactivates(w, e); }
    else if e.Release? { QuietRelease(w); }
    else { QuietEnds(w, e); }
  }

  /** Close against delivery, first half. Once a close has returned, no frame is written any more for
      a consumer that was registered when it started: whatever happens later. */
  lemma SilentStays(w: World, e: Event, id: nat)
    requires Silent(w, id) && Can(w, e)
    ensures Silent(Do(w, e), id)
    ensures forall i | |w.wire| <= i < |Do(w, e).wire| :: Do(w, e).wire[i].sub != id
    ensures |Do(w, e).wire| >= |w.wire| && Do(w, e).wire[..|w.wire|] == w.wire
  {
    hide Can, Do;
    if OfDelivery(e) { CommittedDelivery(w, e); } else { HandlerFrame(w, e); }
  }

  lemma {:induction false} SilentForever(w: World, es: seq<Event>, w': World, id: nat)
    requires Inv(w) && Silent(w, id) && Runs(w, es, w')
    ensures |w'.wire| >= |w.wire| && w'.wire[..|w.wire|] == w.wire
    ensures forall i | |w.wire| <= i < |w'.wire| :: w'.wire[i].sub != id
    decreases |es|
  {
    hide Can, Do, Silent, RegisteredOk, Scoped, JobOk, ClosesOk, RecordsOk, SeenOk, ActiveRooted, TagsOk, OwnTags,
      CurrentOk, BarrierOk, TakenOk;
    if es != [] {
      var w1 := Do(w, es[0]);
      SilentStays(w, es[0], id);
      StepInv(w, es[0]);
      SilentForever(w1, es[1..], w', id);
      forall i | |w.wire| <= i < |w'.wire| ensures w'.wire[i].sub != id {
        if i < |w1.wire| { assert w'.wire[i] == w'.wire[..|w1.wire|][i]; }
      }
      assert w'.wire[..|w.wire|] == w'.wire[..|w1.wire|][..|w.wire|];
    }
  }

  lemma NoLateDelivery(es: seq<Event>, w: World, key: ChannelKey, id: nat, later: seq<Event>, w': World)
    requires Runs(START, es, w) && key in w.closes && w.closes[key].Returned? && id in w.closes[key].subs
    requires Runs(w, later, w')
    ensures |w'.wire| >= |w.wire| && w'.wire[..|w.wire|] == w.wire
    ensures forall i | |w.wire| <= i < |w'.wire| :: w'.wire[i].sub != id
  {
    ReturnedSilent(es, w, key, id);
    ReachedInv(es, w);
    hide *;
    SilentForever(w, later, w', id);
  }

  lemma ReturnedSilent(es: seq<Event>, w: World, key: ChannelKey, id: nat)
    requires Runs(START, es, w) && key in w.closes && w.closes[key].Returned? && id in w.closes[key].subs
    ensures Silent(w, id)
  {
    hide Runs;
    ReachedInv(es, w);
    hide Scoped, RegisteredOk, JobOk, ClosesOk, RecordsOk, SeenOk, ActiveRooted, TagsOk, OwnTags, CurrentOk, TakenOk;
    assert Passed(w.closes[key], id);
  }

  /** Close against delivery, second half. Every delivery that was written to such a consumer, needs
      an ack and has not been settled is in the state that the close took. */
  lemma CloseTakesAll(es: seq<Event>, w: World, key: ChannelKey, f: Frame)
    requires Runs(START, es, w) && key in w.closes && w.closes[key].Returned? && f in w.wire
             && f.sub in w.closes[key].subs
    ensures f.sub in w.subs && w.subs[f.sub].home == key
    ensures !w.subs[f.sub].noAck && (f.st, f.tag) !in w.settled ==>
              f.tag in w.closes[key].taken && w.closes[key].taken[f.tag].owner == f.sub
  {
    hide Runs;
    ReachedInv(es, w);
    hide RegisteredOk, JobOk, ClosesOk, RecordsOk, SeenOk, ActiveRooted, TagsOk, OwnTags, CurrentOk, BarrierOk;
  }

  // ---------------------------------------------------------------- a server's cancel against delivery

  /** The consumer of every basic.cancel is silent, and has been since. */
  ghost predicate NoticesOk(w: World) {
    forall n | n in w.notices :: n.after <= |w.wire| && Silent(w, n.sub) && forall i | n.after <= i < |w.wire| ::
        w.wire[i].sub != n.sub
  }

  /** Once sendMu of an inactive consumer is free, no delivery to it is past its check. */
  lemma NotifySilent(w: World, id: nat)
    requires Can(w, Notify(id))
    ensures Silent(w, id)
  {
  }

  lemma MoveNotices(w: World, e: Event)
    requires Can(w, e) && MovesOnly(e)
    ensures Do(w, e).notices == w.notices
  {
    hide SendFree, StateFree;
  }

  lemma TrackNotices(w: World, e: Event)
    requires Can(w, e) && (e.Fetch? || e.Track? || e.Send?)
    ensures Do(w, e).notices == w.notices
  {
    hide Tracks;
  }

  lemma EndNotices(w: World, e: Event)
    requires Can(w, e) && (e.UnlockSend? || e.Undo?)
    ensures Do(w, e).notices == w.notices
  {
    hide StateFree, TagOnly, Without;
  }

  lemma StartNotices(w: World, e: Event)
    requires Can(w, e) && StartsOnly(e)
    ensures Do(w, e).notices == w.notices
  {
    hide InProgress, OnQueue, OnChannel;
  }

  lemma PassNotices(w: World, e: Event)
    requires Can(w, e) && (e.Subscribe? || e.Pass? || e.EndDelete?)
    ensures Do(w, e).notices == w.notices
  {
    hide SendFree, InProgress;
  }

  lemma ReleaseNotices(w: World)
    requires Can(w, Release)
    ensures Do(w, Release).notices == w.notices
  {
    if w.job.closing.Some? {
      assert Do(w, Release) == Closed(w, w.job.closing.value, w.closes[w.job.closing.value].subs);
    } else {
      assert Do(w, Release) == w.(job := Idle);
    }
  }

  lemma MarkNotices(w: World, e: Event)
    requires Can(w, e) && (e.CancelNext? || e.DeactivateNext? || e.Settle? || e.MarkNext? || e.TakeAll?)
    ensures Do(w, e).notices == w.notices
  {
    hide StateFree, DetachQueue, Without;
  }

  lemma DetachNotices(w: World, autoDelete: bool)
    requires Can(w, DetachNow(autoDelete))
    ensures Do(w, DetachNow(autoDelete)).notices == w.notices
  {
    DetachMeans(w, autoDelete);
    hide Can, Do, OnQueue, DetachConsumer;
  }

  lemma OtherNotices(w: World, e: Event)
    requires Can(w, e) && !e.Notify?
    ensures Do(w, e).notices == w.notices
  {
    hide Can, Do;
    if MovesOnly(e) { MoveNotices(w, e); }
    else if e.Fetch? || e.Track? || e.Send? { TrackNotices(w, e); }
    else if e.UnlockSend? || e.Undo? { EndNotices(w, e); }
    else if StartsOnly(e) { StartNotices(w, e); }
    else if e.Release? { ReleaseNotices(w); }
    else if e.DetachNow? { DetachNotices(w, e.autoDelete); }
    else if e.CancelNext? || e.DeactivateNext? || e.Settle? || e.MarkNext? || e.TakeAll? { MarkNotices(w, e); }
    else { PassNotices(w, e); }
  }

  lemma NoticesStep(w: World, e: Event)
    requires NoticesOk(w) && Can(w, e)
    ensures NoticesOk(Do(w, e))
  {
    if e.Notify? { NotifySilent(w, e.id); NotifiedSilent(w, e.id); } else { OtherNotices(w, e); }
    hide Can, Do, Silent;
    var w' := Do(w, e);
    if !e.Notify? {
      forall n | n in w'.notices
        ensures n.after <= |w'.wire| && Silent(w', n.sub) && forall i | n.after <= i < |w'.wire| ::
                  w'.wire[i].sub != n.sub
      {
        SilentStays(w, e, n.sub);
        forall i | n.after <= i < |w'.wire| ensures w'.wire[i].sub != n.sub {
          if i < |w.wire| { assert w'.wire[i] == w'.wire[..|w.wire|][i]; }
        }
      }
    }
  }

  lemma NotifiedSilent(w: World, id: nat)
    requires NoticesOk(w) && Silent(w, id) && Can(w, Notify(id))
    ensures NoticesOk(Do(w, Notify(id)))
  {
    hide SendFree;
    var w' := Do(w, Notify(id));
    assert forall i :: Silent(w, i) ==> Silent(w', i);
    hide Silent;
  }

  lemma {:induction false} NoticesRun(w: World, es: seq<Event>, w': World)
    requires NoticesOk(w) && Runs(w, es, w')
    ensures NoticesOk(w')
    decreases |es|
  {
    hide Can, Do, NoticesOk;
    if es != [] {
      NoticesStep(w, es[0]);
      NoticesRun(Do(w, es[0]), es[1..], w');
    }
  }

  /** A server's cancel against delivery: no delivery to a consumer follows the basic.cancel that tells the
      client of its removal, in any interleaving. */
  lemma CancelIsLast(es: seq<Event>, w: World, n: Notice)
    requires Runs(START, es, w) && n in w.notices
    ensures n.after <= |w.wire| && forall i | n.after <= i < |w.wire| :: w.wire[i].sub != n.sub
  {
    hide Runs, Silent;
    assert NoticesOk(START);
    NoticesRun(START, es, w);
  }
}
