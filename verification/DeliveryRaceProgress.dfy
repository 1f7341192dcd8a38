/**
 No deadlock: as long as a delivery, a handler or a close is under way, one of them can take its next step. The
 locks are taken in the order sendMu, the host's mu, mu of a delivery state, and the barrier of a close, which
 waits for sendMu, holds neither of the others.
 */
module DeliveryRaceProgress {
  import opened Collections
  import opened ChannelDelivery
  import opened VHostState
  import opened DeliveryRace
  import opened DeliveryRaceProofs

  /** The event carries on what is under way; it starts nothing and is no request. */
  predicate Advances(e: Event) {
    && !e.Begin? && !e.Declare? && !e.Subscribe? && !e.Settle? && !e.StartCancel? && !e.StartDelete?
    && !e.StartClose? && !e.Notify?
  }

  ghost predicate UnderWay(w: World) {
    || (exists d :: d in w.threads && !w.threads[d].phase.Finished?)
    || w.job.Busy?
    || (exists k :: InProgress(w, k))
  }

  ghost predicate CanAdvance(w: World) {
    exists e :: Advances(e) && Can(w, e)
  }

  ghost predicate StatesFree(w: World) {
    forall st :: StateFree(w, st)
  }

  lemma Advance(w: World, e: Event)
    requires Advances(e) && Can(w, e)
    ensures CanAdvance(w)
  {
    hide Can;
  }

  /** The holder of a state's mu needs no other lock. */
  lemma StateHolder(w: World, d: nat)
    requires Scoped(w) && d in w.threads && (w.threads[d].phase.Entered? || w.threads[d].phase.Seen?)
    ensures CanAdvance(w)
  {
    hide CanAdvance;
    Advance(w, if w.threads[d].phase.Entered? then Recheck(d) else Track(d));
  }

  lemma FreeOrHeld(w: World)
    ensures StatesFree(w) || exists d :: d in w.threads && (w.threads[d].phase.Entered? || w.threads[d].phase.Seen?)
  {
    if !StatesFree(w) {
      var st :| !StateFree(w, st);
      var d :| d in w.threads && HoldsState(w.threads[d].phase, st);
    }
  }

  /** The holder of the host's mu waits at most for the mu of a state. */
  lemma JobMoves(w: World)
    requires Scoped(w) && JobOk(w) && ClosesOk(w) && w.job.Busy? && StatesFree(w)
    ensures CanAdvance(w)
  {
    hide CanAdvance, InProgress;
    if w.job.detaching.Some? {
      DetachMoves(w);
    } else if w.job.deleting.Some? {
      DeleteMoves(w);
    } else if w.job.cancels != {} {
      var id :| id in w.job.cancels;
      Advance(w, CancelNext(id));
    } else {
      Advance(w, Release);
    }
  }

  lemma DetachMoves(w: World)
    requires Scoped(w) && JobOk(w) && w.job.Busy? && w.job.detaching.Some? && StatesFree(w)
    ensures CanAdvance(w)
  {
    hide CanAdvance, StateFree;
    var c := w.subs[w.job.detaching.value];
    if c.home in w.channels { assert StateFree(w, w.channels[c.home]); }
    Advance(w, DetachNow(false));
  }

  lemma DeleteMoves(w: World)
    requires Scoped(w) && JobOk(w) && w.job.Busy? && w.job.deleting.Some? && StatesFree(w)
    ensures CanAdvance(w)
  {
    hide CanAdvance, StateFree;
    if w.job.deactivating != {} {
      var id :| id in w.job.deactivating;
      Advance(w, DeactivateNext(id));
    } else if w.job.marking != {} {
      var st :| st in w.job.marking;
      assert StateFree(w, st);
      Advance(w, MarkNext(st));
    } else {
      Advance(w, EndDelete);
    }
  }

  /** A delivery state that does not exist yet. */
  lemma {:induction false} Above(states: set<nat>) returns (n: nat)
    ensures forall st | st in states :: st < n
    decreases |states|
  {
    if states == {} {
      n := 0;
    } else {
      var st :| st in states;
      var rest := Above(states - {st});
      n := if rest > st then rest else st + 1;
      forall x | x in states ensures x < n {
        if x != st { assert x in states - {st}; }
      }
    }
  }

  lemma FetchMoves(w: World, d: nat)
    requires Scoped(w) && w.job.Idle? && d in w.threads && w.threads[d].phase.Checked?
    ensures CanAdvance(w)
  {
    hide CanAdvance;
    var made := Above(w.states.Keys);
    assert made !in w.states.Keys;
    Advance(w, Fetch(d, made));
  }

  /** A delivery past sendMu moves on once nobody holds the host's mu. */
  lemma ThreadMoves(w: World, d: nat)
    requires Scoped(w) && w.job.Idle? && StatesFree(w) && d in w.threads
    requires !w.threads[d].phase.Finished? && !w.threads[d].phase.Waiting?
    ensures CanAdvance(w)
  {
    hide CanAdvance, StateFree;
    var p := w.threads[d].phase;
    if p.Entered? || p.Seen? {
      StateHolder(w, d);
    } else if p.Checked? {
      FetchMoves(w, d);
    } else {
      if HasSt(p) { assert StateFree(w, p.st); }
      Advance(w, match p case Locked => Check(d) case Fetched(_) => Enter(d) case Ready(_, _) => Send(d, true)
                 case Undoing(_, _) => Undo(d) case _ => UnlockSend(d));
    }
  }

  /** Who holds sendMu is a delivery that moves on. */
  lemma SendMoves(w: World, id: nat)
    requires Scoped(w) && w.job.Idle? && StatesFree(w) && !SendFree(w, id)
    ensures CanAdvance(w)
  {
    hide CanAdvance, StatesFree;
    var d :| d in w.threads && w.threads[d].sub == id && HoldsSend(w.threads[d].phase);
    ThreadMoves(w, d);
  }

  lemma CloseMoves(w: World, k: ChannelKey)
    requires Scoped(w) && ClosesOk(w) && w.job.Idle? && StatesFree(w) && InProgress(w, k)
    ensures CanAdvance(w)
  {
    hide CanAdvance, StateFree, SendFree;
    assert w.closes[k].Barrier?;
    if w.closes[k].left != {} {
      var id :| id in w.closes[k].left;
      if SendFree(w, id) { Advance(w, Pass(k, id)); } else { SendMoves(w, id); }
    } else {
      if k in w.channels { assert StateFree(w, w.channels[k]); }
      Advance(w, TakeAll(k));
    }
  }

  /** In every interleaving, as long as anything is under way something of it can go on. */
  lemma NoDeadlock(es: seq<Event>, w: World)
    requires Runs(START, es, w) && UnderWay(w)
    ensures CanAdvance(w)
  {
    hide Runs, CanAdvance, StatesFree, SendFree, InProgress;
    ReachedInv(es, w);
    hide Scoped, JobOk, ClosesOk, RegisteredOk, RecordsOk, SeenOk, ActiveRooted, TagsOk, OwnTags, CurrentOk,
      BarrierOk, TakenOk;
    FreeOrHeld(w);
    if !StatesFree(w) {
      var d :| d in w.threads && (w.threads[d].phase.Entered? || w.threads[d].phase.Seen?);
      StateHolder(w, d);
    } else if w.job.Busy? {
      JobMoves(w);
    } else if d :| d in w.threads && !w.threads[d].phase.Finished? {
      if !w.threads[d].phase.Waiting? {
        ThreadMoves(w, d);
      } else if !SendFree(w, w.threads[d].sub) {
        SendMoves(w, w.threads[d].sub);
      } else {
        Advance(w, LockSend(d));
      }
    } else {
      var k :| InProgress(w, k);
      CloseMoves(w, k);
    }
  }
}
