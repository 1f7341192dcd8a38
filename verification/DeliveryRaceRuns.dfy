/**
 What a delivery does that meets nobody: the run from its begin to its end, for any world in which the locks
 it needs are free. An active consumer gets its frame, with the record tracked; a failed send leaves a used
 tag and no record; and for an inactive consumer nothing happens. Likewise a cancel and a close.
 */
module DeliveryRaceRuns {
  import opened Collections
  import opened ChannelDelivery
  import opened VHostState
  import opened DeliveryRace

  /** Nobody else is at work for the consumer, its channel or the host. */
  ghost predicate Alone(w: World, d: nat, id: nat, made: nat) {
    && d !in w.threads && id in w.subs && w.job.Idle? && made !in w.states && SendFree(w, id)
    && (forall st :: StateFree(w, st))
    && (w.subs[id].home in w.channels ==> w.channels[w.subs[id].home] in w.states)
  }

  function Here(w: World, d: nat, id: nat, m: Message, p: Phase): World {
    w.(threads := w.threads[d := Thread(id, m, p)])
  }

  lemma First(w: World, e: Event, w1: World, es: seq<Event>, w': World)
    requires Can(w, e) && Do(w, e) == w1 && Runs(w1, es, w')
    ensures Runs(w, [e] + es, w')
  {
    hide Can, Do;
    assert ([e] + es)[1..] == es;
  }

  lemma NoEvent(w: World)
    ensures Runs(w, [], w)
  {
  }

  /** The thread moves on, holding what it may hold. */
  lemma Moves(w: World, d: nat, id: nat, m: Message, p: Phase, p': Phase)
    ensures Move(Here(w, d, id, m, p), d, p') == Here(w, d, id, m, p')
  {
    assert w.threads[d := Thread(id, m, p)][d := Thread(id, m, p')] == w.threads[d := Thread(id, m, p')];
  }

  lemma StillFree(w: World, d: nat, id: nat, m: Message, p: Phase, st: nat)
    requires StateFree(w, st) && d !in w.threads && !HoldsState(p, st)
    ensures StateFree(Here(w, d, id, m, p), st)
  {
  }

  /** The channel's delivery state, found or made. */
  function HomeState(w: World, id: nat, made: nat): nat
    requires id in w.subs
  {
    if w.subs[id].home in w.channels then w.channels[w.subs[id].home] else made
  }

  function WithState(w: World, id: nat, made: nat): World
    requires id in w.subs
  {
    if w.subs[id].home in w.channels then w
    else w.(channels := w.channels[w.subs[id].home := made], states := w.states[made := EMPTY_CHANNEL])
  }

  /** The world once the delivery has its tag. */
  function AfterTrack(w: World, id: nat, m: Message, st: nat): World
    requires id in w.subs && st in w.states
  {
    w.(states := w.states[st := Tracks(w.states[st], w.subs[id], id, m)])
  }

  lemma Starts(w: World, d: nat, id: nat, m: Message, made: nat, es: seq<Event>, w': World)
    requires Alone(w, d, id, made) && id in w.active && Runs(Here(w, d, id, m, Checked), es, w')
    ensures Runs(w, [Begin(d, id, m)] + ([LockSend(d)] + ([Check(d)] + es)), w')
  {
    Moves(w, d, id, m, Waiting, Locked);
    Moves(w, d, id, m, Locked, Checked);
    hide Runs;
    assert SendFree(Here(w, d, id, m, Waiting), id);
    First(Here(w, d, id, m, Locked), Check(d), Here(w, d, id, m, Checked), es, w');
    First(Here(w, d, id, m, Waiting), LockSend(d), Here(w, d, id, m, Locked), [Check(d)] + es, w');
    First(w, Begin(d, id, m), Here(w, d, id, m, Waiting), [LockSend(d)] + ([Check(d)] + es), w');
  }

  lemma Fetches(w: World, d: nat, id: nat, m: Message, made: nat, es: seq<Event>, w': World)
    requires Alone(w, d, id, made)
    requires Runs(Here(WithState(w, id, made), d, id, m, Fetched(HomeState(w, id, made))), es, w')
    ensures Runs(Here(w, d, id, m, Checked), [Fetch(d, made)] + es, w')
  {
    var st := HomeState(w, id, made);
    Moves(WithState(w, id, made), d, id, m, Checked, Fetched(st));
    hide Runs;
    First(Here(w, d, id, m, Checked), Fetch(d, made), Here(WithState(w, id, made), d, id, m, Fetched(st)), es, w');
  }

  lemma EnterIs(w: World, d: nat, id: nat, m: Message, st: nat)
    requires d !in w.threads && StateFree(w, st)
    ensures var t := Here(w, d, id, m, Fetched(st));
            Can(t, Enter(d)) && Do(t, Enter(d)) == Here(w, d, id, m, Entered(st))
  {
    Moves(w, d, id, m, Fetched(st), Entered(st));
    StillFree(w, d, id, m, Fetched(st), st);
    hide StateFree;
  }

  lemma RecheckIs(w: World, d: nat, id: nat, m: Message, st: nat)
    requires d !in w.threads && id in w.active
    ensures var t := Here(w, d, id, m, Entered(st));
            Can(t, Recheck(d)) && Do(t, Recheck(d)) == Here(w, d, id, m, Seen(st))
  {
    Moves(w, d, id, m, Entered(st), Seen(st));
  }

  lemma TrackIs(w: World, d: nat, id: nat, m: Message, st: nat)
    requires d !in w.threads && id in w.subs && st in w.states
    ensures var t := Here(w, d, id, m, Seen(st));
            Can(t, Track(d))
            && Do(t, Track(d)) == Here(AfterTrack(w, id, m, st), d, id, m, Ready(st, w.states[st].last + 1))
  {
    hide Tracks;
    Moves(AfterTrack(w, id, m, st), d, id, m, Seen(st), Ready(st, w.states[st].last + 1));
  }

  lemma GetsTag(w: World, d: nat, id: nat, m: Message, st: nat, es: seq<Event>, w': World)
    requires d !in w.threads && id in w.subs && id in w.active && st in w.states && StateFree(w, st)
    requires Runs(Here(AfterTrack(w, id, m, st), d, id, m, Ready(st, w.states[st].last + 1)), es, w')
    ensures Runs(Here(w, d, id, m, Fetched(st)), [Enter(d)] + ([Recheck(d)] + ([Track(d)] + es)), w')
  {
    hide Runs, Can, Do, Here, AfterTrack;
    EnterIs(w, d, id, m, st);
    RecheckIs(w, d, id, m, st);
    TrackIs(w, d, id, m, st);
    First(Here(w, d, id, m, Seen(st)), Track(d),
          Here(AfterTrack(w, id, m, st), d, id, m, Ready(st, w.states[st].last + 1)), es, w');
    First(Here(w, d, id, m, Entered(st)), Recheck(d), Here(w, d, id, m, Seen(st)), [Track(d)] + es, w');
    First(Here(w, d, id, m, Fetched(st)), Enter(d), Here(w, d, id, m, Entered(st)), [Recheck(d)] + ([Track(d)] + es),
          w');
  }

  lemma Writes(w: World, d: nat, id: nat, m: Message, st: nat, tag: nat)
    requires d !in w.threads
    ensures var w' := w.(wire := w.wire + [Frame(id, st, tag)]);
            Runs(Here(w, d, id, m, Ready(st, tag)), [Send(d, true)] + ([UnlockSend(d)] + []),
                 Here(w', d, id, m, Finished))
  {
    var w' := w.(wire := w.wire + [Frame(id, st, tag)]);
    Moves(w', d, id, m, Ready(st, tag), Written(st, tag));
    Moves(w', d, id, m, Written(st, tag), Finished);
    NoEvent(Here(w', d, id, m, Finished));
    hide Runs;
    First(Here(w', d, id, m, Written(st, tag)), UnlockSend(d), Here(w', d, id, m, Finished), [],
          Here(w', d, id, m, Finished));
    First(Here(w, d, id, m, Ready(st, tag)), Send(d, true), Here(w', d, id, m, Written(st, tag)), [UnlockSend(d)] + [],
          Here(w', d, id, m, Finished));
  }

  /** After a failed send the record goes, if there is one. */
  function Undone(w: World, id: nat, st: nat, tag: nat): World
    requires id in w.subs && st in w.states
  {
    if w.subs[id].noAck then w else w.(states := w.states[st := Without(w.states[st], {tag})])
  }

  function UndoEvents(w: World, d: nat, id: nat): seq<Event>
    requires id in w.subs
  {
    if w.subs[id].noAck then [] else [Undo(d)]
  }

  lemma SendFails(w: World, d: nat, id: nat, m: Message, st: nat, tag: nat)
    requires d !in w.threads
    ensures var t := Here(w, d, id, m, Ready(st, tag));
            Can(t, Send(d, false)) && Do(t, Send(d, false)) == Here(w, d, id, m, Failed(st, tag))
  {
    Moves(w, d, id, m, Ready(st, tag), Failed(st, tag));
  }

  function AfterFailed(w: World, id: nat, st: nat, tag: nat): Phase
    requires id in w.subs
  {
    if w.subs[id].noAck then Finished else Undoing(st, tag)
  }

  lemma UnlockIs(w: World, d: nat, id: nat, m: Message, st: nat, tag: nat)
    requires d !in w.threads && id in w.subs
    ensures var t := Here(w, d, id, m, Failed(st, tag));
            Can(t, UnlockSend(d)) && Do(t, UnlockSend(d)) == Here(w, d, id, m, AfterFailed(w, id, st, tag))
  {
    Moves(w, d, id, m, Failed(st, tag), AfterFailed(w, id, st, tag));
  }

  lemma UndoIs(w: World, d: nat, id: nat, m: Message, st: nat, tag: nat)
    requires d !in w.threads && id in w.subs && st in w.states && StateFree(w, st) && !w.subs[id].noAck
    ensures var t := Here(w, d, id, m, Undoing(st, tag));
            Can(t, Undo(d)) && Do(t, Undo(d)) == Here(Undone(w, id, st, tag), d, id, m, Finished)
  {
    Moves(Undone(w, id, st, tag), d, id, m, Undoing(st, tag), Finished);
    StillFree(w, d, id, m, Undoing(st, tag), st);
    hide StateFree, Without;
  }

  lemma GivesUp(w: World, d: nat, id: nat, m: Message, st: nat, tag: nat)
    requires d !in w.threads && id in w.subs && st in w.states && StateFree(w, st)
    ensures Runs(Here(w, d, id, m, Ready(st, tag)), [Send(d, false)] + ([UnlockSend(d)] + UndoEvents(w, d, id)),
                 Here(Undone(w, id, st, tag), d, id, m, Finished))
  {
    hide Can, Do, Here, StateFree;
    var w' := Here(Undone(w, id, st, tag), d, id, m, Finished);
    NoEvent(w');
    hide Runs;
    SendFails(w, d, id, m, st, tag);
    UnlockIs(w, d, id, m, st, tag);
    if !w.subs[id].noAck {
      UndoIs(w, d, id, m, st, tag);
      First(Here(w, d, id, m, Undoing(st, tag)), Undo(d), w', [], w');
      assert [Undo(d)] + [] == [Undo(d)];
    }
    First(Here(w, d, id, m, Failed(st, tag)), UnlockSend(d), Here(w, d, id, m, AfterFailed(w, id, st, tag)),
          UndoEvents(w, d, id), w');
    First(Here(w, d, id, m, Ready(st, tag)), Send(d, false), Here(w, d, id, m, Failed(st, tag)),
          [UnlockSend(d)] + UndoEvents(w, d, id), w');
  }

  function Arrival(d: nat, id: nat, m: Message, made: nat, es: seq<Event>): seq<Event> {
    [Begin(d, id, m)] + ([LockSend(d)] + ([Check(d)] + ([Fetch(d, made)]
    + ([Enter(d)] + ([Recheck(d)] + ([Track(d)] + es))))))
  }

  lemma FoundState(w: World, d: nat, id: nat, made: nat)
    requires Alone(w, d, id, made)
    ensures id in w.subs
    ensures var s, st := WithState(w, id, made), HomeState(w, id, made);
            && st in s.states && StateFree(s, st) && d !in s.threads && s.subs == w.subs && s.active == w.active
            && s.threads == w.threads && s.wire == w.wire
  {
    var st := HomeState(w, id, made);
    assert StateFree(w, st);
    hide SendFree;
  }

  lemma Arrives(w: World, d: nat, id: nat, m: Message, made: nat, es: seq<Event>, w': World)
    requires Alone(w, d, id, made) && id in w.active
    requires var s, st := WithState(w, id, made), HomeState(w, id, made);
             Runs(Here(AfterTrack(s, id, m, st), d, id, m, Ready(st, s.states[st].last + 1)), es, w')
    ensures Runs(w, Arrival(d, id, m, made, es), w')
  {
    hide Runs, Alone, StateFree, Here, AfterTrack, WithState, HomeState, SendFree;
    FoundState(w, d, id, made);
    var s, st := WithState(w, id, made), HomeState(w, id, made);
    GetsTag(s, d, id, m, st, es, w');
    Fetches(w, d, id, m, made, [Enter(d)] + ([Recheck(d)] + ([Track(d)] + es)), w');
    Starts(w, d, id, m, made, [Fetch(d, made)] + ([Enter(d)] + ([Recheck(d)] + ([Track(d)] + es))), w');
  }

  /** A delivery to an active consumer that meets nobody: its events can happen, one after the other, and at the
      end the frame is on the wire under the channel's next tag, and the delivery is on the channel under it,
      unless it needs no ack. */
  lemma Delivers(w: World, d: nat, id: nat, m: Message, made: nat)
    requires Alone(w, d, id, made) && id in w.active
    ensures var s, c, st := WithState(w, id, made), w.subs[id], HomeState(w, id, made);
            var ch, tag := s.states[st], s.states[st].last + 1;
            var ch' := ch.(last := tag, records := if c.noAck then ch.records
                           else ch.records[tag := Record(tag, c.tag, false, c.queue, m, id, false, false)]);
            Runs(w, Arrival(d, id, m, made, [Send(d, true)] + ([UnlockSend(d)] + [])),
                 s.(states := s.states[st := ch'], wire := w.wire + [Frame(id, st, tag)],
                    threads := w.threads[d := Thread(id, m, Finished)]))
  {
    hide Runs, Alone, Arrival, WithState, HomeState, StateFree;
    FoundState(w, d, id, made);
    var s, st := WithState(w, id, made), HomeState(w, id, made);
    Writes(AfterTrack(s, id, m, st), d, id, m, st, s.states[st].last + 1);
    var w' := Here(AfterTrack(s, id, m, st).(wire := w.wire + [Frame(id, st, s.states[st].last + 1)]),
                    d, id, m, Finished);
    Arrives(w, d, id, m, made, [Send(d, true)] + ([UnlockSend(d)] + []), w');
  }

  /** A send that fails: nothing is on the wire, and of the delivery only the tag is left, which stays used. */
  lemma Fails(w: World, d: nat, id: nat, m: Message, made: nat)
    requires Alone(w, d, id, made) && id in w.active
    requires var ch := WithState(w, id, made).states[HomeState(w, id, made)]; ch.last + 1 !in ch.records
    ensures var s, st := WithState(w, id, made), HomeState(w, id, made);
            Runs(w, Arrival(d, id, m, made, [Send(d, false)] + ([UnlockSend(d)] + UndoEvents(w, d, id))),
                 s.(states := s.states[st := s.states[st].(last := s.states[st].last + 1)],
                    threads := w.threads[d := Thread(id, m, Finished)]))
  {
    hide Runs, Alone, Arrival, WithState, HomeState, StateFree, Undone, AfterTrack;
    FoundState(w, d, id, made);
    var s, st := WithState(w, id, made), HomeState(w, id, made);
    UndoneLeaves(s, id, m, st);
    var t := AfterTrack(s, id, m, st);
    StillFound(s, id, m, st);
    GivesUp(t, d, id, m, st, s.states[st].last + 1);
    Arrives(w, d, id, m, made, [Send(d, false)] + ([UnlockSend(d)] + UndoEvents(w, d, id)),
            Here(Undone(t, id, st, s.states[st].last + 1), d, id, m, Finished));
  }

  lemma StillFound(w: World, id: nat, m: Message, st: nat)
    requires id in w.subs && st in w.states && StateFree(w, st)
    ensures var t := AfterTrack(w, id, m, st);
            StateFree(t, st) && st in t.states && t.subs == w.subs && t.threads == w.threads
  {
    hide Tracks;
  }

  lemma UndoneLeaves(w: World, id: nat, m: Message, st: nat)
    requires id in w.subs && st in w.states && w.states[st].last + 1 !in w.states[st].records
    ensures var ch, t := w.states[st], AfterTrack(w, id, m, st);
            && id in t.subs && st in t.states
            && Undone(t, id, st, ch.last + 1) == w.(states := w.states[st := ch.(last := ch.last + 1)])
  {
    var ch, t := w.states[st], AfterTrack(w, id, m, st);
    if !w.subs[id].noAck {
      assert Without(t.states[st], {ch.last + 1}).records == ch.records;
    }
  }

  /** An inactive consumer gets nothing, and no tag is used. */
  lemma Refuses(w: World, d: nat, id: nat, m: Message, made: nat)
    requires Alone(w, d, id, made) && id !in w.active
    ensures Runs(w, [Begin(d, id, m)] + ([LockSend(d)] + ([Check(d)] + [])), Here(w, d, id, m, Finished))
  {
    Moves(w, d, id, m, Waiting, Locked);
    Moves(w, d, id, m, Locked, Finished);
    NoEvent(Here(w, d, id, m, Finished));
    hide Runs;
    assert SendFree(Here(w, d, id, m, Waiting), id);
    var w' := Here(w, d, id, m, Finished);
    First(Here(w, d, id, m, Locked), Check(d), w', [], w');
    First(Here(w, d, id, m, Waiting), LockSend(d), Here(w, d, id, m, Locked), [Check(d)] + [], w');
    First(w, Begin(d, id, m), Here(w, d, id, m, Waiting), [LockSend(d)] + ([Check(d)] + []), w');
  }

  // ---------------------------------------------------------------- cancel and close

  /** The consumer is neither active nor registered, and its deliveries are detached. */
  function AfterCancel(w: World, id: nat): World
    requires id in w.subs && (w.subs[id].home in w.channels ==> w.channels[w.subs[id].home] in w.states)
  {
    var c := w.subs[id];
    w.(active := w.active - {id},
       registered := if c.Key() in w.registered && w.registered[c.Key()] == id then w.registered - {c.Key()}
                     else w.registered,
       states := if c.home in w.channels
                 then w.states[w.channels[c.home] := DetachConsumer(w.states[w.channels[c.home]], c.tag)]
                 else w.states)
  }

  /** Nobody else has the host's mu, and the consumer's delivery state is free. */
  ghost predicate CanCancel(w: World, id: nat) {
    && w.job.Idle? && id in w.active && id in w.subs
    && (w.subs[id].home in w.channels ==>
          w.channels[w.subs[id].home] in w.states && StateFree(w, w.channels[w.subs[id].home]))
  }

  /** The job has this consumer to cancel, and then the rest. */
  ghost predicate JobOnly(w: World, id: nat, job: Job, job': Job) {
    && w.job == job && job.Busy? && job.cancels == {id} && job.detaching == None && job.deleting == None
    && job' == job.(cancels := {})
  }

  lemma CancelNextIs(w: World, id: nat)
    requires id in w.subs && w.job.Busy? && w.job.cancels == {id} && w.job.detaching == None && w.job.deleting == None
    ensures Can(w, CancelNext(id))
    ensures Do(w, CancelNext(id)) == Deactivated(w, id).(job := w.job.(cancels := {}, detaching := Some(id)))
  {
    hide Deactivated;
    assert {id} - {id} == {};
  }

  lemma DetachIs(w: World, id: nat)
    requires id in w.subs && w.job.Busy? && w.job.detaching == Some(id)
    requires w.subs[id].home in w.channels ==>
               w.channels[w.subs[id].home] in w.states && StateFree(w, w.channels[w.subs[id].home])
    ensures Can(w, DetachNow(false))
    ensures var c := w.subs[id];
            Do(w, DetachNow(false))
            == w.(states := if c.home in w.channels
                            then w.states[w.channels[c.home] := DetachConsumer(w.states[w.channels[c.home]], c.tag)]
                            else w.states,
                  job := w.job.(detaching := None))
  {
    hide DetachConsumer, StateFree;
  }

  /** A job that has one consumer to cancel does so. */
  lemma CancelsOne(w: World, id: nat, job: Job, es: seq<Event>, w': World)
    requires CanCancel(w.(job := Idle), id) && JobOnly(w, id, w.job, job)
    requires Runs(AfterCancel(w, id).(job := job), es, w')
    ensures Runs(w, [CancelNext(id)] + ([DetachNow(false)] + es), w')
  {
    var next := Deactivated(w, id).(job := job.(detaching := Some(id)));
    CancelNextIs(w, id);
    hide Runs, Can, Do, DetachConsumer;
    assert StillStates(w, next);
    DetachIs(next, id);
    First(next, DetachNow(false), AfterCancel(w, id).(job := job), es, w');
    First(w, CancelNext(id), next, [DetachNow(false)] + es, w');
  }

  ghost predicate StillStates(w: World, w': World) {
    w'.threads == w.threads && w'.states == w.states && w'.channels == w.channels && w'.subs == w.subs
  }

  lemma StartCancelIs(w: World, id: nat)
    requires w.job.Idle? && id in w.active
    ensures Can(w, StartCancel(id)) && Do(w, StartCancel(id)) == w.(job := Busy({id}, None, None, {}, {}, None))
  {
  }

  lemma ReleaseIs(w: World, closing: Option<ChannelKey>)
    requires w.job == Busy({}, None, None, {}, {}, closing)
    requires closing.Some? ==> closing.value in w.closes && w.closes[closing.value].Cancelling?
    ensures Can(w, Release)
    ensures Do(w, Release)
            == if closing == None then w.(job := Idle)
               else w.(job := Idle, closes := w.closes[closing.value := Barrier(w.closes[closing.value].subs,
                                                                                w.closes[closing.value].subs)])
  {
  }

  /** basic.cancel that meets nobody. */
  lemma Cancels(w: World, id: nat)
    requires CanCancel(w, id)
    ensures Runs(w, [StartCancel(id)] + ([CancelNext(id)] + ([DetachNow(false)] + ([Release] + []))),
                 AfterCancel(w, id))
  {
    var busy := w.(job := Busy({id}, None, None, {}, {}, None));
    var idle := Busy({}, None, None, {}, {}, None);
    var w' := AfterCancel(w, id);
    NoEvent(w');
    StartCancelIs(w, id);
    ReleaseIs(w'.(job := idle), None);
    assert busy.(job := Idle) == w && AfterCancel(busy, id).(job := idle) == w'.(job := idle);
    hide Runs, Can, Do, CanCancel, AfterCancel;
    First(w'.(job := idle), Release, w', [], w');
    CancelsOne(busy, id, idle, [Release] + [], w');
    First(w, StartCancel(id), busy, [CancelNext(id)] + ([DetachNow(false)] + ([Release] + [])), w');
  }

  lemma StartCloseIs(w: World, key: ChannelKey, id: nat)
    requires w.job.Idle? && !InProgress(w, key) && OnChannel(w, key) == {id}
    ensures Can(w, StartClose(key))
    ensures Do(w, StartClose(key)) == w.(job := Busy({id}, None, None, {}, {}, Some(key)),
                                         closes := w.closes[key := Cancelling({id})])
  {
  }

  lemma PassIs(w: World, key: ChannelKey, id: nat)
    requires key in w.closes && w.closes[key] == Barrier({id}, {id}) && SendFree(w, id)
    ensures Can(w, Pass(key, id)) && Do(w, Pass(key, id)) == w.(closes := w.closes[key := Barrier({id}, {})])
  {
    hide SendFree;
    assert {id} - {id} == {};
  }

  lemma TakeAllIs(w: World, key: ChannelKey, id: nat)
    requires w.job.Idle? && key in w.closes && w.closes[key] == Barrier({id}, {})
    requires key in w.channels ==> w.channels[key] in w.states && StateFree(w, w.channels[key])
    ensures Can(w, TakeAll(key))
    ensures Do(w, TakeAll(key))
            == w.(channels := w.channels - {key},
                  closes := w.closes[key := Returned({id}, if key in w.channels then w.states[w.channels[key]].records
                                                           else map[])])
  {
    hide StateFree;
  }

  function WithClose(w: World, key: ChannelKey, close: Close): World {
    w.(closes := w.closes[key := close])
  }

  lemma CloseAgain(w: World, key: ChannelKey, a: Close, b: Close)
    ensures WithClose(WithClose(w, key, a), key, b) == WithClose(w, key, b)
  {
    assert w.closes[key := a][key := b] == w.closes[key := b];
  }

  /** From the barrier on. */
  lemma ClosesEnd(w: World, key: ChannelKey, id: nat)
    requires w.job.Idle? && SendFree(w, id)
    requires key in w.channels ==> w.channels[key] in w.states && StateFree(w, w.channels[key])
    ensures var taken := if key in w.channels then w.states[w.channels[key]].records else map[];
            Runs(WithClose(w, key, Barrier({id}, {id})), [Pass(key, id)] + ([TakeAll(key)] + []),
                 WithClose(w, key, Returned({id}, taken)).(channels := w.channels - {key}))
  {
    var taken := if key in w.channels then w.states[w.channels[key]].records else map[];
    var waits, passed := WithClose(w, key, Barrier({id}, {id})), WithClose(w, key, Barrier({id}, {}));
    var w' := WithClose(w, key, Returned({id}, taken)).(channels := w.channels - {key});
    NoEvent(w');
    CloseAgain(w, key, Barrier({id}, {id}), Barrier({id}, {}));
    CloseAgain(w, key, Barrier({id}, {}), Returned({id}, taken));
    PassIs(waits, key, id);
    TakeAllIs(passed, key, id);
    hide Runs, Can, Do;
    First(passed, TakeAll(key), w', [], w');
    First(waits, Pass(key, id), passed, [TakeAll(key)] + [], w');
  }

  lemma CancelsStill(w: World, key: ChannelKey, id: nat, job: Job, idle: Job)
    requires CanCancel(w, id)
    ensures var still := WithClose(w, key, Cancelling({id}));
            && CanCancel(still.(job := job).(job := Idle), id)
            && AfterCancel(still.(job := job), id).(job := idle)
               == WithClose(AfterCancel(w, id), key, Cancelling({id})).(job := idle)
  {
    hide DetachConsumer;
  }

  /** Up to it. */
  lemma ClosesBegin(w: World, key: ChannelKey, id: nat, es: seq<Event>, w': World)
    requires CanCancel(w, id) && !InProgress(w, key) && OnChannel(w, key) == {id}
    requires Runs(WithClose(AfterCancel(w, id), key, Barrier({id}, {id})), es, w')
    ensures Runs(w, [StartClose(key)] + ([CancelNext(id)] + ([DetachNow(false)] + ([Release] + es))), w')
  {
    var still := WithClose(w, key, Cancelling({id}));
    var busy := still.(job := Busy({id}, None, None, {}, {}, Some(key)));
    var idle := Busy({}, None, None, {}, {}, Some(key));
    var done := WithClose(AfterCancel(w, id), key, Cancelling({id})).(job := idle);
    StartCloseIs(w, key, id);
    ReleaseIs(done, Some(key));
    CloseAgain(AfterCancel(w, id), key, Cancelling({id}), Barrier({id}, {id}));
    CancelsStill(w, key, id, busy.job, idle);
    hide Runs, Can, Do, CanCancel, AfterCancel;
    First(done, Release, WithClose(AfterCancel(w, id), key, Barrier({id}, {id})), es, w');
    CancelsOne(busy, id, idle, [Release] + es, w');
    First(w, StartClose(key), busy, [CancelNext(id)] + ([DetachNow(false)] + ([Release] + es)), w');
  }

  /** The close of a channel with one consumer that meets nobody: the consumer is cancelled, the channel has no
      delivery state any more, and all the deliveries in it are taken. */
  lemma Closes(w: World, key: ChannelKey, id: nat)
    requires CanCancel(w, id) && !InProgress(w, key) && OnChannel(w, key) == {id} && SendFree(w, id)
    ensures var c := AfterCancel(w, id);
            Runs(w, [StartClose(key)] + ([CancelNext(id)] + ([DetachNow(false)]
                    + ([Release] + ([Pass(key, id)] + ([TakeAll(key)] + []))))),
                 c.(channels := w.channels - {key},
                    closes := w.closes[key := Returned({id}, if key in w.channels then c.states[w.channels[key]].records
                                                             else map[])]))
  {
    assert id in OnChannel(w, key) && w.subs[id].home == key;
    hide Runs, OnChannel, InProgress;
    ClosesEnd(AfterCancel(w, id), key, id);
    ClosesBegin(w, key, id, [Pass(key, id)] + ([TakeAll(key)] + []),
                WithClose(AfterCancel(w, id), key,
                          Returned({id}, if key in w.channels then AfterCancel(w, id).states[w.channels[key]].records
                                         else map[])).(channels := w.channels - {key}));
  }
}
