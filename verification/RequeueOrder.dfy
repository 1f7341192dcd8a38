/**
 The loops that turn a closing channel's unacked deliveries into work for each queue
 (takeChannelDeliveriesLocked and inDeliveryOrder in consumer.go). Grouping, merging and sorting
 together give exactly the work that the state machine's close assumes.
 */
module RequeueOrder {
  import opened Collections
  import opened ChannelDelivery
  import opened VHostState
  import opened CloseProofs
  import opened ReturnResults

  // ---------------------------------------------------------------- sorting

  function Insert(r: Record, xs: seq<Record>): seq<Record> {
    if xs == [] || r.tag <= xs[0].tag then [r] + xs else [xs[0]] + Insert(r, xs[1..])
  }

  /** The records in order of their tags. */
  function SortByTag(xs: seq<Record>): seq<Record> {
    if xs == [] then [] else Insert(xs[0], SortByTag(xs[1..]))
  }

  predicate InOrder(xs: seq<Record>) {
    forall i, j | 0 <= i < j < |xs| :: xs[i].tag <= xs[j].tag
  }

  lemma {:induction false} InsertPermutes(r: Record, xs: seq<Record>)
    ensures multiset(Insert(r, xs)) == multiset{r} + multiset(xs)
    decreases |xs|
  {
    if xs != [] && r.tag > xs[0].tag {
      InsertPermutes(r, xs[1..]);
      assert xs == [xs[0]] + xs[1..];
    }
  }

  lemma {:induction false} InsertOrdered(r: Record, xs: seq<Record>)
    requires InOrder(xs)
    ensures InOrder(Insert(r, xs))
    decreases |xs|
  {
    if xs != [] && r.tag > xs[0].tag {
      var ys := Insert(r, xs[1..]);
      InsertOrdered(r, xs[1..]);
      InsertPermutes(r, xs[1..]);
      forall i | 0 <= i < |ys| ensures xs[0].tag <= ys[i].tag {
        assert ys[i] in multiset(ys);
        assert ys[i] == r || ys[i] in xs[1..];
      }
    }
  }

  lemma NoneInOrder()
    ensures InOrder([])
  {
  }

  lemma {:induction false} SortOrdered(xs: seq<Record>)
    ensures InOrder(SortByTag(xs)) && multiset(SortByTag(xs)) == multiset(xs)
    decreases |xs|
  {
    hide Insert, InOrder;
    NoneInOrder();
    if xs != [] {
      SortOrdered(xs[1..]);
      InsertOrdered(xs[0], SortByTag(xs[1..]));
      InsertPermutes(xs[0], SortByTag(xs[1..]));
      assert xs == [xs[0]] + xs[1..];
    }
  }

  ghost predicate TagsDiffer(xs: seq<Record>) {
    forall i, j | 0 <= i < j < |xs| :: xs[i].tag != xs[j].tag
  }

  /** With different tags the order is strict, and sorting loses and repeats nothing. */
  lemma SortStrict(xs: seq<Record>)
    requires TagsDiffer(xs)
    ensures forall i, j | 0 <= i < j < |SortByTag(xs)| :: SortByTag(xs)[i].tag < SortByTag(xs)[j].tag
    ensures forall r :: r in SortByTag(xs) <==> r in xs
  {
    var ys := SortByTag(xs);
    SortOrdered(xs);
    forall r ensures r in ys <==> r in xs {
      assert r in ys <==> r in multiset(ys);
      assert r in xs <==> r in multiset(xs);
    }
    forall i, j | 0 <= i < j < |ys| ensures ys[i].tag < ys[j].tag {
      if ys[i].tag == ys[j].tag {
        assert ys[i] in xs && ys[j] in xs;
        assert ys[i] == ys[j];
        CountedTwice(ys, i, j);
        OnceEach(xs, ys[j]);
      }
    }
  }

  lemma {:induction false} OnceEach(xs: seq<Record>, r: Record)
    requires TagsDiffer(xs)
    ensures multiset(xs)[r] <= 1
    decreases |xs|
  {
    if xs != [] {
      assert xs == [xs[0]] + xs[1..];
      assert TagsDiffer(xs[1..]);
      OnceEach(xs[1..], r);
      if xs[0] == r { assert r !in xs[1..]; }
    }
  }

  // ---------------------------------------------------------------- grouping

  /** One item for each existing queue that some record names, holding its records in order. */
  ghost predicate Grouped(queues: map<Name, Queue>, records: seq<Record>, work: seq<Work>) {
    && (forall i | 0 <= i < |work| :: work[i].queue in queues && work[i].gen == queues[work[i].queue].gen)
    && (forall i, j | 0 <= i < j < |work| :: work[i].queue != work[j].queue)
    && (forall i | 0 <= i < |work| :: work[i].records == Named(records, work[i].queue))
    && (forall i | 0 <= i < |records| && records[i].queue in queues :: HasItem(work, records[i].queue))
  }

  predicate HasItem(work: seq<Work>, n: Name) {
    exists i :: 0 <= i < |work| && work[i].queue == n
  }

  /** The records of one queue, in order. */
  function Named(records: seq<Record>, n: Name): seq<Record> {
    if records == [] then []
    else Named(records[..|records| - 1], n) + if records[|records| - 1].queue == n then [records[|records| - 1]] else []
  }

  lemma NamedNext(records: seq<Record>, k: nat, n: Name)
    requires k < |records|
    ensures Named(records[..k + 1], n) == Named(records[..k], n) + if records[k].queue == n then [records[k]] else []
  {
    assert records[..k + 1][..k] == records[..k];
  }

  lemma {:induction false} NamedNone(records: seq<Record>, n: Name)
    requires forall i | 0 <= i < |records| :: records[i].queue != n
    ensures Named(records, n) == []
    decreases |records|
  {
    if records != [] { NamedNone(records[..|records| - 1], n); }
  }

  /** The index byQueue of takeChannelDeliveriesLocked. */
  ghost predicate Positions(byQueue: map<Name, nat>, work: seq<Work>) {
    && (forall n | n in byQueue :: byQueue[n] < |work| && work[byQueue[n]].queue == n)
    && (forall i | 0 <= i < |work| :: work[i].queue in byQueue && byQueue[work[i].queue] == i)
  }

  lemma GroupNext(queues: map<Name, Queue>, records: seq<Record>, k: nat, work: seq<Work>, i: nat)
    requires k < |records| && i < |work| && work[i].queue == records[k].queue && records[k].queue in queues
    requires Grouped(queues, records[..k], work)
    ensures Grouped(queues, records[..k + 1], work[i := work[i].(records := work[i].records + [records[k]])])
  {
    var work' := work[i := work[i].(records := work[i].records + [records[k]])];
    forall j | 0 <= j < |work'| ensures work'[j].records == Named(records[..k + 1], work'[j].queue) {
      NamedNext(records, k, work'[j].queue);
    }
    ItemsStay(work, work');
    var next := records[..k + 1];
    forall j | 0 <= j < |next| && next[j].queue in queues ensures HasItem(work', next[j].queue) {
      if j < k { assert next[j] == records[..k][j]; } else { assert work'[i].queue == records[k].queue; }
    }
  }

  lemma GroupSkip(queues: map<Name, Queue>, records: seq<Record>, k: nat, work: seq<Work>)
    requires k < |records| && records[k].queue !in queues && Grouped(queues, records[..k], work)
    ensures Grouped(queues, records[..k + 1], work)
  {
    forall j | 0 <= j < |work| ensures work[j].records == Named(records[..k + 1], work[j].queue) {
      NamedNext(records, k, work[j].queue);
    }
    assert forall j | 0 <= j < k :: records[..k + 1][j] == records[..k][j];
  }

  lemma GroupNew(queues: map<Name, Queue>, records: seq<Record>, work: seq<Work>, n: Name)
    requires n in queues && !HasItem(work, n) && Grouped(queues, records, work)
    ensures Grouped(queues, records, work + [Work(n, queues[n].gen, [])])
  {
    NewQueueEmpty(queues, records, work, n);
    ItemsStay(work, work + [Work(n, queues[n].gen, [])]);
  }

  /** takeChannelDeliveriesLocked, from the records it fetched. */
  method GroupByQueue(queues: map<Name, Queue>, records: seq<Record>) returns (work: seq<Work>)
    ensures Grouped(queues, records, work)
  {
    hide Named;
    work := [];
    var byQueue: map<Name, nat> := map[];
    for k := 0 to |records|
      invariant Grouped(queues, records[..k], work) && Positions(byQueue, work)
    {
      var record := records[k];
      if record.queue in queues {
        var i := |work|;
        if record.queue in byQueue {
          i := byQueue[record.queue];
        } else {
          GroupNew(queues, records[..k], work, record.queue);
          byQueue := byQueue[record.queue := i];
          work := work + [Work(record.queue, queues[record.queue].gen, [])];
        }
        GroupNext(queues, records, k, work, i);
        work := work[i := work[i].(records := work[i].records + [record])];
      } else {
        GroupSkip(queues, records, k, work);
      }
    }
    assert records[..|records|] == records;
  }

  lemma NewQueueEmpty(queues: map<Name, Queue>, records: seq<Record>, work: seq<Work>, n: Name)
    requires Grouped(queues, records, work) && n in queues && !HasItem(work, n)
    ensures Named(records, n) == []
  {
    NamedNone(records, n);
  }

  lemma ItemsStay(before: seq<Work>, after: seq<Work>)
    requires |before| <= |after| && forall i | 0 <= i < |before| :: after[i].queue == before[i].queue
    ensures forall n | HasItem(before, n) :: HasItem(after, n)
  {
    forall n | HasItem(before, n) ensures HasItem(after, n) {
      var i :| 0 <= i < |before| && before[i].queue == n;
      assert after[i].queue == n;
    }
  }

  // ---------------------------------------------------------------- merging

  /** All the records of the items for one queue object. */
  function RecordsFor(work: seq<Work>, n: Name, gen: nat): seq<Record> {
    if work == [] then []
    else
      var w := work[|work| - 1];
      RecordsFor(work[..|work| - 1], n, gen) + if w.queue == n && w.gen == gen then w.records else []
  }

  /** merged has one item for each queue object of the work, with the given order of its records. */
  ghost predicate Merges(work: seq<Work>, merged: seq<Work>, order: seq<Record> -> seq<Record>) {
    Collects(work, merged, order) && forall i | 0 <= i < |merged| :: HasObject(work, merged[i].queue, merged[i].gen)
  }

  ghost predicate Collects(work: seq<Work>, merged: seq<Work>, order: seq<Record> -> seq<Record>) {
    && (forall i, j | 0 <= i < j < |merged| :: merged[i].queue != merged[j].queue || merged[i].gen != merged[j].gen)
    && (forall i | 0 <= i < |merged| :: merged[i].records == order(RecordsFor(work, merged[i].queue, merged[i].gen)))
    && (forall i | 0 <= i < |work| :: HasObject(merged, work[i].queue, work[i].gen))
  }

  predicate HasObject(work: seq<Work>, n: Name, gen: nat) {
    exists i :: 0 <= i < |work| && work[i].queue == n && work[i].gen == gen
  }

  lemma RecordsForNext(work: seq<Work>, k: nat, n: Name, gen: nat)
    requires k < |work|
    ensures RecordsFor(work[..k + 1], n, gen) == RecordsFor(work[..k], n, gen) + if work[k].queue == n
            && work[k].gen == gen then work[k].records else []
  {
    assert work[..k + 1][..k] == work[..k];
  }

  lemma {:induction false} RecordsForNone(work: seq<Work>, n: Name, gen: nat)
    requires !HasObject(work, n, gen)
    ensures RecordsFor(work, n, gen) == []
    decreases |work|
  {
    if work != [] {
      var less := work[..|work| - 1];
      assert !HasObject(less, n, gen) by {
        assert forall i | 0 <= i < |less| :: less[i] == work[i];
      }
      RecordsForNone(less, n, gen);
    }
  }

  ghost predicate ObjectPositions(byQueue: map<(Name, nat), nat>, merged: seq<Work>) {
    && (forall q | q in byQueue ::
        byQueue[q] < |merged| && merged[byQueue[q]].queue == q.0 && merged[byQueue[q]].gen == q.1)
    && (forall i | 0 <= i < |merged| ::
        (merged[i].queue, merged[i].gen) in byQueue && byQueue[(merged[i].queue, merged[i].gen)] == i)
  }

  function AsIs(xs: seq<Record>): seq<Record> { xs }

  lemma ObjectsStay(before: seq<Work>, after: seq<Work>)
    requires |before| <= |after| && forall i | 0 <= i < |before| ::
               after[i].queue == before[i].queue && after[i].gen == before[i].gen
    ensures forall n, gen | HasObject(before, n, gen) :: HasObject(after, n, gen)
  {
    forall n, gen | HasObject(before, n, gen) ensures HasObject(after, n, gen) {
      var i :| 0 <= i < |before| && before[i].queue == n && before[i].gen == gen;
      assert after[i].queue == n && after[i].gen == gen;
    }
  }

  lemma AddItem(work: seq<Work>, merged: seq<Work>, n: Name, gen: nat)
    requires Collects(work, merged, AsIs) && !HasObject(merged, n, gen)
    ensures Collects(work, merged + [Work(n, gen, [])], AsIs)
  {
    NewObjectEmpty(work, merged, n, gen);
    ObjectsStay(merged, merged + [Work(n, gen, [])]);
    hide HasObject;
    assert forall i | 0 <= i < |merged| ::
        HasObject(merged, merged[i].queue, merged[i].gen) by { ObjectsThere(merged); }
  }

  lemma ObjectsThere(work: seq<Work>)
    ensures forall i | 0 <= i < |work| :: HasObject(work, work[i].queue, work[i].gen)
  {
  }

  lemma ExtendItem(work: seq<Work>, k: nat, merged: seq<Work>, i: nat)
    requires k < |work| && i < |merged| && Collects(work[..k], merged, AsIs)
    requires merged[i].queue == work[k].queue && merged[i].gen == work[k].gen
    ensures Collects(work[..k + 1], merged[i := merged[i].(records := merged[i].records + work[k].records)], AsIs)
  {
    var merged' := merged[i := merged[i].(records := merged[i].records + work[k].records)];
    ObjectsStay(merged, merged');
    ObjectsThere(merged);
    hide HasObject;
    forall j | 0 <= j < |merged'|
      ensures merged'[j].records == RecordsFor(work[..k + 1], merged'[j].queue, merged'[j].gen) {
      RecordsForNext(work, k, merged[j].queue, merged[j].gen);
    }
    var next := work[..k + 1];
    forall j | 0 <= j < |next| ensures HasObject(merged', next[j].queue, next[j].gen) {
      if j < k { assert next[j] == work[..k][j]; }
    }
  }

  /** The merging loop of inDeliveryOrder. */
  method MergeByQueue(work: seq<Work>) returns (merged: seq<Work>)
    ensures Merges(work, merged, AsIs)
  {
    hide HasObject, RecordsFor, Collects;
    merged := [];
    var byQueue: map<(Name, nat), nat> := map[];
    assert Collects(work[..0], merged, AsIs) by { NothingCollected(); }
    for k := 0 to |work|
      invariant Collects(work[..k], merged, AsIs) && ObjectPositions(byQueue, merged)
      invariant forall i | 0 <= i < |merged| :: HasObject(work[..k], merged[i].queue, merged[i].gen)
    {
      var w := work[k];
      ObjectsStay(work[..k], work[..k + 1]);
      ObjectsThere(work[..k + 1]);
      assert work[..k + 1][k] == w;
      var i := |merged|;
      if (w.queue, w.gen) in byQueue {
        i := byQueue[(w.queue, w.gen)];
      } else {
        NoObject(byQueue, merged, w.queue, w.gen);
        AddItem(work[..k], merged, w.queue, w.gen);
        byQueue := byQueue[(w.queue, w.gen) := i];
        merged := merged + [Work(w.queue, w.gen, [])];
      }
      ExtendItem(work, k, merged, i);
      merged := merged[i := merged[i].(records := merged[i].records + w.records)];
    }
    assert work[..|work|] == work;
  }

  lemma NothingCollected()
    ensures Collects([], [], AsIs)
  {
  }

  lemma NoObject(byQueue: map<(Name, nat), nat>, merged: seq<Work>, n: Name, gen: nat)
    requires ObjectPositions(byQueue, merged) && (n, gen) !in byQueue
    ensures !HasObject(merged, n, gen)
  {
  }

  lemma NewObjectEmpty(work: seq<Work>, merged: seq<Work>, n: Name, gen: nat)
    requires Collects(work, merged, AsIs) && !HasObject(merged, n, gen)
    ensures RecordsFor(work, n, gen) == []
  {
    assert forall i | 0 <= i < |work| :: HasObject(merged, work[i].queue, work[i].gen);
    RecordsForNone(work, n, gen);
  }

  /** inDeliveryOrder. */
  method InDeliveryOrder(work: seq<Work>) returns (ordered: seq<Work>)
    ensures Merges(work, ordered, SortByTag)
  {
    var merged := MergeByQueue(work);
    ordered := merged;
    for k := 0 to |merged|
      invariant |ordered| == |merged|
      invariant forall i | 0 <= i < |merged| ::
        ordered[i] == if i < k then merged[i].(records := SortByTag(merged[i].records)) else merged[i]
    {
      ordered := ordered[k := ordered[k].(records := SortByTag(ordered[k].records))];
    }
    ObjectsStay(merged, ordered);
  }

  // ---------------------------------------------------------------- the whole of it

  lemma {:induction false} RecordsForGrouped(work: seq<Work>, i: nat)
    requires i < |work| && forall j | 0 <= j < |work| && j != i :: work[j].queue != work[i].queue
    ensures RecordsFor(work, work[i].queue, work[i].gen) == work[i].records
    decreases |work|
  {
    var last := |work| - 1;
    if i == last {
      assert !HasObject(work[..last], work[i].queue, work[i].gen) by {
        assert forall j | 0 <= j < last :: work[..last][j] == work[j];
      }
      RecordsForNone(work[..last], work[i].queue, work[i].gen);
    } else {
      RecordsForGrouped(work[..last], i);
    }
  }

  lemma {:induction false} NamedRecords(records: seq<Record>, n: Name)
    ensures forall r :: r in Named(records, n) <==> r in records && r.queue == n
    ensures TagsDiffer(records) ==> TagsDiffer(Named(records, n))
    decreases |records|
  {
    if records != [] {
      var last := records[|records| - 1];
      var less := records[..|records| - 1];
      assert records == less + [last];
      NamedRecords(less, n);
      var out := Named(records, n);
      if TagsDiffer(records) && last.queue == n {
        assert out == Named(less, n) + [last];
        forall i | 0 <= i < |out| - 1 ensures out[i].tag != last.tag {
          assert out[i] in Named(less, n);
        }
      }
    }
  }

  /** Every item of the ordered work is the sorted list of the records of its queue. */
  lemma OrderedItem(queues: map<Name, Queue>, records: seq<Record>, work: seq<Work>, ordered: seq<Work>, i: nat)
    requires Grouped(queues, records, work) && Merges(work, ordered, SortByTag) && i < |ordered|
    ensures ordered[i].queue in queues && ordered[i].gen == queues[ordered[i].queue].gen
    ensures ordered[i].records == SortByTag(Named(records, ordered[i].queue))
  {
    assert HasObject(work, ordered[i].queue, ordered[i].gen);
    var j :| 0 <= j < |work| && work[j].queue == ordered[i].queue && work[j].gen == ordered[i].gen;
    RecordsForGrouped(work, j);
  }

  lemma OrderedCovers(queues: map<Name, Queue>, records: seq<Record>, work: seq<Work>, ordered: seq<Work>, k: nat)
    returns (i: nat)
    requires Grouped(queues, records, work) && Merges(work, ordered, SortByTag)
    requires k < |records| && records[k].queue in queues
    ensures i < |ordered| && ordered[i].queue == records[k].queue
  {
    assert HasItem(work, records[k].queue);
    var j :| 0 <= j < |work| && work[j].queue == records[k].queue;
    assert HasObject(ordered, work[j].queue, work[j].gen);
    i :| 0 <= i < |ordered| && ordered[i].queue == work[j].queue && ordered[i].gen == work[j].gen;
  }

  /** Lists with different records each, joined, differ too. */
  lemma {:induction false} JoinedDiffer(work: seq<Work>)
    requires forall i, j | 0 <= i < j < |work| :: work[i].queue != work[j].queue
    requires forall i, r | 0 <= i < |work| && r in work[i].records :: r.queue == work[i].queue
    requires forall i | 0 <= i < |work| :: TagsDiffer(work[i].records)
    requires forall r, r' | r in AllRecords(work) && r' in AllRecords(work) && r.tag == r'.tag :: r == r'
    ensures TagsDiffer(AllRecords(work))
    decreases |work|
  {
    if work != [] {
      var w, tail := work[0], work[1..];
      var xs, ys := w.records, AllRecords(tail);
      assert forall i | 0 <= i < |tail| :: tail[i] == work[i + 1];
      assert forall r | r in ys :: r in xs + ys;
      JoinedDiffer(tail);
      forall i, j | 0 <= i < |xs| && 0 <= j < |ys| ensures xs[i].tag != ys[j].tag {
        var k := ItemOfRecord(tail, ys[j]);
        assert xs[i] in xs + ys && ys[j] in xs + ys;
        assert ys[j].queue == work[k + 1].queue;
      }
    }
  }

  ghost predicate Ordered(queues: map<Name, Queue>, records: seq<Record>, ordered: seq<Work>) {
    && (forall i, j | 0 <= i < j < |ordered| :: ordered[i].queue != ordered[j].queue)
    && (forall i | 0 <= i < |ordered| :: ordered[i].queue in queues && ordered[i].gen == queues[ordered[i].queue].gen)
    && (forall i | 0 <= i < |ordered| :: ordered[i].records == SortByTag(Named(records, ordered[i].queue)))
    && (forall i | 0 <= i < |records| && records[i].queue in queues :: HasItem(ordered, records[i].queue))
  }

  lemma GroupedIsOrdered(queues: map<Name, Queue>, records: seq<Record>, work: seq<Work>, ordered: seq<Work>)
    requires Grouped(queues, records, work) && Merges(work, ordered, SortByTag)
    ensures Ordered(queues, records, ordered)
  {
    forall i | 0 <= i < |ordered|
      ensures ordered[i].queue in queues && ordered[i].gen == queues[ordered[i].queue].gen
      ensures ordered[i].records == SortByTag(Named(records, ordered[i].queue))
    {
      OrderedItem(queues, records, work, ordered, i);
    }
    forall k | 0 <= k < |records| && records[k].queue in queues ensures HasItem(ordered, records[k].queue) {
      var i := OrderedCovers(queues, records, work, ordered, k);
    }
  }

  lemma ItemRecords(queues: map<Name, Queue>, records: seq<Record>, ordered: seq<Work>, i: nat)
    requires Ordered(queues, records, ordered) && TagsDiffer(records) && i < |ordered|
    ensures forall j, k | 0 <= j < k < |ordered[i].records| :: ordered[i].records[j].tag < ordered[i].records[k].tag
    ensures forall r :: r in ordered[i].records <==> r in records && r.queue == ordered[i].queue
  {
    NamedRecords(records, ordered[i].queue);
    SortStrict(Named(records, ordered[i].queue));
  }

  lemma AllOrdered(queues: map<Name, Queue>, records: seq<Record>, ordered: seq<Work>, r: Record)
    requires Ordered(queues, records, ordered) && TagsDiffer(records)
    ensures r in AllRecords(ordered) <==> r in records && r.queue in queues
  {
    if r in AllRecords(ordered) {
      var i := ItemOfRecord(ordered, r);
      ItemRecords(queues, records, ordered, i);
    }
    if r in records && r.queue in queues {
      var k :| 0 <= k < |records| && records[k] == r;
      var i :| 0 <= i < |ordered| && ordered[i].queue == records[k].queue;
      ItemRecords(queues, records, ordered, i);
      ItemOf(ordered, i, r);
    }
  }

  /** The ordered work is what the state machine's close takes. */
  lemma OrderedIsWork(s: VHost, ch: Channel, records: seq<Record>, ordered: seq<Work>)
    requires WellFormed(ch) && Lists(records, ch, Requeueable(ch)) && Ordered(s.queues, records, ordered)
    ensures IsWork(s, ch, ordered)
  {
    var all, live := AllRecords(ordered), LiveTags(s, ch);
    forall i | 0 <= i < |ordered|
      ensures forall j, k | 0 <= j < k < |ordered[i].records| :: ordered[i].records[j].tag < ordered[i].records[k].tag
      ensures forall r | r in ordered[i].records :: r.queue == ordered[i].queue
    {
      ItemRecords(s.queues, records, ordered, i);
    }
    forall r ensures r in all <==> r in records && r.queue in s.queues {
      AllOrdered(s.queues, records, ordered, r);
    }
    JoinedDiffer(ordered);
    forall t | t in live ensures t in TagsOf(all) {
      assert t in TagsOf(records);
    }
    assert Lists(all, ch, live);
  }

  /** What ReleaseChannelDeliveries makes of a channel's delivery state. */
  method TakeChannelDeliveries(s: VHost, state: ChannelDeliveryState) returns (work: seq<Work>)
    requires state.Valid()
    ensures IsWork(s, state.View(), work)
  {
    hide *;
    var records := state.FetchUnackedMessages();
    var grouped := GroupByQueue(s.queues, records);
    work := InDeliveryOrder(grouped);
    GroupedIsOrdered(s.queues, records, grouped, work);
    StateWellFormed(state);
    OrderedIsWork(s, state.View(), records, work);
  }

  lemma StateWellFormed(state: ChannelDeliveryState)
    requires state.Valid()
    ensures WellFormed(state.View())
  {
  }
}
