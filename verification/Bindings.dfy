/**
 The binding table of an exchange (binding.go): binding, unbinding and removing a deleted queue's
 bindings, and the auto-delete of an exchange that loses its last one.
 */
module Bindings {
  import opened Collections
  import opened ChannelDelivery
  import opened VHostState

  // ---------------------------------------------------------------- arguments

  /** A binding argument. json is its text in JSON if it has one; a NaN does not equal itself. */
  datatype Arg = Arg(value: nat, json: Option<nat>, selfEqual: bool)

  /** An argument under its key. jsonKey is the key's text in JSON, which two keys share if they differ
      only in octets that are not UTF-8. */
  datatype Pair = Pair(key: Name, jsonKey: Name, arg: Arg)

  /** The arguments of one request, in the order of their keys; nil is the empty map. */
  type Args = seq<Pair>

  /** reflect.DeepEqual, on the maps of two requests. */
  predicate DeepEqual(a: Args, b: Args) {
    |a| == |b| && forall i | 0 <= i < |a| :: a[i].key == b[i].key && a[i].arg == b[i].arg && a[i].arg.selfEqual
  }

  predicate HasJson(a: Args) {
    forall i | 0 <= i < |a| :: a[i].arg.json.Some?
  }

  /** equalArgs: the same JSON text; marshalling fails for a value that has none. */
  predicate EqualJson(a: Args, b: Args) {
    HasJson(a) && HasJson(b) && |a| == |b| && forall i | 0 <= i < |a| ::
      a[i].jsonKey == b[i].jsonKey && a[i].arg.json == b[i].arg.json
  }

  /** bindingArgumentsMatch. */
  predicate ArgsMatch(a: Args, b: Args) {
    if |a| == 0 && |b| == 0 then true
    else if |a| != |b| then false
    else DeepEqual(a, b) || EqualJson(a, b)
  }

  /** Arguments match the same ones of another request unless they hold both a value that does not equal
      itself and one without JSON; a NaN is both. */
  lemma SelfMatch(a: Args)
    ensures ArgsMatch(a, a) <==> HasJson(a) || forall i | 0 <= i < |a| :: a[i].arg.selfEqual
  {
    assert DeepEqual(a, a) <==> forall i | 0 <= i < |a| :: a[i].arg.selfEqual;
    assert EqualJson(a, a) <==> HasJson(a);
  }

  /** When the arguments of two requests match: there are as many, and either each has the key and the value of
      its counterpart, all of which equal themselves, or each has JSON and is the same text. So no others do,
      and the order of the two makes no difference. */
  lemma MatchExactly(a: Args, b: Args)
    ensures ArgsMatch(a, b) <==>
            && |a| == |b|
            && (|| (forall i | 0 <= i < |a| :: a[i].key == b[i].key && a[i].arg == b[i].arg && b[i].arg.selfEqual)
                || (forall i | 0 <= i < |a| ::
                      a[i].arg.json.Some? && b[i].arg.json == a[i].arg.json && a[i].jsonKey == b[i].jsonKey))
    ensures ArgsMatch(a, b) <==> ArgsMatch(b, a)
  {
    if |a| == |b| {
      DeepEither(a, b);
      JsonEither(a, b);
    }
    hide DeepEqual, EqualJson;
  }

  lemma DeepEither(a: Args, b: Args)
    requires |a| == |b|
    ensures DeepEqual(a, b) <==>
            forall i | 0 <= i < |a| :: a[i].key == b[i].key && a[i].arg == b[i].arg && b[i].arg.selfEqual
    ensures DeepEqual(a, b) <==> DeepEqual(b, a)
  {
  }

  lemma JsonEither(a: Args, b: Args)
    requires |a| == |b|
    ensures EqualJson(a, b) <==>
            forall i | 0 <= i < |a| ::
              a[i].arg.json.Some? && b[i].arg.json == a[i].arg.json && a[i].jsonKey == b[i].jsonKey
    ensures EqualJson(a, b) <==> EqualJson(b, a)
  {
  }

  // ---------------------------------------------------------------- one exchange

  datatype Typ = Direct | Fanout | Topic | Unsupported

  datatype Binding = Binding(queue: Name, routingKey: Name, args: Args)

  datatype Exchange = Exchange(typ: Typ, autoDelete: bool, bindings: map<Name, seq<Binding>>)

  const NO_KEY: Name := Name("")

  /** The key under which bindings are stored. */
  function KeyFor(typ: Typ, routingKey: Name): Name {
    if typ.Fanout? then NO_KEY else routingKey
  }

  /** bindingExist. */
  predicate SameBinding(b: Binding, queue: Name, routingKey: Name, args: Args) {
    b.queue == queue && b.routingKey == routingKey && ArgsMatch(b.args, args)
  }

  predicate Bound(bs: seq<Binding>, queue: Name, routingKey: Name, args: Args) {
    exists i :: 0 <= i < |bs| && SameBinding(bs[i], queue, routingKey, args)
  }

  /** The exchange once the queue is bound. The binding keeps the routing key it was made with, also on a
      fanout exchange, though the check for an existing one compares the stored key with "". */
  function Bind(e: Exchange, queue: Name, routingKey: Name, args: Args): Exchange {
    var key := KeyFor(e.typ, routingKey);
    if Bound(Get(e.bindings, key), queue, key, args) then e
    else e.(bindings := AddTo(e.bindings, key, Binding(queue, routingKey, args)))
  }

  predicate Fits(b: Binding, queue: Name, args: Args) {
    b.queue == queue && ArgsMatch(b.args, args)
  }

  /** The first binding of the queue with the arguments. */
  function FirstFit(bs: seq<Binding>, queue: Name, args: Args): (i: nat)
    ensures i <= |bs| && forall j | 0 <= j < i :: !Fits(bs[j], queue, args)
    ensures i < |bs| ==> Fits(bs[i], queue, args)
  {
    if bs == [] || Fits(bs[0], queue, args) then 0 else 1 + FirstFit(bs[1..], queue, args)
  }

  /** DeleteBindingUnlocked without the auto-delete; None is its error. */
  function Unbind(e: Exchange, queue: Name, routingKey: Name, args: Args): Option<Exchange> {
    var key := KeyFor(e.typ, routingKey);
    if key !in e.bindings then None
    else
      var bs := e.bindings[key];
      var i := FirstFit(bs, queue, args);
      if i == |bs| then None
      else
        var rest := bs[..i] + bs[i + 1..];
        Some(e.(bindings := if rest == [] then e.bindings - {key} else e.bindings[key := rest]))
  }

  // ---------------------------------------------------------------- what the table keeps

  /** Bindings i and j are one and the same for the protocol: same queue, matching arguments. */
  ghost predicate NoTwins(bs: seq<Binding>) {
    forall i, j | 0 <= i < j < |bs| :: !Fits(bs[i], bs[j].queue, bs[j].args)
  }

  /** The invariant of every exchange: no list is empty. On one that is not fanout, also: a binding is
      stored under its key, and no two under a key share queue and arguments. */
  ghost predicate TableOk(e: Exchange) {
    && (forall k | k in e.bindings :: e.bindings[k] != [])
    && (!e.typ.Fanout? ==> forall k | k in e.bindings ::
          NoTwins(e.bindings[k]) && forall i | 0 <= i < |e.bindings[k]| :: e.bindings[k][i].routingKey == k)
  }

  lemma BindKeeps(e: Exchange, queue: Name, routingKey: Name, args: Args)
    requires TableOk(e)
    ensures TableOk(Bind(e, queue, routingKey, args))
  {
    var key := KeyFor(e.typ, routingKey);
    var bs := Get(e.bindings, key);
    if !Bound(bs, queue, key, args) {
      var bs' := bs + [Binding(queue, routingKey, args)];
      if !e.typ.Fanout? {
        forall i, j | 0 <= i < j < |bs'| ensures !Fits(bs'[i], bs'[j].queue, bs'[j].args) {
          if j == |bs| { assert !SameBinding(bs[i], queue, key, args); }
        }
      }
    }
  }

  lemma UnbindKeeps(e: Exchange, queue: Name, routingKey: Name, args: Args)
    requires TableOk(e) && Unbind(e, queue, routingKey, args).Some?
    ensures TableOk(Unbind(e, queue, routingKey, args).value)
  {
  }

  /** The check for an existing binding is all that decides whether there is a new one. */
  lemma BindChanges(e: Exchange, queue: Name, routingKey: Name, args: Args)
    ensures var key := KeyFor(e.typ, routingKey);
            Bind(e, queue, routingKey, args) == e <==> Bound(Get(e.bindings, key), queue, key, args)
  {
    var key := KeyFor(e.typ, routingKey);
    var bs, bs' := Get(e.bindings, key), Get(AddTo(e.bindings, key, Binding(queue, routingKey, args)), key);
    assert bs' == bs + [Binding(queue, routingKey, args)];
    assert |bs'| == |bs| + 1;
    assert bs' != bs;
  }

  /** A list that has just got a binding has one for the check iff it had, or the new one passes it. */
  lemma BoundAfter(bs: seq<Binding>, b: Binding, queue: Name, key: Name, args: Args)
    ensures Bound(bs + [b], queue, key, args) <==> Bound(bs, queue, key, args) || SameBinding(b, queue, key, args)
  {
    hide SameBinding;
    var bs' := bs + [b];
    assert bs'[|bs|] == b && forall i | 0 <= i < |bs| :: bs'[i] == bs[i];
    if Bound(bs, queue, key, args) {
      var i :| 0 <= i < |bs| && SameBinding(bs[i], queue, key, args);
      assert SameBinding(bs'[i], queue, key, args);
    }
  }

  /** Binding again changes nothing, exactly if a binding was found the first time or the arguments match
      themselves; otherwise each binding adds one more. (Not fanout.) */
  lemma RebindChangesNothing(e: Exchange, queue: Name, routingKey: Name, args: Args)
    requires !e.typ.Fanout?
    ensures var e' := Bind(e, queue, routingKey, args);
            Bind(e', queue, routingKey, args) == e' <==>
              Bound(Get(e.bindings, routingKey), queue, routingKey, args) || ArgsMatch(args, args)
  {
    var e' := Bind(e, queue, routingKey, args);
    BindChanges(e', queue, routingKey, args);
    BoundAfter(Get(e.bindings, routingKey), Binding(queue, routingKey, args), queue, routingKey, args);
    hide Bound, ArgsMatch;
  }

  /** On a fanout exchange the binding just made is found again only if its routing key was empty. */
  lemma FanoutRebind(e: Exchange, queue: Name, routingKey: Name, args: Args)
    requires e.typ.Fanout?
    ensures var e' := Bind(e, queue, routingKey, args);
            Bind(e', queue, routingKey, args) == e'
            <==> Bound(Get(e.bindings, NO_KEY), queue, NO_KEY, args) || (routingKey == NO_KEY && ArgsMatch(args, args))
  {
    var e' := Bind(e, queue, routingKey, args);
    BindChanges(e', queue, routingKey, args);
    BoundAfter(Get(e.bindings, NO_KEY), Binding(queue, routingKey, args), queue, NO_KEY, args);
    hide Bound, ArgsMatch;
  }

  lemma TwinsAfter(bs: seq<Binding>, b: Binding)
    requires NoTwins(bs)
    ensures NoTwins(bs + [b]) <==> forall i | 0 <= i < |bs| :: !Fits(bs[i], b.queue, b.args)
  {
    hide Fits;
    var bs' := bs + [b];
    assert bs'[|bs|] == b && forall i | 0 <= i < |bs| :: bs'[i] == bs[i];
    if forall i | 0 <= i < |bs| :: !Fits(bs[i], b.queue, b.args) {
      forall i, j | 0 <= i < j < |bs'| ensures !Fits(bs'[i], bs'[j].queue, bs'[j].args) {
        if j < |bs| { assert !Fits(bs[i], bs[j].queue, bs[j].args); }
      }
    } else {
      var i :| 0 <= i < |bs| && Fits(bs[i], b.queue, b.args);
      assert Fits(bs'[i], bs'[|bs|].queue, bs'[|bs|].args);
    }
  }

  /** When a fanout exchange stays free of equal bindings: exactly if the check finds one that was made
      with the empty key, or there is none at all to find. */
  lemma FanoutUnique(e: Exchange, queue: Name, routingKey: Name, args: Args)
    requires e.typ.Fanout? && NoTwins(Get(e.bindings, NO_KEY))
    ensures var bs := Get(e.bindings, NO_KEY);
            NoTwins(Get(Bind(e, queue, routingKey, args).bindings, NO_KEY))
            <==> Bound(bs, queue, NO_KEY, args) || forall i | 0 <= i < |bs| :: !Fits(bs[i], queue, args)
  {
    TwinsAfter(Get(e.bindings, NO_KEY), Binding(queue, routingKey, args));
    hide Bound, Fits, NoTwins;
  }

  /** Every binding of the list was made with the empty key. */
  ghost predicate EmptyKeys(bs: seq<Binding>) {
    forall i | 0 <= i < |bs| :: bs[i].routingKey == NO_KEY
  }

  /** So a fanout exchange on which all have bound with the empty key stays free of them whatever key is
      bound next, and stays such a one as long as that key is empty too, or is not needed. */
  lemma FanoutEmptyKeys(e: Exchange, queue: Name, routingKey: Name, args: Args)
    requires e.typ.Fanout? && NoTwins(Get(e.bindings, NO_KEY)) && EmptyKeys(Get(e.bindings, NO_KEY))
    ensures var bs' := Get(Bind(e, queue, routingKey, args).bindings, NO_KEY);
            NoTwins(bs')
            && (EmptyKeys(bs') <==> routingKey == NO_KEY || Bound(Get(e.bindings, NO_KEY), queue, NO_KEY, args))
  {
    var bs := Get(e.bindings, NO_KEY);
    FanoutUnique(e, queue, routingKey, args);
    FitsIsBound(bs, queue, args);
    hide Bound, Fits, NoTwins;
    var bs' := bs + [Binding(queue, routingKey, args)];
    assert bs'[|bs|].routingKey == routingKey;
  }

  lemma FitsIsBound(bs: seq<Binding>, queue: Name, args: Args)
    requires EmptyKeys(bs)
    ensures Bound(bs, queue, NO_KEY, args) || forall i | 0 <= i < |bs| :: !Fits(bs[i], queue, args)
  {
    hide ArgsMatch;
    if i :| 0 <= i < |bs| && Fits(bs[i], queue, args) { assert SameBinding(bs[i], queue, NO_KEY, args); }
  }

  /** Unbinding keeps it such a one too. */
  lemma UnbindEmptyKeys(e: Exchange, queue: Name, routingKey: Name, args: Args)
    requires e.typ.Fanout? && NoTwins(Get(e.bindings, NO_KEY)) && EmptyKeys(Get(e.bindings, NO_KEY))
    requires Unbind(e, queue, routingKey, args).Some?
    ensures var bs' := Get(Unbind(e, queue, routingKey, args).value.bindings, NO_KEY); NoTwins(bs') && EmptyKeys(bs')
  {
    UnbindRemovesOne(e, queue, routingKey, args);
    hide Fits, Unbind, OneLess, NoTwins, EmptyKeys;
    OneLessKeeps(Get(e.bindings, NO_KEY), Get(Unbind(e, queue, routingKey, args).value.bindings, NO_KEY), queue, args);
  }

  lemma OneLessKeeps(bs: seq<Binding>, bs': seq<Binding>, queue: Name, args: Args)
    requires NoTwins(bs) && EmptyKeys(bs) && OneLess(bs, bs', queue, args)
    ensures NoTwins(bs') && EmptyKeys(bs')
  {
    hide Fits;
    var i :| 0 <= i < |bs| && bs' == bs[..i] + bs[i + 1..];
    forall j | 0 <= j < |bs'| ensures bs'[j] == bs[if j < i then j else j + 1] {
    }
  }

  /** An example: two bindings of one queue, with the same key and no arguments. */
  lemma FanoutTwins()
    ensures var e := Exchange(Fanout, false, map[]);
            var e' := Bind(Bind(e, Name("q"), Name("k"), []), Name("q"), Name("k"), []);
            NO_KEY in e'.bindings && |e'.bindings[NO_KEY]| == 2 && !NoTwins(e'.bindings[NO_KEY])
  {
    var e := Exchange(Fanout, false, map[]);
    var e1 := Bind(e, Name("q"), Name("k"), []);
    assert Get(e1.bindings, NO_KEY) == [Binding(Name("q"), Name("k"), [])];
    assert !Bound(Get(e1.bindings, NO_KEY), Name("q"), NO_KEY, []);
    var e2 := Bind(e1, Name("q"), Name("k"), []);
    var bs := e2.bindings[NO_KEY];
    assert Fits(bs[0], bs[1].queue, bs[1].args);
  }

  /** Unbinding is an error exactly when there is no such binding to remove. */
  lemma UnbindFails(e: Exchange, queue: Name, routingKey: Name, args: Args)
    ensures var bs := Get(e.bindings, KeyFor(e.typ, routingKey));
            Unbind(e, queue, routingKey, args) == None <==> forall i | 0 <= i < |bs| :: !Fits(bs[i], queue, args)
  {
    hide Fits;
    var bs := Get(e.bindings, KeyFor(e.typ, routingKey));
    var i := FirstFit(bs, queue, args);
    if i < |bs| { assert Fits(bs[i], queue, args); }
  }

  /** bs' is bs without the first binding of the queue with the arguments, in the same order. */
  ghost predicate OneLess(bs: seq<Binding>, bs': seq<Binding>, queue: Name, args: Args) {
    exists i ::
      && 0 <= i < |bs| && Fits(bs[i], queue, args) && (forall j | 0 <= j < i :: !Fits(bs[j], queue, args))
      && bs' == bs[..i] + bs[i + 1..]
  }

  /** Unbinding removes exactly one binding, the first that fits, and keeps the order of the rest and every other
      list. */
  lemma UnbindRemovesOne(e: Exchange, queue: Name, routingKey: Name, args: Args)
    requires Unbind(e, queue, routingKey, args).Some?
    ensures var key, e' := KeyFor(e.typ, routingKey), Unbind(e, queue, routingKey, args).value;
            && OneLess(Get(e.bindings, key), Get(e'.bindings, key), queue, args)
            && e'.bindings - {key} == e.bindings - {key}
            && e' == e.(bindings := e'.bindings)
  {
    hide Fits;
    var key := KeyFor(e.typ, routingKey);
    var bs := e.bindings[key];
    var i := FirstFit(bs, queue, args);
    assert Fits(bs[i], queue, args);
    var rest := bs[..i] + bs[i + 1..];
    assert OneLess(bs, rest, queue, args);
    hide OneLess;
    assert e.bindings[key := rest] - {key} == e.bindings - {key};
  }

  /** An unbind leaves the exchange without any binding, so that auto-delete takes it, exactly when the
      binding was the only one. */
  lemma LastBinding(e: Exchange, queue: Name, routingKey: Name, args: Args)
    requires TableOk(e) && Unbind(e, queue, routingKey, args).Some?
    ensures Unbind(e, queue, routingKey, args).value.bindings == map[]
       <==> e.bindings.Keys == {KeyFor(e.typ, routingKey)} && |e.bindings[KeyFor(e.typ, routingKey)]| == 1
  {
    var key := KeyFor(e.typ, routingKey);
    var bs := e.bindings[key];
    var i := FirstFit(bs, queue, args);
    var rest := bs[..i] + bs[i + 1..];
    assert |rest| == |bs| - 1;
    if rest == [] {
      assert forall k :: k in e.bindings - {key} <==> k in e.bindings && k != key;
    } else {
      assert key in e.bindings[key := rest];
    }
  }

  lemma {:induction false} FitIsLast(bs: seq<Binding>, b: Binding)
    requires forall i | 0 <= i < |bs| :: !Fits(bs[i], b.queue, b.args)
    requires Fits(b, b.queue, b.args)
    ensures FirstFit(bs + [b], b.queue, b.args) == |bs|
    decreases |bs|
  {
    if bs != [] {
      assert (bs + [b])[1..] == bs[1..] + [b];
      FitIsLast(bs[1..], b);
    }
  }

  lemma AddRemove(bindings: map<Name, seq<Binding>>, key: Name, b: Binding)
    requires key in bindings ==> bindings[key] != []
    ensures var bs := Get(bindings, key);
            var rest := (bs + [b])[..|bs|] + (bs + [b])[|bs| + 1..];
            rest == bs && (if rest == [] then AddTo(bindings, key, b) - {key}
                           else AddTo(bindings, key, b)[key := rest]) == bindings
  {
    var bs := Get(bindings, key);
    assert (bs + [b])[..|bs|] + (bs + [b])[|bs| + 1..] == bs;
    if key !in bindings {
      assert bindings[key := bs + [b]] - {key} == bindings;
    } else {
      assert bindings[key := bs + [b]][key := bs] == bindings;
    }
  }

  /** Unbinding undoes a binding that was not there: on an exchange whose lists are not empty, and not
      fanout. */
  lemma UnbindUndoesBind(e: Exchange, queue: Name, routingKey: Name, args: Args)
    requires TableOk(e) && !e.typ.Fanout? && ArgsMatch(args, args)
    requires !Bound(Get(e.bindings, routingKey), queue, routingKey, args)
    ensures Unbind(Bind(e, queue, routingKey, args), queue, routingKey, args) == Some(e)
  {
    var b := Binding(queue, routingKey, args);
    var bs := Get(e.bindings, routingKey);
    hide ArgsMatch;
    NoneFits(e, queue, routingKey, args);
    hide TableOk, NoTwins, Bound, SameBinding;
    FitIsLast(bs, b);
    hide Fits;
    AddRemove(e.bindings, routingKey, b);
    var e' := e.(bindings := AddTo(e.bindings, routingKey, b));
    assert Bind(e, queue, routingKey, args) == e';
    assert e'.bindings[routingKey] == bs + [b];
  }

  lemma NoneFits(e: Exchange, queue: Name, routingKey: Name, args: Args)
    requires TableOk(e) && !e.typ.Fanout? && !Bound(Get(e.bindings, routingKey), queue, routingKey, args)
    ensures var bs := Get(e.bindings, routingKey); forall i | 0 <= i < |bs| :: !Fits(bs[i], queue, args)
  {
    hide ArgsMatch, NoTwins;
    var bs := Get(e.bindings, routingKey);
    forall i | 0 <= i < |bs| ensures !Fits(bs[i], queue, args) {
      assert !SameBinding(bs[i], queue, routingKey, args);
    }
  }

  // ---------------------------------------------------------------- a queue's bindings

  function Others(bs: seq<Binding>, queue: Name): seq<Binding> {
    if bs == [] then []
    else (if bs[0].queue == queue then [] else [bs[0]]) + Others(bs[1..], queue)
  }

  lemma {:induction false} OthersNext(bs: seq<Binding>, k: nat, queue: Name)
    requires k < |bs|
    ensures Others(bs[..k + 1], queue) == Others(bs[..k], queue) + if bs[k].queue == queue then [] else [bs[k]]
    decreases k
  {
    if k > 0 {
      assert bs[..k + 1][1..] == bs[1..][..k] && bs[..k][1..] == bs[1..][..k - 1];
      OthersNext(bs[1..], k - 1, queue);
    } else {
      assert bs[..1][1..] == [];
    }
  }

  /** What is left of a list is left of its parts, in their order. */
  lemma {:induction false} OthersJoin(a: seq<Binding>, b: Binding, c: seq<Binding>, queue: Name)
    ensures Others(a + [b] + c, queue) == Others(a, queue) + (if b.queue == queue then [] else [b]) + Others(c, queue)
    ensures Others([], queue) == []
    decreases |a|
  {
    if a == [] {
      assert ([] + [b] + c)[1..] == c;
    } else {
      assert (a + [b] + c)[1..] == a[1..] + [b] + c;
      OthersJoin(a[1..], b, c, queue);
    }
  }

  lemma {:induction false} OthersExact(bs: seq<Binding>, queue: Name)
    ensures forall b :: b in Others(bs, queue) <==> b in bs && b.queue != queue
    ensures NoTwins(bs) ==> NoTwins(Others(bs, queue))
    decreases |bs|
  {
    if bs != [] {
      var rest := Others(bs[1..], queue);
      assert bs == [bs[0]] + bs[1..];
      OthersExact(bs[1..], queue);
      if NoTwins(bs) && bs[0].queue != queue {
        assert Others(bs, queue) == [bs[0]] + rest;
        forall j | 0 <= j < |rest| ensures !Fits(bs[0], rest[j].queue, rest[j].args) {
          assert rest[j] in bs[1..];
        }
      }
    }
  }

  /** The bindings of an exchange without those of the queue. */
  ghost predicate Removed(bindings: map<Name, seq<Binding>>, bindings': map<Name, seq<Binding>>, queue: Name) {
    && (forall k :: k in bindings' <==> k in bindings && Others(bindings[k], queue) != [])
    && (forall k | k in bindings' :: bindings'[k] == Others(bindings[k], queue))
  }

  lemma RemovedKeeps(e: Exchange, bindings': map<Name, seq<Binding>>, queue: Name)
    requires TableOk(e) && Removed(e.bindings, bindings', queue)
    ensures TableOk(e.(bindings := bindings'))
    ensures forall k, b | k in bindings' && b in bindings'[k] :: b.queue != queue
  {
    forall k | k in bindings' ensures NoTwins(e.bindings[k]) ==> NoTwins(bindings'[k])
      ensures forall b | b in bindings'[k] :: b in e.bindings[k] && b.queue != queue
    {
      OthersExact(e.bindings[k], queue);
    }
  }

  // ---------------------------------------------------------------- the exchanges of a host

  /** Only existing queues are bound. */
  ghost predicate QueuesKnown(e: Exchange, names: set<Name>) {
    forall k, b | k in e.bindings && b in e.bindings[k] :: b.queue in names
  }

  lemma BindKnown(e: Exchange, queue: Name, routingKey: Name, args: Args, names: set<Name>)
    requires QueuesKnown(e, names) && queue in names
    ensures QueuesKnown(Bind(e, queue, routingKey, args), names)
  {
  }

  lemma UnbindKnown(e: Exchange, queue: Name, routingKey: Name, args: Args, names: set<Name>)
    requires QueuesKnown(e, names) && Unbind(e, queue, routingKey, args).Some?
    ensures QueuesKnown(Unbind(e, queue, routingKey, args).value, names)
  {
  }

  lemma RemovedKnown(e: Exchange, bindings': map<Name, seq<Binding>>, queue: Name, names: set<Name>)
    requires QueuesKnown(e, names) && Removed(e.bindings, bindings', queue)
    ensures QueuesKnown(e.(bindings := bindings'), names - {queue})
  {
    forall k | k in bindings' ensures forall b | b in bindings'[k] :: b in e.bindings[k] && b.queue != queue {
      OthersExact(e.bindings[k], queue);
    }
  }

  ghost predicate SomeOf(bindings: map<Name, seq<Binding>>, queue: Name) {
    exists k :: k in bindings && Others(bindings[k], queue) != bindings[k]
  }

  ghost predicate SomeMatches(bs: seq<Binding>, queue: Name, args: Args) {
    exists i :: 0 <= i < |bs| && bs[i].queue == queue && ArgsMatch(bs[i].args, args)
  }

  /** Some binding of the queue under the key, or on a fanout exchange under the empty one, has matching
      arguments. */
  ghost predicate HasFit(e: Exchange, queue: Name, routingKey: Name, args: Args) {
    var key := if e.typ.Fanout? then Name("") else routingKey;
    key in e.bindings && SomeMatches(e.bindings[key], queue, args)
  }

  lemma MatchesFit(bs: seq<Binding>, queue: Name, args: Args)
    ensures SomeMatches(bs, queue, args) <==> !(forall i | 0 <= i < |bs| :: !Fits(bs[i], queue, args))
  {
    hide ArgsMatch;
    if i :| 0 <= i < |bs| && Fits(bs[i], queue, args) {
      assert bs[i].queue == queue && ArgsMatch(bs[i].args, args);
    }
  }

  lemma FitFound(e: Exchange, queue: Name, routingKey: Name, args: Args)
    ensures HasFit(e, queue, routingKey, args) <==> Unbind(e, queue, routingKey, args).Some?
  {
    hide Unbind, Fits, SomeMatches;
    UnbindFails(e, queue, routingKey, args);
    MatchesFit(Get(e.bindings, KeyFor(e.typ, routingKey)), queue, args);
  }

  datatype Outcome = Done | NoExchange | NoQueue | NotOwner | NoBinding | BadType

  class Exchanges {
    var exchanges: map<Name, Exchange>
    var queues: map<Name, Queue>

    ghost predicate Valid()
      reads this
    {
      forall x | x in exchanges :: TableOk(exchanges[x]) && QueuesKnown(exchanges[x], queues.Keys)
    }

    constructor (queues: map<Name, Queue>)
      ensures Valid() && exchanges == map[] && this.queues == queues
    {
      exchanges := map[];
      this.queues := queues;
    }

    method CreateExchange(name: Name, typ: Typ, autoDelete: bool)
      requires Valid()
      modifies this`exchanges
      ensures Valid()
      ensures exchanges == if name in old(exchanges) then old(exchanges)
              else old(exchanges)[name := Exchange(typ, autoDelete, map[])]
    {
      if name !in exchanges {
        exchanges := exchanges[name := Exchange(typ, autoDelete, map[])];
      }
    }

    /** The loop over exchange.Bindings[routingKey] that looks for the binding. */
    static method FindBinding(bs: seq<Binding>, queue: Name, key: Name, args: Args) returns (found: bool)
      ensures found == Bound(bs, queue, key, args)
    {
      for i := 0 to |bs|
        invariant forall j | 0 <= j < i :: !SameBinding(bs[j], queue, key, args)
      {
        if SameBinding(bs[i], queue, key, args) { return true; }
      }
      found := false;
    }

    /** BindQueue; internal for the server's own bindings, which skip the ownership check. */
    method BindQueue(exchange: Name, queue: Name, routingKey: Name, args: Args, conn: Name, server: bool)
      returns (outcome: Outcome)
      requires Valid()
      modifies this`exchanges
      ensures Valid()
      ensures outcome == if exchange !in old(exchanges) then NoExchange
                         else if queue !in queues then NoQueue
                         else if !server && queues[queue].exclusive && queues[queue].owner != Some(conn) then NotOwner
                         else if old(exchanges)[exchange].typ.Unsupported? then BadType
                         else Done
      ensures outcome.Done? ==>
                exchanges == old(exchanges)[exchange := Bind(old(exchanges)[exchange], queue, routingKey, args)]
      // the new binding is the last of its list, unless one of the queue was made with that key and matches
      ensures outcome.Done? ==>
                var e := old(exchanges)[exchange];
                var key := if e.typ.Fanout? then Name("") else routingKey;
                var bs := if key in e.bindings then e.bindings[key] else [];
                exchanges == if exists i :: 0 <= i < |bs| && bs[i].queue == queue && bs[i].routingKey == key
                                            && ArgsMatch(bs[i].args, args)
                             then old(exchanges)
                             else old(exchanges)[exchange := e.(bindings :=
                                                     e.bindings[key := bs + [Binding(queue, routingKey, args)]])]
      ensures !outcome.Done? ==> exchanges == old(exchanges)
    {
      hide ArgsMatch;
      if exchange !in exchanges { return NoExchange; }
      if queue !in queues { return NoQueue; }
      if !server && !OwnedBy(queues[queue], conn) { return NotOwner; }
      var e := exchanges[exchange];
      BindKeeps(e, queue, routingKey, args);
      BindKnown(e, queue, routingKey, args, queues.Keys);
      hide Bound, SameBinding, TableOk, QueuesKnown;
      var key := KeyFor(e.typ, routingKey);
      if e.typ.Unsupported? { return BadType; }
      var found := FindBinding(if key in e.bindings then e.bindings[key] else [], queue, key, args);
      if !found {
        exchanges := exchanges[exchange := e.(bindings :=
          e.bindings[key := (if key in e.bindings then e.bindings[key] else []) + [Binding(queue, routingKey, args)]])];
      } else {
        assert exchanges == exchanges[exchange := e];
      }
      outcome := Done;
    }

    /** The part of DeleteBindingUnlocked that edits the exchange. */
    static method CutBinding(e: Exchange, queue: Name, routingKey: Name, args: Args) returns (cut: Option<Exchange>)
      ensures cut == Unbind(e, queue, routingKey, args)
    {
      hide Fits;
      var key := KeyFor(e.typ, routingKey);
      if key !in e.bindings { return None; }
      var bs := e.bindings[key];
      var i := 0;
      while i < |bs| && !Fits(bs[i], queue, args)
        invariant i <= |bs| && forall j | 0 <= j < i :: !Fits(bs[j], queue, args)
      {
        i := i + 1;
      }
      assert i == FirstFit(bs, queue, args);
      if i == |bs| { return None; }
      var rest := bs[..i] + bs[i + 1..];
      if |rest| == 0 {
        cut := Some(e.(bindings := e.bindings - {key}));
      } else {
        cut := Some(e.(bindings := e.bindings[key := rest]));
      }
    }

    /** DeleteBindingUnlocked: one binding goes, its list with the last one in it, and an auto-delete
        exchange with its last list. */
    method DeleteBinding(exchange: Name, queue: Name, routingKey: Name, args: Args) returns (ok: bool)
      requires Valid() && exchange in exchanges
      modifies this`exchanges
      ensures Valid()
      ensures ok == Unbind(old(exchanges)[exchange], queue, routingKey, args).Some?
      ensures !ok ==> exchanges == old(exchanges)
      ensures ok ==> var e := Unbind(old(exchanges)[exchange], queue, routingKey, args).value;
                     exchanges == if e.autoDelete && e.bindings == map[] then old(exchanges) - {exchange}
                       else old(exchanges)[exchange := e]
    {
      var e := exchanges[exchange];
      var cut := CutBinding(e, queue, routingKey, args);
      if cut == None { return false; }
      UnbindKeeps(e, queue, routingKey, args);
      UnbindKnown(e, queue, routingKey, args, queues.Keys);
      hide TableOk, QueuesKnown, Unbind;
      if cut.value.autoDelete && |cut.value.bindings| == 0 {
        exchanges := exchanges - {exchange};
      } else {
        exchanges := exchanges[exchange := cut.value];
      }
      ok := true;
    }

    /** UnbindQueue. */
    method UnbindQueue(exchange: Name, queue: Name, routingKey: Name, args: Args, conn: Name) returns (outcome: Outcome)
      requires Valid()
      modifies this`exchanges
      ensures Valid()
      ensures outcome == if exchange !in old(exchanges) then NoExchange
                         else if queue !in queues then NoQueue
                         else if queues[queue].exclusive && queues[queue].owner != Some(conn) then NotOwner
                         else if old(exchanges)[exchange].typ.Unsupported? then BadType
                         else if HasFit(old(exchanges)[exchange], queue, routingKey, args) then Done
                         else NoBinding
      ensures outcome.Done? ==> Unbind(old(exchanges)[exchange], queue, routingKey, args).Some?
      ensures outcome.Done? ==> var e := Unbind(old(exchanges)[exchange], queue, routingKey, args).value;
                                exchanges == if e.autoDelete && e.bindings == map[] then old(exchanges) - {exchange}
                                  else old(exchanges)[exchange := e]
      ensures !outcome.Done? ==> exchanges == old(exchanges)
    {
      hide Unbind, TableOk, HasFit;
      if exchange in exchanges { FitFound(exchanges[exchange], queue, routingKey, args); }
      if exchange !in exchanges { return NoExchange; }
      if queue !in queues { return NoQueue; }
      if !OwnedBy(queues[queue], conn) { return NotOwner; }
      if exchanges[exchange].typ.Unsupported? { return BadType; }
      var ok := DeleteBinding(exchange, queue, routingKey, args);
      outcome := if ok then Done else NoBinding;
    }

    /** The inner loop of removeQueueBindingsUnlocked. */
    static method Keep(bs: seq<Binding>, queue: Name) returns (kept: seq<Binding>)
      ensures kept == Others(bs, queue)
    {
      kept := [];
      for i := 0 to |bs|
        invariant kept == Others(bs[..i], queue)
      {
        OthersNext(bs, i, queue);
        if bs[i].queue != queue { kept := kept + [bs[i]]; }
      }
      assert bs[..|bs|] == bs;
    }

    /** The outer loop: every list of the exchange, in any order; an emptied one goes. */
    static method Sweep(bindings: map<Name, seq<Binding>>, queue: Name)
      returns (left: map<Name, seq<Binding>>, removed: bool)
      ensures Removed(bindings, left, queue) && removed == SomeOf(bindings, queue)
    {
      hide Others;
      left := bindings;
      removed := false;
      var todo := bindings.Keys;
      while todo != {}
        invariant todo <= bindings.Keys
        invariant forall k :: k in left <==> k in bindings && (k in todo || Others(bindings[k], queue) != [])
        invariant forall k | k in left :: left[k] == if k in todo then bindings[k] else Others(bindings[k], queue)
        invariant removed ==> SomeOf(bindings, queue)
        invariant !removed ==> forall k | k in bindings && k !in todo :: Others(bindings[k], queue) == bindings[k]
      {
        var k :| k in todo;
        todo := todo - {k};
        var kept := Keep(left[k], queue);
        if kept != left[k] {
          removed := true;
          assert SomeOf(bindings, queue);
        }
        left := if kept == [] then left - {k} else left[k := kept];
      }
    }

    /** removeQueueBindingsUnlocked: every binding of the queue goes, whatever its key, and with the last
        binding an auto-delete exchange. */
    method RemoveQueueBindings(exchange: Name, queue: Name) returns (left: map<Name, seq<Binding>>)
      requires Valid() && exchange in exchanges
      modifies this`exchanges
      ensures Valid()
      ensures var was := old(exchanges)[exchange];
              && Removed(was.bindings, left, queue)
              && exchanges == if SomeOf(was.bindings, queue) && was.autoDelete && left == map[]
                then old(exchanges) - {exchange}
                             else old(exchanges)[exchange := was.(bindings := left)]
    {
      var e := exchanges[exchange];
      var removed;
      left, removed := Sweep(e.bindings, queue);
      RemovedKeeps(e, left, queue);
      RemovedKnown(e, left, queue, queues.Keys);
      KnownMore(e.(bindings := left), queues.Keys - {queue}, queues.Keys);
      hide TableOk, QueuesKnown, Removed, SomeOf;
      if removed && e.autoDelete && |left| == 0 {
        exchanges := exchanges - {exchange};
      } else {
        exchanges := exchanges[exchange := e.(bindings := left)];
      }
    }

    static lemma KnownMore(e: Exchange, names: set<Name>, more: set<Name>)
      requires QueuesKnown(e, names) && names <= more
      ensures QueuesKnown(e, more)
    {
    }
  }
}
