/**
  Wiring the declared subscriptions of a topology, node by node: which node acts on
  a pair, what stops a node from starting, and that together the nodes wire each
  declared pair exactly once.
 */
module NodeWiring {
  import opened Prelude

  datatype ActorDescriptor = ActorDescriptor(node: string, nodeAddress: string, address: string, parameterized: bool)

  datatype Subscription = Subscription(from: string, targets: seq<string>, events: seq<string>)

  datatype Topology = Topology(actors: map<string, ActorDescriptor>, subscriptions: seq<Subscription>)

  datatype Pair = Pair(from: string, target: string, events: seq<string>)

  datatype Link =
    | LocalLink(pair: Pair)
    | RemoteLink(pair: Pair, publisherNode: string, publisherPath: string, subscriberPath: string)

  datatype Role = Publisher | Subscriber

  datatype WiringError =
    | UnknownActor(role: Role, key: string)
    | ParameterizedActor(role: Role, key: string)
    | NoTransport(pair: Pair)
    | NotSpawned(key: string, pair: Pair)
    | LinkFailed(link: Link)

  /** `made` are the links the system holds when the error is thrown; the error carries no teardown for them. */
  datatype Wiring = Wired(teardowns: seq<Link>) | Failed(error: WiringError, made: seq<Link>)

  /** What a node knows when it starts; `refuses` are the links its system would throw on. */
  datatype Node = Node(key: string, spawned: set<string>, transport: bool, refuses: set<Link>)

  function ActorProblem(t: Topology, key: string, role: Role): Option<WiringError> {
    if key !in t.actors then Some(UnknownActor(role, key))
    else if t.actors[key].parameterized then Some(ParameterizedActor(role, key))
    else None
  }

  function PairProblem(t: Topology, pair: Pair): Option<WiringError> {
    if ActorProblem(t, pair.from, Publisher).Some? then ActorProblem(t, pair.from, Publisher)
    else ActorProblem(t, pair.target, Subscriber)
  }

  datatype Action = Skip | Make(link: Link) | Stop(error: WiringError)

  predicate Declared(t: Topology, pair: Pair) { pair.from in t.actors && pair.target in t.actors }

  /** What one node does about one declared pair. */
  function OnPair(t: Topology, n: Node, pair: Pair): Action {
    var problem := PairProblem(t, pair);
    if problem.Some? then Stop(problem.value)
    else
      var (from, target) := (t.actors[pair.from], t.actors[pair.target]);
      var (ownsPublisher, ownsSubscriber) := (from.node == n.key, target.node == n.key);
      if !ownsPublisher && !ownsSubscriber then Skip
      else if ownsPublisher != ownsSubscriber then
        if !n.transport then Stop(NoTransport(pair))
        else if !ownsSubscriber then Skip
        else
          var link := RemoteLink(pair, from.nodeAddress, from.address, target.address);
          if link in n.refuses then Stop(LinkFailed(link)) else Make(link)
      else if pair.from !in n.spawned then Stop(NotSpawned(pair.from, pair))
      else if pair.target !in n.spawned then Stop(NotSpawned(pair.target, pair))
      else if LocalLink(pair) in n.refuses then Stop(LinkFailed(LocalLink(pair)))
      else Make(LocalLink(pair))
  }

  function PairsOf(s: Subscription): (pairs: seq<Pair>)
    ensures |pairs| == |s.targets|
  {
    seq(|s.targets|, i requires 0 <= i < |s.targets| => Pair(s.from, s.targets[i], s.events))
  }

  function Pairs(subscriptions: seq<Subscription>): seq<Pair> {
    if subscriptions == [] then []
    else Pairs(subscriptions[..|subscriptions| - 1]) + PairsOf(subscriptions[|subscriptions| - 1])
  }

  /** The pairs in declaration order, up to the first that stops the node. */
  function WireAll(t: Topology, n: Node, pairs: seq<Pair>): Wiring {
    if pairs == [] then Wired([])
    else
      var earlier := WireAll(t, n, pairs[..|pairs| - 1]);
      if earlier.Failed? then earlier
      else
        match OnPair(t, n, pairs[|pairs| - 1])
        case Skip => earlier
        case Make(link) => Wired(earlier.teardowns + [link])
        case Stop(error) => Failed(error, earlier.teardowns)
  }

  lemma {:induction false} FailureStays(t: Topology, n: Node, pairs: seq<Pair>, more: seq<Pair>)
    requires WireAll(t, n, pairs).Failed?
    ensures WireAll(t, n, pairs + more) == WireAll(t, n, pairs)
    decreases |more|
  {
    if more == [] {
      assert pairs + more == pairs;
    } else {
      FailureStays(t, n, pairs, more[..|more| - 1]);
      assert (pairs + more)[..|pairs + more| - 1] == pairs + more[..|more| - 1];
    }
  }

  lemma OneMorePair(t: Topology, n: Node, pairs: seq<Pair>, pair: Pair)
    ensures (pairs + [pair])[..|pairs|] == pairs
    ensures WireAll(t, n, pairs + [pair]) ==
            var earlier := WireAll(t, n, pairs);
            if earlier.Failed? then earlier
            else
              match OnPair(t, n, pair)
              case Skip => earlier
              case Make(link) => Wired(earlier.teardowns + [link])
              case Stop(error) => Failed(error, earlier.teardowns)
  {
    assert (pairs + [pair])[..|pairs|] == pairs;
  }

  lemma {:induction false} PairsSplit(subscriptions: seq<Subscription>, i: nat)
    requires i < |subscriptions|
    ensures exists rest :: Pairs(subscriptions) == Pairs(subscriptions[..i]) + PairsOf(subscriptions[i]) + rest
    decreases |subscriptions|
  {
    var k := |subscriptions| - 1;
    if i == k {
      assert Pairs(subscriptions) == Pairs(subscriptions[..i]) + PairsOf(subscriptions[i]) + [];
    } else {
      PairsSplit(subscriptions[..k], i);
      assert subscriptions[..k][..i] == subscriptions[..i];
      var rest :| Pairs(subscriptions[..k]) == Pairs(subscriptions[..i]) + PairsOf(subscriptions[i]) + rest;
      var more := rest + PairsOf(subscriptions[k]);
      assert Pairs(subscriptions) == Pairs(subscriptions[..i]) + PairsOf(subscriptions[i]) + more;
    }
  }

  /** The failure of a prefix of the declared pairs is the failure of the whole wiring. */
  lemma EarlyFailure(t: Topology, n: Node, i: nat, j: nat)
    requires i < |t.subscriptions| && j <= |t.subscriptions[i].targets|
    requires WireAll(t, n, Pairs(t.subscriptions[..i]) + PairsOf(t.subscriptions[i])[..j]).Failed?
    ensures WireAll(t, n, Pairs(t.subscriptions)) ==
            WireAll(t, n, Pairs(t.subscriptions[..i]) + PairsOf(t.subscriptions[i])[..j])
  {
    PairsSplit(t.subscriptions, i);
    var here := PairsOf(t.subscriptions[i]);
    var rest :| Pairs(t.subscriptions) == Pairs(t.subscriptions[..i]) + here + rest;
    var done := Pairs(t.subscriptions[..i]) + here[..j];
    assert Pairs(t.subscriptions) == done + (here[j..] + rest);
    FailureStays(t, n, done, here[j..] + rest);
  }

  lemma WholeSubscription(t: Topology, i: nat)
    requires i < |t.subscriptions|
    ensures Pairs(t.subscriptions[..i + 1]) == Pairs(t.subscriptions[..i]) + PairsOf(t.subscriptions[i])
  {
    assert t.subscriptions[..i + 1][..i] == t.subscriptions[..i];
  }

  lemma NextPair(s: Subscription, j: nat)
    requires j < |s.targets|
    ensures PairsOf(s)[..j + 1] == PairsOf(s)[..j] + [Pair(s.from, s.targets[j], s.events)]
  {
  }

  /** The loop over subscriptions and their targets, pushing a teardown for each link made. */
  method WireOwnedSubscriptions(t: Topology, n: Node) returns (wiring: Wiring)
    ensures wiring == WireAll(t, n, Pairs(t.subscriptions))
  {
    var teardowns: seq<Link> := [];
    for i := 0 to |t.subscriptions|
      invariant WireAll(t, n, Pairs(t.subscriptions[..i])) == Wired(teardowns)
    {
      var subscription := t.subscriptions[i];
      ghost var before, here := Pairs(t.subscriptions[..i]), PairsOf(subscription);
      assert before + here[..0] == before;
      for j := 0 to |subscription.targets|
        invariant WireAll(t, n, before + here[..j]) == Wired(teardowns)
      {
        var pair := Pair(subscription.from, subscription.targets[j], subscription.events);
        NextPair(subscription, j);
        assert before + here[..j + 1] == before + here[..j] + [pair];
        OneMorePair(t, n, before + here[..j], pair);
        var action := OnPair(t, n, pair);
        if action.Stop? {
          EarlyFailure(t, n, i, j + 1);
          return Failed(action.error, teardowns);
        }
        if action.Make? {
          teardowns := teardowns + [action.link];
        }
      }
      assert here[..|here|] == here;
      WholeSubscription(t, i);
    }
    assert t.subscriptions[..|t.subscriptions|] == t.subscriptions;
    return Wired(teardowns);
  }

  // ---------------------------------------------------------------- each pair exactly once

  /** A node that can start: it has a transport, it spawned what it owns, and its system refuses no link. */
  ghost predicate Ready(t: Topology, n: Node) {
    && n.transport && n.refuses == {}
    && (forall key :: key in t.actors && t.actors[key].node == n.key && !t.actors[key].parameterized ==>
          key in n.spawned)
  }

  /** A pair a declaration may name. */
  predicate Sound(t: Topology, pair: Pair) {
    && Declared(t, pair)
    && !t.actors[pair.from].parameterized && !t.actors[pair.target].parameterized
  }

  /** On a ready node a sound pair makes a link exactly when the subscriber lives there; nothing stops it. */
  lemma SubscriberActs(t: Topology, n: Node, pair: Pair)
    requires Ready(t, n)
    ensures OnPair(t, n, pair).Stop? <==> !Sound(t, pair)
    ensures Sound(t, pair) ==> (OnPair(t, n, pair).Make? <==> t.actors[pair.target].node == n.key)
    ensures OnPair(t, n, pair).Make? ==> OnPair(t, n, pair).link.pair == pair
  {
  }

  function Where(pairs: seq<Pair>, t: Topology, nodes: set<string>): seq<Pair> {
    if pairs == [] then []
    else
      var last := pairs[|pairs| - 1];
      Where(pairs[..|pairs| - 1], t, nodes)
      + (if last.target in t.actors && t.actors[last.target].node in nodes then [last] else [])
  }

  function LinkedPairs(links: seq<Link>): seq<Pair> {
    seq(|links|, i requires 0 <= i < |links| => links[i].pair)
  }

  /** A ready node starts iff all pairs are sound, and wires exactly the pairs whose subscriber it owns, in order. */
  lemma {:induction false} NodeWiresItsSubscribers(t: Topology, n: Node, pairs: seq<Pair>)
    requires Ready(t, n)
    ensures WireAll(t, n, pairs).Wired? <==> forall i :: 0 <= i < |pairs| ==> Sound(t, pairs[i])
    ensures WireAll(t, n, pairs).Wired? ==> LinkedPairs(WireAll(t, n, pairs).teardowns) == Where(pairs, t, {n.key})
    decreases |pairs|
  {
    if pairs != [] {
      var earlier, last := pairs[..|pairs| - 1], pairs[|pairs| - 1];
      NodeWiresItsSubscribers(t, n, earlier);
      SubscriberActs(t, n, last);
      assert forall i :: 0 <= i < |earlier| ==> earlier[i] == pairs[i];
      if WireAll(t, n, pairs).Wired? && OnPair(t, n, last).Make? {
        var made := WireAll(t, n, earlier).teardowns;
        assert LinkedPairs(made + [OnPair(t, n, last).link]) == LinkedPairs(made) + [last];
      }
    }
  }

  lemma {:induction false} WhereSplits(pairs: seq<Pair>, t: Topology, nodes: set<string>, node: string)
    requires node !in nodes
    ensures multiset(Where(pairs, t, nodes + {node})) ==
            multiset(Where(pairs, t, nodes)) + multiset(Where(pairs, t, {node}))
  {
    if pairs != [] {
      WhereSplits(pairs[..|pairs| - 1], t, nodes, node);
    }
  }

  /** The pairs wired by a list of nodes, one after the other. */
  function WiredBy(t: Topology, nodes: seq<Node>, pairs: seq<Pair>): multiset<Pair>
    requires forall i :: 0 <= i < |nodes| ==> WireAll(t, nodes[i], pairs).Wired?
  {
    if nodes == [] then multiset{}
    else WiredBy(t, nodes[..|nodes| - 1], pairs)
         + multiset(LinkedPairs(WireAll(t, nodes[|nodes| - 1], pairs).teardowns))
  }

  function Keys(nodes: seq<Node>): set<string> { set i | 0 <= i < |nodes| :: nodes[i].key }

  predicate Distinct(nodes: seq<Node>) { forall i, j :: 0 <= i < j < |nodes| ==> nodes[i].key != nodes[j].key }

  ghost predicate AllReady(t: Topology, nodes: seq<Node>) {
    Distinct(nodes) && forall i :: 0 <= i < |nodes| ==> Ready(t, nodes[i])
  }

  predicate AllSound(t: Topology, pairs: seq<Pair>) { forall i :: 0 <= i < |pairs| ==> Sound(t, pairs[i]) }

  /** Every node starts. */
  lemma AllNodesStart(t: Topology, nodes: seq<Node>, pairs: seq<Pair>)
    requires AllReady(t, nodes) && AllSound(t, pairs)
    ensures forall i :: 0 <= i < |nodes| ==> WireAll(t, nodes[i], pairs).Wired?
  {
    forall i | 0 <= i < |nodes| ensures WireAll(t, nodes[i], pairs).Wired? {
      NodeWiresItsSubscribers(t, nodes[i], pairs);
    }
  }

  lemma LastKey(nodes: seq<Node>)
    requires nodes != [] && Distinct(nodes)
    ensures Keys(nodes) == Keys(nodes[..|nodes| - 1]) + {nodes[|nodes| - 1].key}
    ensures nodes[|nodes| - 1].key !in Keys(nodes[..|nodes| - 1])
    ensures Distinct(nodes[..|nodes| - 1])
  {
  }

  lemma {:induction false} NodesWireTheirShare(t: Topology, nodes: seq<Node>, pairs: seq<Pair>)
    requires AllReady(t, nodes) && AllSound(t, pairs)
    requires forall i :: 0 <= i < |nodes| ==> WireAll(t, nodes[i], pairs).Wired?
    ensures WiredBy(t, nodes, pairs) == multiset(Where(pairs, t, Keys(nodes)))
    decreases |nodes|
  {
    if nodes == [] {
      NowhereIsEmpty(pairs, t);
    } else {
      var earlier, last := nodes[..|nodes| - 1], nodes[|nodes| - 1];
      LastKey(nodes);
      NodesWireTheirShare(t, earlier, pairs);
      NodeWiresItsSubscribers(t, last, pairs);
      WhereSplits(pairs, t, Keys(earlier), last.key);
    }
  }

  lemma {:induction false} NowhereIsEmpty(pairs: seq<Pair>, t: Topology)
    ensures Where(pairs, t, Keys([])) == []
  {
    if pairs != [] {
      NowhereIsEmpty(pairs[..|pairs| - 1], t);
    }
  }

  lemma {:induction false} EverywhereIsAll(pairs: seq<Pair>, t: Topology, nodes: set<string>)
    requires forall i :: 0 <= i < |pairs| ==> Sound(t, pairs[i]) && t.actors[pairs[i].target].node in nodes
    ensures Where(pairs, t, nodes) == pairs
  {
    if pairs != [] {
      EverywhereIsAll(pairs[..|pairs| - 1], t, nodes);
    }
  }

  /**
    Exactly once: when every node of the topology starts ready, the links the nodes make are, as a multiset,
    exactly the declared pairs; no pair is left out and none is wired by two nodes.
   */
  lemma {:induction false} EveryPairWiredOnce(t: Topology, nodes: seq<Node>)
    requires AllReady(t, nodes)
    requires forall key :: key in t.actors ==> t.actors[key].node in Keys(nodes)
    requires AllSound(t, Pairs(t.subscriptions))
    ensures forall i :: 0 <= i < |nodes| ==> WireAll(t, nodes[i], Pairs(t.subscriptions)).Wired?
    ensures WiredBy(t, nodes, Pairs(t.subscriptions)) == multiset(Pairs(t.subscriptions))
  {
    AllNodesStart(t, nodes, Pairs(t.subscriptions));
    NodesWireTheirShare(t, nodes, Pairs(t.subscriptions));
    EverywhereIsAll(Pairs(t.subscriptions), t, Keys(nodes));
  }

  // ---------------------------------------------------------------- a wiring that stops

  /** The first pair that stops the node. */
  ghost predicate FirstStop(t: Topology, n: Node, pairs: seq<Pair>, k: nat) {
    k < |pairs| && OnPair(t, n, pairs[k]).Stop? && forall j :: 0 <= j < k ==> !OnPair(t, n, pairs[j]).Stop?
  }

  predicate SomeMade(t: Topology, n: Node, pairs: seq<Pair>, k: nat)
    requires k <= |pairs|
  {
    exists i :: 0 <= i < k && OnPair(t, n, pairs[i]).Make?
  }

  /** Wiring runs through exactly when no pair stops it, and has made a link exactly when some pair made one. */
  lemma {:induction false} WiringSoFar(t: Topology, n: Node, pairs: seq<Pair>)
    ensures WireAll(t, n, pairs).Wired? <==> forall j :: 0 <= j < |pairs| ==> !OnPair(t, n, pairs[j]).Stop?
    ensures WireAll(t, n, pairs).Wired? ==> (WireAll(t, n, pairs).teardowns != [] <==> SomeMade(t, n, pairs, |pairs|))
    decreases |pairs|
  {
    if pairs != [] {
      var earlier := pairs[..|pairs| - 1];
      WiringSoFar(t, n, earlier);
      assert forall j :: 0 <= j < |earlier| ==> earlier[j] == pairs[j];
    }
  }

  /** A wiring that stops does so at the first pair that stops it, after exactly the links of the pairs before. */
  lemma {:induction false} StopsAtFirst(t: Topology, n: Node, pairs: seq<Pair>, k: nat)
    requires FirstStop(t, n, pairs, k)
    ensures WireAll(t, n, pairs[..k]).Wired?
    ensures WireAll(t, n, pairs) == Failed(OnPair(t, n, pairs[k]).error, WireAll(t, n, pairs[..k]).teardowns)
    decreases |pairs|
  {
    WiringSoFar(t, n, pairs[..k]);
    OneMorePair(t, n, pairs[..k], pairs[k]);
    assert pairs[..k + 1] == pairs[..k] + [pairs[k]];
    assert pairs == pairs[..k + 1] + pairs[k + 1..];
    FailureStays(t, n, pairs[..k + 1], pairs[k + 1..]);
  }

  /**
    The links a node leaves behind without a teardown in its hands, exactly: wiring fails and some link was
    made if and only if the first pair that stops the node comes after one that made a link.
   */
  lemma {:induction false} FailureLosesTeardowns(t: Topology, n: Node, pairs: seq<Pair>)
    ensures WireAll(t, n, pairs).Failed? && WireAll(t, n, pairs).made != [] <==>
            exists k :: 0 <= k < |pairs| && FirstStop(t, n, pairs, k) && SomeMade(t, n, pairs, k)
  {
    if WireAll(t, n, pairs).Failed? {
      WiringSoFar(t, n, pairs);
      var k := LeastStop(t, n, pairs);
      StopsAtFirst(t, n, pairs, k);
      MadeBefore(t, n, pairs, k);
    } else {
      WiringSoFar(t, n, pairs);
    }
    forall k | 0 <= k < |pairs| && FirstStop(t, n, pairs, k) && SomeMade(t, n, pairs, k)
      ensures WireAll(t, n, pairs).Failed? && WireAll(t, n, pairs).made != []
    {
      StopsAtFirst(t, n, pairs, k);
      MadeBefore(t, n, pairs, k);
    }
  }

  lemma MadeBefore(t: Topology, n: Node, pairs: seq<Pair>, k: nat)
    requires FirstStop(t, n, pairs, k)
    ensures WireAll(t, n, pairs[..k]).Wired?
    ensures WireAll(t, n, pairs[..k]).teardowns != [] <==> SomeMade(t, n, pairs, k)
  {
    WiringSoFar(t, n, pairs[..k]);
    assert forall j :: 0 <= j < k ==> pairs[..k][j] == pairs[j];
  }

  lemma {:induction false} LeastStop(t: Topology, n: Node, pairs: seq<Pair>) returns (k: nat)
    requires exists j :: 0 <= j < |pairs| && OnPair(t, n, pairs[j]).Stop?
    ensures FirstStop(t, n, pairs, k)
  {
    k := 0;
    while !OnPair(t, n, pairs[k]).Stop?
      invariant k < |pairs| && forall j :: 0 <= j < k ==> !OnPair(t, n, pairs[j]).Stop?
      decreases |pairs| - k
    {
      k := k + 1;
    }
  }

  /** On a ready node, read off the topology: a pair whose subscriber lives here comes before the first unsound pair. */
  ghost predicate OwnPairBeforeUnsound(t: Topology, n: Node, pairs: seq<Pair>) {
    exists i, k ::
      && 0 <= i < k < |pairs| && !Sound(t, pairs[k]) && (forall j :: 0 <= j < k ==> Sound(t, pairs[j]))
      && t.actors[pairs[i].target].node == n.key
  }

  lemma {:induction false} ReadyNodeLosesTeardowns(t: Topology, n: Node, pairs: seq<Pair>)
    requires Ready(t, n)
    ensures WireAll(t, n, pairs).Failed? && WireAll(t, n, pairs).made != [] <==> OwnPairBeforeUnsound(t, n, pairs)
  {
    FailureLosesTeardowns(t, n, pairs);
    forall k | 0 <= k < |pairs| && FirstStop(t, n, pairs, k) && SomeMade(t, n, pairs, k)
      ensures OwnPairBeforeUnsound(t, n, pairs)
    {
      var i :| 0 <= i < k && OnPair(t, n, pairs[i]).Make?;
      forall j | 0 <= j <= k ensures Sound(t, pairs[j]) <==> !OnPair(t, n, pairs[j]).Stop? {
        SubscriberActs(t, n, pairs[j]);
      }
      SubscriberActs(t, n, pairs[i]);
    }
    if OwnPairBeforeUnsound(t, n, pairs) {
      var i, k :| 0 <= i < k < |pairs| && !Sound(t, pairs[k]) && (forall j :: 0 <= j < k ==> Sound(t, pairs[j]))
                  && t.actors[pairs[i].target].node == n.key;
      forall j | 0 <= j <= k ensures Sound(t, pairs[j]) <==> !OnPair(t, n, pairs[j]).Stop? {
        SubscriberActs(t, n, pairs[j]);
      }
      SubscriberActs(t, n, pairs[i]);
      assert FirstStop(t, n, pairs, k) && SomeMade(t, n, pairs, k);
    }
  }

  /** A pair with one end on the node and the other elsewhere. */
  predicate Shared(t: Topology, n: Node, pair: Pair) {
    Declared(t, pair) && (t.actors[pair.from].node == n.key) != (t.actors[pair.target].node == n.key)
  }

  lemma PairWithoutTransport(t: Topology, n: Node, pair: Pair)
    requires Ready(t, n.(transport := true)) && !n.transport
    ensures OnPair(t, n, pair).Stop? <==> !Sound(t, pair) || Shared(t, n, pair)
    ensures OnPair(t, n, pair).Make? ==> OnPair(t, n, pair).link == LocalLink(pair)
  {
  }

  /**
    A node without a transport that is otherwise ready starts if and only if every declared pair is sound and
    it shares none with another node; it then wires, locally, exactly the pairs whose subscriber lives on it.
   */
  lemma {:induction false} WithoutTransport(t: Topology, n: Node, pairs: seq<Pair>)
    requires Ready(t, n.(transport := true)) && !n.transport
    ensures WireAll(t, n, pairs).Wired? <==>
            forall i :: 0 <= i < |pairs| ==> Sound(t, pairs[i]) && !Shared(t, n, pairs[i])
    ensures WireAll(t, n, pairs).Wired? ==>
              && LinkedPairs(WireAll(t, n, pairs).teardowns) == Where(pairs, t, {n.key})
              && forall link :: link in WireAll(t, n, pairs).teardowns ==> link.LocalLink?
    decreases |pairs|
  {
    if pairs != [] {
      var earlier, last := pairs[..|pairs| - 1], pairs[|pairs| - 1];
      WithoutTransport(t, n, earlier);
      PairWithoutTransport(t, n, last);
      assert forall i :: 0 <= i < |earlier| ==> earlier[i] == pairs[i];
      if WireAll(t, n, pairs).Wired? && OnPair(t, n, last).Make? {
        var made := WireAll(t, n, earlier).teardowns;
        assert LinkedPairs(made + [OnPair(t, n, last).link]) == LinkedPairs(made) + [last];
      }
    }
  }

  /** A topology of one actor that listens to itself, and then to an actor nobody declared. */
  const HALF_WIRED := Topology(map["a" := ActorDescriptor("n", "node://n", "actor://n/a", false)],
                               [Subscription("a", ["a"], []), Subscription("ghost", ["a"], [])])

  lemma HalfWiredLosesOne()
    ensures WireAll(HALF_WIRED, Node("n", {"a"}, true, {}), Pairs(HALF_WIRED.subscriptions)) ==
            Failed(UnknownActor(Publisher, "ghost"), [LocalLink(Pair("a", "a", []))])
  {
    var t, n := HALF_WIRED, Node("n", {"a"}, true, {});
    var first, second := Pair("a", "a", []), Pair("ghost", "a", []);
    assert PairsOf(t.subscriptions[0]) == [first] && PairsOf(t.subscriptions[1]) == [second];
    assert t.subscriptions[..1] == [t.subscriptions[0]] && t.subscriptions[..1][..0] == [];
    assert Pairs(t.subscriptions[..1]) == [first];
    assert Pairs(t.subscriptions) == [first] + [second];
    OneMorePair(t, n, [], first);
    assert [] + [first] == [first];
    OneMorePair(t, n, [first], second);
    assert "ghost" != "a";
  }
}
