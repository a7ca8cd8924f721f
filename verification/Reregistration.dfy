/** Registering everything again: exactly when the local store is complete does an empty registry take all
    of it, and every store the gateway builds is complete. */
module Reregistration {
  import opened Text
  import opened RolePaths
  import opened Resources
  import opened Registration

  /** The order kinds are posted in. */
  function Rank(kind: Kind): nat {
    match kind
    case Nodes => 0
    case Devices => 1
    case Sources => 2
    case Flows => 3
    case Senders => 4
    case Receivers => 5
  }

  /** What the store and the node itself provide. */
  predicate Provides(node: Resource, s: Store, x: Ref) {
    x == node.Self() || (x.kind in s && x.id in Ids(s[x.kind]))
  }

  /** Everything referred to is there. */
  ghost predicate Complete(node: Resource, s: Store) {
    forall kind, k :: kind in s && 0 <= k < |s[kind]| ==>
      forall j :: 0 <= j < |s[kind][k].Parents()| ==> Provides(node, s, s[kind][k].Parents()[j])
  }

  /** A store as the controller keeps it: no nodes in it, and tidy. */
  ghost predicate Proper(node: Resource, s: Store) {
    node.Node? && Nodes !in s && Tidy(s)
  }

  const ORDER: seq<Kind> := [Devices, Sources, Flows, Senders, Receivers]

  /** The lists one after the other, in order. */
  function InOrder(s: Store, kinds: seq<Kind>): seq<Resource> {
    if kinds == [] then [] else InOrder(s, kinds[..|kinds| - 1]) + List(s, kinds[|kinds| - 1])
  }

  class RemoteRegistry {
    var filed: Registry

    constructor ()
      ensures filed == map[]
    {
      filed := map[];
    }

    method Receive(r: Resource) returns (accepted: bool)
      modifies this
      ensures accepted == Accepts(old(filed), r) && filed == Post(old(filed), r)
    {
      accepted := Accepts(filed, r);
      if accepted {
        filed := filed[r.Self() := r];
      }
    }
  }

  /** Posts a list; a rejected resource is only logged. */
  method PostList(registry: RemoteRegistry, list: seq<Resource>) returns (clean: bool)
    modifies registry
    ensures registry.filed == PostAll(old(registry.filed), list) && (clean <==> NoneRejected(old(registry.filed), list))
  {
    clean := true;
    for k := 0 to |list|
      invariant registry.filed == PostAll(old(registry.filed), list[..k])
      invariant clean <==> NoneRejected(old(registry.filed), list[..k])
    {
      PostOne(old(registry.filed), list[..k], list[k]);
      assert list[..k + 1] == list[..k] + [list[k]];
      var accepted := registry.Receive(list[k]);
      clean := clean && accepted;
    }
    assert list[..|list|] == list;
  }

  /** Posts the node, then all lists in order; if the node's post does not get through, nothing more. */
  method ReRegisterAll(node: Resource, s: Store, registry: RemoteRegistry, nodeFails: bool) returns (clean: bool)
    requires node.Node?
    modifies registry
    ensures nodeFails ==> registry.filed == old(registry.filed) && !clean
    ensures !nodeFails ==> registry.filed == PostAll(old(registry.filed), [node] + InOrder(s, ORDER))
    ensures !nodeFails ==> (clean <==> NoneRejected(old(registry.filed), [node] + InOrder(s, ORDER)))
  {
    hide Accepts, Post, PostAll, NoneRejected;
    if nodeFails {
      return false;
    }
    ghost var was := registry.filed;
    clean := PostList(registry, [node]);
    assert [node] + InOrder(s, []) == [node];
    for i := 0 to |ORDER|
      invariant registry.filed == PostAll(was, [node] + InOrder(s, ORDER[..i]))
      invariant clean <==> NoneRejected(was, [node] + InOrder(s, ORDER[..i]))
    {
      assert ORDER[..i + 1][..i] == ORDER[..i];
      var list := List(s, ORDER[i]);
      PostSum(was, [node] + InOrder(s, ORDER[..i]), list);
      assert [node] + InOrder(s, ORDER[..i]) + list == [node] + InOrder(s, ORDER[..i + 1]);
      var accepted := PostList(registry, list);
      clean := clean && accepted;
    }
    assert ORDER[..|ORDER|] == ORDER;
  }

  // ---------------------------------------------------------------- when nothing is rejected

  /** A batch whose parents are all filed is accepted whole. */
  lemma {:induction false} BatchAccepted(reg: Registry, batch: seq<Resource>)
    requires forall k :: 0 <= k < |batch| ==> Accepts(reg, batch[k])
    ensures NoneRejected(reg, batch)
  {
    if batch != [] {
      hide Accepts;
      var n := |batch| - 1;
      BatchAccepted(reg, batch[..n]);
      StillAccepts(reg, batch[..n], batch[n]);
    }
  }

  lemma StillAccepts(reg: Registry, posts: seq<Resource>, r: Resource)
    requires Accepts(reg, r)
    ensures Accepts(PostAll(reg, posts), r)
  {
    forall j | 0 <= j < |r.Parents()|
      ensures r.Parents()[j] in PostAll(reg, posts)
    {
      PostsOnlyAdd(reg, posts, r.Parents()[j]);
    }
  }

  /** Parents are of kinds posted earlier. */
  lemma ParentsEarlier(r: Resource, j: nat)
    requires j < |r.Parents()|
    ensures Rank(r.Parents()[j].kind) < Rank(r.Kind())
  {
  }

  lemma OrderRank(i: nat)
    requires i < 5
    ensures Rank(ORDER[i]) == i + 1 && ORDER[i] != Nodes
  {
  }

  /** One more list posted. */
  lemma NextList(node: Resource, s: Store, reg: Registry, i: nat)
    requires Proper(node, s) && Complete(node, s) && i < 5
    requires forall x :: Provides(node, s, x) && Rank(x.kind) <= i ==> x in reg
    ensures NoneRejected(reg, List(s, ORDER[i]))
    ensures forall x :: Provides(node, s, x) && Rank(x.kind) <= i + 1 ==> x in PostAll(reg, List(s, ORDER[i]))
  {
    hide Provides, Accepts, Complete, Post, PostAll, NoneRejected;
    var kind, list := ORDER[i], List(s, ORDER[i]);
    OrderRank(i);
    forall k | 0 <= k < |list|
      ensures Accepts(reg, list[k])
    {
      ListAccepted(node, s, reg, kind, k);
    }
    BatchAccepted(reg, list);
    forall x | Provides(node, s, x) && Rank(x.kind) <= i + 1
      ensures x in PostAll(reg, list)
    {
      PostsOnlyAdd(reg, list, x);
      if Rank(x.kind) == i + 1 {
        KindOfRank(x.kind, i + 1);
        var k := ListedAt(node, s, x);
        assert list[k].Self() == x;
      }
    }
  }

  lemma SentStep(node: Resource, s: Store, i: nat)
    requires i < 5
    ensures [node] + InOrder(s, ORDER[..i + 1]) == [node] + InOrder(s, ORDER[..i]) + List(s, ORDER[i])
  {
    assert ORDER[..i + 1][..i] == ORDER[..i];
  }

  lemma NodeOnly(node: Resource, s: Store)
    ensures [node] + InOrder(s, ORDER[..0]) == [node]
  {
  }

  lemma NodeAccepted(node: Resource, s: Store)
    requires Proper(node, s)
    ensures [node] + InOrder(s, ORDER[..0]) == [node] && NoneRejected(map[], [node])
    ensures forall x :: Provides(node, s, x) && Rank(x.kind) <= 0 ==> x in PostAll(map[], [node])
  {
    PostOne(map[], [], node);
    assert [] + [node] == [node];
  }

  lemma {:induction false} CompleteAccepted(node: Resource, s: Store, i: nat)
    requires Proper(node, s) && Complete(node, s) && i <= 5
    ensures NoneRejected(map[], [node] + InOrder(s, ORDER[..i]))
    ensures forall x :: Provides(node, s, x) && Rank(x.kind) <= i ==>
              x in PostAll(map[], [node] + InOrder(s, ORDER[..i]))
  {
    hide Provides, Accepts, Complete, Post, PostAll, NoneRejected, InOrder, Proper;
    if i == 0 {
      NodeAccepted(node, s);
    } else {
      var before := [node] + InOrder(s, ORDER[..i - 1]);
      SentStep(node, s, i - 1);
      CompleteAccepted(node, s, i - 1);
      NextList(node, s, PostAll(map[], before), i - 1);
      PostSum(map[], before, List(s, ORDER[i - 1]));
    }
  }

  lemma ListAccepted(node: Resource, s: Store, reg: Registry, kind: Kind, k: nat)
    requires Proper(node, s) && Complete(node, s) && kind in s && k < |s[kind]|
    requires forall x :: Provides(node, s, x) && Rank(x.kind) < Rank(kind) ==> x in reg
    ensures Accepts(reg, s[kind][k])
  {
    var r := s[kind][k];
    assert r.Kind() == kind;
    forall j | 0 <= j < |r.Parents()|
      ensures r.Parents()[j] in reg
    {
      ParentsEarlier(r, j);
    }
  }

  lemma KindOfRank(kind: Kind, i: nat)
    requires 1 <= i <= 5 && Rank(kind) == i
    ensures ORDER[i - 1] == kind
  {
  }

  lemma ListedAt(node: Resource, s: Store, x: Ref) returns (k: nat)
    requires Proper(node, s) && Provides(node, s, x) && x.kind != Nodes
    ensures x.kind in s && k < |s[x.kind]| && s[x.kind][k].Self() == x
  {
    k :| 0 <= k < |Ids(s[x.kind])| && Ids(s[x.kind])[k] == x.id;
  }

  /** Only what the node and the store provide is ever filed. */
  lemma {:induction false} OnlyProvided(node: Resource, s: Store, i: nat, x: Ref)
    requires Proper(node, s) && i <= 5
    ensures (exists k :: 0 <= k < |[node] + InOrder(s, ORDER[..i])| && ([node] + InOrder(s, ORDER[..i]))[k].Self() == x)
              ==> Provides(node, s, x)
  {
    hide InOrder;
    var posts := [node] + InOrder(s, ORDER[..i]);
    if i == 0 {
      NodeOnly(node, s);
    } else {
      var before, list := [node] + InOrder(s, ORDER[..i - 1]), List(s, ORDER[i - 1]);
      SentStep(node, s, i - 1);
      OnlyProvided(node, s, i - 1, x);
      if k :| 0 <= k < |posts| && posts[k].Self() == x {
        if k < |before| {
          assert before[k].Self() == x;
        } else {
          assert list[k - |before|].Self() == x;
          assert Ids(list)[k - |before|] == x.id;
        }
      }
    }
  }

  /** Every resource of the store is posted. */
  lemma {:induction false} Posted(node: Resource, s: Store, i: nat, kind: Kind, k: nat) returns (at: nat)
    requires Proper(node, s) && kind in s && k < |s[kind]| && Rank(kind) <= i <= 5
    ensures at < |[node] + InOrder(s, ORDER[..i])| && ([node] + InOrder(s, ORDER[..i]))[at] == s[kind][k]
  {
    hide InOrder;
    assert s[kind][k].Kind() == kind && kind != Nodes;
    var before, list := [node] + InOrder(s, ORDER[..i - 1]), List(s, ORDER[i - 1]);
    SentStep(node, s, i - 1);
    if Rank(kind) == i {
      KindOfRank(kind, i);
      at := |before| + k;
    } else {
      at := Posted(node, s, i - 1, kind, k);
    }
  }

  /** An accepted post had its parents filed by posts before it. */
  lemma {:induction false} AcceptedHasParents(posts: seq<Resource>, at: nat, j: nat)
    requires NoneRejected(map[], posts) && at < |posts| && j < |posts[at].Parents()|
    ensures exists k :: 0 <= k < |posts| && posts[k].Self() == posts[at].Parents()[j]
  {
    var n := |posts| - 1;
    if at == n {
      PostsOnlyAdd(map[], posts[..n], posts[at].Parents()[j]);
      var k :| 0 <= k < n && posts[..n][k].Self() == posts[at].Parents()[j];
      assert posts[k].Self() == posts[at].Parents()[j];
    } else {
      AcceptedHasParents(posts[..n], at, j);
      var k :| 0 <= k < n && posts[..n][k].Self() == posts[..n][at].Parents()[j];
      assert posts[k].Self() == posts[at].Parents()[j];
    }
  }

  /** An empty registry takes the whole store, in the order it is posted, exactly when the store is
      complete. */
  lemma TakenIffComplete(node: Resource, s: Store)
    requires Proper(node, s)
    ensures NoneRejected(map[], [node] + InOrder(s, ORDER)) <==> Complete(node, s)
  {
    var posts := [node] + InOrder(s, ORDER);
    assert ORDER[..5] == ORDER;
    if Complete(node, s) {
      CompleteAccepted(node, s, 5);
    }
    if NoneRejected(map[], posts) {
      forall kind, k | kind in s && 0 <= k < |s[kind]|
        ensures forall j :: 0 <= j < |s[kind][k].Parents()| ==> Provides(node, s, s[kind][k].Parents()[j])
      {
        var at := Posted(node, s, 5, kind, k);
        forall j | 0 <= j < |s[kind][k].Parents()|
          ensures Provides(node, s, s[kind][k].Parents()[j])
        {
          AcceptedHasParents(posts, at, j);
          OnlyProvided(node, s, 5, s[kind][k].Parents()[j]);
        }
      }
    }
  }

  /** The registry is the local store: the same resources under the same identifiers. */
  ghost predicate Mirrors(reg: Registry, node: Resource, s: Store) {
    && (forall x :: x in reg <==> Provides(node, s, x))
    && node.Self() in reg && reg[node.Self()] == node
    && forall kind, k :: kind in s && 0 <= k < |s[kind]| ==>
         s[kind][k].Self() in reg && reg[s[kind][k].Self()] == s[kind][k]
  }

  lemma {:induction false} FiledValue(posts: seq<Resource>, x: Ref)
    requires x in PostAll(map[], posts)
    ensures exists k :: 0 <= k < |posts| && posts[k] == PostAll(map[], posts)[x] && posts[k].Self() == x
  {
    var n := |posts| - 1;
    if x in PostAll(map[], posts[..n]) {
      FiledValue(posts[..n], x);
      var k :| 0 <= k < n && posts[..n][k] == PostAll(map[], posts[..n])[x] && posts[..n][k].Self() == x;
      assert posts[k].Self() == x;
      assert posts[n] == posts[n];
    } else {
      assert posts[n].Self() == x;
    }
  }

  /** Two resources of a proper store under one identifier are the same. */
  lemma {:induction false} PostsDiffer(node: Resource, s: Store, i: nat, k: nat, kind: Kind, l: nat)
    requires Proper(node, s) && i <= 5 && k < |[node] + InOrder(s, ORDER[..i])|
    requires kind in s && l < |s[kind]| && ([node] + InOrder(s, ORDER[..i]))[k].Self() == s[kind][l].Self()
    ensures ([node] + InOrder(s, ORDER[..i]))[k] == s[kind][l]
  {
    hide InOrder;
    var posts := [node] + InOrder(s, ORDER[..i]);
    assert s[kind][l].Kind() == kind;
    if i == 0 {
      NodeOnly(node, s);
    } else {
      var before, list := [node] + InOrder(s, ORDER[..i - 1]), List(s, ORDER[i - 1]);
      SentStep(node, s, i - 1);
      if k < |before| {
        PostsDiffer(node, s, i - 1, k, kind, l);
      } else {
        var m := k - |before|;
        assert list[m].Kind() == ORDER[i - 1];
        assert Ids(list)[m] == Ids(s[kind])[l];
      }
    }
  }

  /** Registering a store again with an empty registry leaves the registry equal to the store exactly when
      the store is complete; otherwise something is missing. */
  lemma MirrorsIffComplete(node: Resource, s: Store)
    requires Proper(node, s)
    ensures Mirrors(PostAll(map[], [node] + InOrder(s, ORDER)), node, s) <==> Complete(node, s)
  {
    var posts := [node] + InOrder(s, ORDER);
    var reg := PostAll(map[], posts);
    assert ORDER[..5] == ORDER;
    if Complete(node, s) {
      CompleteAccepted(node, s, 5);
      MirrorsWhenTaken(node, s);
    }
    if Mirrors(reg, node, s) {
      forall kind, k | kind in s && 0 <= k < |s[kind]|
        ensures forall j :: 0 <= j < |s[kind][k].Parents()| ==> Provides(node, s, s[kind][k].Parents()[j])
      {
        FiledHasParents(posts, s[kind][k].Self());
      }
    }
  }

  /** What is filed was filed with its parents. */
  lemma {:induction false} FiledHasParents(posts: seq<Resource>, x: Ref)
    requires x in PostAll(map[], posts)
    ensures var reg := PostAll(map[], posts);
            forall j :: 0 <= j < |reg[x].Parents()| ==> reg[x].Parents()[j] in reg
  {
    var n := |posts| - 1;
    var was := PostAll(map[], posts[..n]);
    if x in was {
      FiledHasParents(posts[..n], x);
    }
  }

  lemma MirrorsWhenTaken(node: Resource, s: Store)
    requires Proper(node, s)
    requires NoneRejected(map[], [node] + InOrder(s, ORDER[..5]))
    requires forall x :: Provides(node, s, x) && Rank(x.kind) <= 5 ==>
               x in PostAll(map[], [node] + InOrder(s, ORDER[..5]))
    ensures Mirrors(PostAll(map[], [node] + InOrder(s, ORDER[..5])), node, s)
  {
    var posts := [node] + InOrder(s, ORDER[..5]);
    var reg := PostAll(map[], posts);
    forall x | x in reg
      ensures Provides(node, s, x)
    {
      PostsOnlyAdd(map[], posts, x);
      OnlyProvided(node, s, 5, x);
    }
    FiledValue(posts, node.Self());
    var at :| 0 <= at < |posts| && posts[at] == reg[node.Self()] && posts[at].Self() == node.Self();
    NodeFirst(node, s, 5, at);
    forall kind, k | kind in s && 0 <= k < |s[kind]|
      ensures s[kind][k].Self() in reg && reg[s[kind][k].Self()] == s[kind][k]
    {
      var x := s[kind][k].Self();
      assert Ids(s[kind])[k] == x.id;
      FiledValue(posts, x);
      var m :| 0 <= m < |posts| && posts[m] == reg[x] && posts[m].Self() == x;
      PostsDiffer(node, s, 5, m, kind, k);
    }
  }

  lemma {:induction false} NodeFirst(node: Resource, s: Store, i: nat, at: nat)
    requires Proper(node, s) && i <= 5 && at < |[node] + InOrder(s, ORDER[..i])|
    requires ([node] + InOrder(s, ORDER[..i]))[at].Self() == node.Self()
    ensures ([node] + InOrder(s, ORDER[..i]))[at] == node
  {
    if i > 0 {
      var before, list := [node] + InOrder(s, ORDER[..i - 1]), List(s, ORDER[i - 1]);
      SentStep(node, s, i - 1);
      OrderRank(i - 1);
      assert forall k :: 0 <= k < |list| ==> list[k].Kind() == ORDER[i - 1];
      if at < |before| {
        NodeFirst(node, s, i - 1, at);
      }
    }
  }

  // ---------------------------------------------------------------- the stores the gateway builds

  /** Registering provides the resource and takes nothing away. */
  lemma RegisteredProvides(node: Resource, s: Store, r: Resource, x: Ref)
    requires Proper(node, s) && !r.Node?
    ensures Provides(node, s, x) ==> Provides(node, Registered(s, r), x)
    ensures Provides(node, Registered(s, r), r.Self())
  {
    var list, s' := List(s, r.Kind()), Registered(s, r);
    UpsertIsMapUpdate(list, r, r.id);
    assert List(s', r.Kind()) == Upsert(list, r);
    var at := if Place(list, r.id).Some? then Place(list, r.id).value else |list|;
    assert Ids(Upsert(list, r))[at] == r.id;
    if r.Sender? || r.Receiver? {
      ListedKinds(s, r);
    }
    if x.kind == r.Kind() && x.kind in s && x.id in Ids(list) {
      var k :| 0 <= k < |list| && Ids(list)[k] == x.id;
      assert Ids(Upsert(list, r))[k] == x.id;
    }
  }

  /** Registering what refers to provided things keeps the store complete. */
  lemma RegisteredComplete(node: Resource, s: Store, r: Resource)
    requires Proper(node, s) && Complete(node, s) && !r.Node?
    requires forall j :: 0 <= j < |r.Parents()| ==> Provides(node, s, r.Parents()[j])
    ensures Proper(node, Registered(s, r)) && Complete(node, Registered(s, r))
  {
    var s': Store := Registered(s, r);
    RegisteredTidy(s, r);
    forall kind, k | kind in s' && 0 <= k < |s'[kind]|
      ensures forall j :: 0 <= j < |s'[kind][k].Parents()| ==> Provides(node, s', s'[kind][k].Parents()[j])
    {
      forall j | 0 <= j < |s'[kind][k].Parents()|
        ensures Provides(node, s', s'[kind][k].Parents()[j])
      {
        var p := s'[kind][k].Parents();
        ParentsOf(s, r, kind, k);
        RegisteredProvides(node, s, r, p[j]);
      }
    }
  }

  /** What a registered resource refers to: what the new one does, or what its predecessor did. */
  lemma ParentsOf(s: Store, r: Resource, kind: Kind, k: nat)
    requires Tidy(s) && kind in Registered(s, r) && k < |Registered(s, r)[kind]|
    ensures var p := Registered(s, r)[kind][k].Parents();
            p == r.Parents() || (kind in s && k < |s[kind]| && p == s[kind][k].Parents())
  {
    if r.Sender? || r.Receiver? {
      ListedKinds(s, r);
    }
  }

  lemma TripleComplete(node: Resource, s: Store, derive: string -> string, device: string, m: Meter)
    requires Proper(node, s) && Complete(node, s) && Provides(node, s, Ref(Devices, device))
    ensures var t := Triple(derive, device, m);
            var s' := Registered(Registered(Registered(s, t[0]), t[1]), t[2]);
            Proper(node, s') && Complete(node, s') && Provides(node, s', Ref(Devices, device))
  {
    hide Registered, Provides, Proper, Complete, IdName;
    assert Proper(node, s) ==> node.Node? by { ProperNode(node, s); }
    var t := Triple(derive, device, m);
    var s1 := Registered(s, t[0]);
    RegisteredComplete(node, s, t[0]);
    RegisteredProvides(node, s, t[0], Ref(Devices, device));
    var s2 := Registered(s1, t[1]);
    RegisteredComplete(node, s1, t[1]);
    RegisteredProvides(node, s1, t[1], Ref(Devices, device));
    RegisteredComplete(node, s2, t[2]);
    RegisteredProvides(node, s2, t[2], Ref(Devices, device));
  }

  lemma ProperNode(node: Resource, s: Store)
    requires Proper(node, s)
    ensures node.Node?
  {
  }

  /** Registering a receiver of this node keeps a store complete. */
  lemma {:induction false} ReceiverComplete(node: Resource, s: Store, derive: string -> string,
                                            device: Resource, meters: seq<Meter>)
    requires Proper(node, s) && Complete(node, s) && device.Device? && device.node == node.id
    ensures var s' := RegisteredAll(s, [device] + Triples(derive, device.id, meters));
            Proper(node, s') && Complete(node, s') && Provides(node, s', Ref(Devices, device.id))
  {
    hide Registered, Provides, Complete;
    if meters == [] {
      NothingYet(s, derive, device.id);
      RegisteredOne(s, [], device);
      assert Provides(node, s, Ref(Nodes, node.id)) by { NodeProvided(node, s); }
      RegisteredComplete(node, s, device);
      RegisteredProvides(node, s, device, device.Self());
    } else {
      hide Proper;
      var n := |meters| - 1;
      var before, t := [device] + Triples(derive, device.id, meters[..n]), Triple(derive, device.id, meters[n]);
      ReceiverComplete(node, s, derive, device, meters[..n]);
      RegisteredThree(s, before, t);
      TripleComplete(node, RegisteredAll(s, before), derive, device.id, meters[n]);
      assert [device] + Triples(derive, device.id, meters) == before + t;
    }
  }

  lemma NodeProvided(node: Resource, s: Store)
    requires node.Node?
    ensures Provides(node, s, Ref(Nodes, node.id))
  {
  }

  /** A receiver that arrives: its device and its meters. */
  datatype Arrival = Arrival(device: Resource, meters: seq<Meter>)

  function StoreAfter(derive: string -> string, arrivals: seq<Arrival>): Store {
    if arrivals == [] then map[]
    else
      var last := arrivals[|arrivals| - 1];
      RegisteredAll(StoreAfter(derive, arrivals[..|arrivals| - 1]),
                    [last.device] + Triples(derive, last.device.id, Firsts(last.meters)))
  }

  /** After any receivers of this node, in any order and again and again, the store is complete: a new
      registry takes all of it and then mirrors it. */
  lemma {:induction false} GatewayStoreIsTaken(node: Resource, derive: string -> string, arrivals: seq<Arrival>)
    requires node.Node?
    requires forall k :: 0 <= k < |arrivals| ==> arrivals[k].device.Device? && arrivals[k].device.node == node.id
    ensures var s := StoreAfter(derive, arrivals);
            var posts := [node] + InOrder(s, ORDER);
            NoneRejected(map[], posts) && Mirrors(PostAll(map[], posts), node, s)
  {
    hide Complete, NoneRejected, Mirrors, PostAll, InOrder;
    StoreComplete(node, derive, arrivals);
    TakenIffComplete(node, StoreAfter(derive, arrivals));
    MirrorsIffComplete(node, StoreAfter(derive, arrivals));
  }

  lemma {:induction false} StoreComplete(node: Resource, derive: string -> string, arrivals: seq<Arrival>)
    requires node.Node?
    requires forall k :: 0 <= k < |arrivals| ==> arrivals[k].device.Device? && arrivals[k].device.node == node.id
    ensures Proper(node, StoreAfter(derive, arrivals)) && Complete(node, StoreAfter(derive, arrivals))
  {
    if arrivals != [] {
      hide Complete, Proper, RegisteredAll;
      var n := |arrivals| - 1;
      StoreComplete(node, derive, arrivals[..n]);
      ReceiverComplete(node, StoreAfter(derive, arrivals[..n]), derive, arrivals[n].device, Firsts(arrivals[n].meters));
    }
  }
}
