/** A node's whole life in a registry: what registering filed, a finished unregistration has taken away. */
module Lifecycle {
  import opened Text
  import opened RolePaths
  import opened Resources
  import opened Registration
  import opened ShureModels
  import Reregistration
  import U = Unregistration

  // ---------------------------------------------------------------- what the collecting loops read

  /** The names the requests use for the kinds. */
  function KindName(kind: Kind): string {
    match kind
    case Nodes => "node"
    case Devices => "devices"
    case Sources => "sources"
    case Flows => "flows"
    case Senders => "senders"
    case Receivers => "receivers"
  }

  lemma KindNamesDiffer(a: Kind, b: Kind)
    requires KindName(a) == KindName(b)
    ensures a == b
  {
    assert "senders"[1] == 'e' && "sources"[1] == 'o' && "devices"[0] == 'd';
    assert |KindName(a)| == |KindName(b)|;
  }

  /** The kinds in the order the loops collect them. */
  const CHILD_KINDS: seq<Kind> := [Receivers, Senders, Flows, Sources]

  function DeviceName(r: Resource): Option<string> {
    match r
    case Node(_, _) => None
    case Device(_, _, _, _, _) => None
    case Source(_, device, _) => Some(device)
    case Flow(_, _, device, _) => Some(device)
    case Sender(_, device, _, _) => Some(device)
    case Receiver(_, device, _) => Some(device)
  }

  function Entries(kind: Kind, list: seq<Resource>): seq<U.Entry> {
    if list == [] then []
    else Entries(kind, list[..|list| - 1]) +
         [U.Entry(KindName(kind), Some(list[|list| - 1].id), DeviceName(list[|list| - 1]))]
  }

  function EntriesOf(s: Store, kinds: seq<Kind>): seq<U.Entry> {
    if kinds == [] then []
    else EntriesOf(s, kinds[..|kinds| - 1]) + Entries(kinds[|kinds| - 1], List(s, kinds[|kinds| - 1]))
  }

  lemma {:induction false} ChildrenSum(a: seq<U.Entry>, b: seq<U.Entry>)
    ensures U.Children(a + b) == U.Children(a) + U.Children(b)
  {
    if b == [] {
      assert a + b == a;
    } else {
      assert (a + b)[..|a + b| - 1] == a + b[..|b| - 1];
      ChildrenSum(a, b[..|b| - 1]);
    }
  }

  predicate IsChild(c: U.Child, kind: Kind, r: Resource) {
    c.kind == KindName(kind) && c.id == r.id && DeviceName(r) == Some(c.device)
  }

  /** The child of a resource in one of these lists. */
  ghost predicate FromLists(s: Store, kinds: seq<Kind>, c: U.Child) {
    exists kind, r :: kind in kinds && r in List(s, kind) && IsChild(c, kind, r)
  }

  /** One list gives one child for each of its resources. */
  lemma {:induction false} ListChildren(kind: Kind, list: seq<Resource>)
    requires forall k :: 0 <= k < |list| ==> DeviceName(list[k]).Some?
    ensures var children := U.Children(Entries(kind, list));
            |children| == |list| && forall k :: 0 <= k < |list| ==> IsChild(children[k], kind, list[k])
  {
    if list != [] {
      ListChildren(kind, list[..|list| - 1]);
    }
  }

  lemma TidyList(s: Store, kind: Kind)
    requires Tidy(s) && kind in CHILD_KINDS
    ensures NoRepeat(Ids(List(s, kind)))
    ensures forall k :: 0 <= k < |List(s, kind)| ==> DeviceName(List(s, kind)[k]).Some?
  {
    assert forall k :: 0 <= k < |List(s, kind)| ==> List(s, kind)[k].Kind() == kind;
  }

  lemma EntriesStep(s: Store, kinds: seq<Kind>)
    requires kinds != []
    ensures var n := |kinds| - 1;
            EntriesOf(s, kinds) == EntriesOf(s, kinds[..n]) + Entries(kinds[n], List(s, kinds[n]))
  {
    hide Entries, List;
  }

  /** The children of a tidy store are its resources of these kinds, each once. */
  lemma {:induction false} StoreChildren(s: Store, kinds: seq<Kind>)
    requires Tidy(s) && NoRepeat(kinds) && forall k :: 0 <= k < |kinds| ==> kinds[k] in CHILD_KINDS
    ensures var children := U.Children(EntriesOf(s, kinds));
            (forall c :: c in children <==> FromLists(s, kinds, c)) &&
            NoRepeat(U.Deletes(children))
  {
    if kinds == [] {
      assert U.Children(EntriesOf(s, kinds)) == [];
    } else {
      hide KindName, DeviceName, IsChild, FromLists, Entries, EntriesOf, U.Children, U.Deletes, Tidy, Ids;
      var n := |kinds| - 1;
      EntriesStep(s, kinds);
      var kind, list := kinds[n], List(s, kinds[n]);
      var before, here := U.Children(EntriesOf(s, kinds[..n])), U.Children(Entries(kind, list));
      StoreChildren(s, kinds[..n]);
      TidyList(s, kind);
      ListChildren(kind, list);
      ChildrenSum(EntriesOf(s, kinds[..n]), Entries(kind, list));
      assert kinds == kinds[..n] + [kind];
      MembersMore(s, kinds, before, here);
      DistinctMore(s, kinds, before, here);
    }
  }

  lemma MembersMore(s: Store, kinds: seq<Kind>, before: seq<U.Child>, here: seq<U.Child>)
    requires kinds != []
    requires forall c :: c in before <==> FromLists(s, kinds[..|kinds| - 1], c)
    requires var kind := kinds[|kinds| - 1];
             |here| == |List(s, kind)| &&
             (forall k :: 0 <= k < |here| ==>
                DeviceName(List(s, kind)[k]).Some? && IsChild(here[k], kind, List(s, kind)[k]))
    ensures forall c :: c in before + here <==> FromLists(s, kinds, c)
  {
    var n := |kinds| - 1;
    var list := List(s, kinds[n]);
    assert kinds == kinds[..n] + [kinds[n]];
    forall c
      ensures c in before + here <==> FromLists(s, kinds, c)
    {
      if c in here {
        var k :| 0 <= k < |here| && here[k] == c;
        assert list[k] in list && IsChild(c, kinds[n], list[k]);
      }
      if kind, r :| kind in kinds && r in List(s, kind) && IsChild(c, kind, r) {
        if kind == kinds[n] {
          var k :| 0 <= k < |list| && list[k] == r;
          assert here[k] == c;
        } else {
          assert kind in kinds[..n];
        }
      }
    }
  }

  lemma DistinctMore(s: Store, kinds: seq<Kind>, before: seq<U.Child>, here: seq<U.Child>)
    requires kinds != [] && NoRepeat(kinds) && NoRepeat(U.Deletes(before)) && NoRepeat(Ids(List(s, kinds[|kinds| - 1])))
    requires forall c :: c in before <==> FromLists(s, kinds[..|kinds| - 1], c)
    requires var kind := kinds[|kinds| - 1];
             |here| == |List(s, kind)| && (forall k :: 0 <= k < |here| ==> IsChild(here[k], kind, List(s, kind)[k]))
    ensures NoRepeat(U.Deletes(before + here))
  {
    var n, all := |kinds| - 1, before + here;
    forall i, j | 0 <= i < j < |all|
      ensures U.Deletes(all)[i] != U.Deletes(all)[j]
    {
      if j < |before| {
        assert U.Deletes(before)[i] != U.Deletes(before)[j];
      } else if i < |before| {
        assert before[i] in before;
        var kind, r :| kind in kinds[..n] && r in List(s, kind) && IsChild(before[i], kind, r);
        if KindName(kind) == KindName(kinds[n]) {
          KindNamesDiffer(kind, kinds[n]);
        }
      } else {
        assert Ids(List(s, kinds[n]))[i - |before|] != Ids(List(s, kinds[n]))[j - |before|];
      }
    }
  }

  // ---------------------------------------------------------------- a registry that applies the deletions

  function DeletionOf(x: Ref): U.Deletion {
    U.Deletion(KindName(x.kind), x.id)
  }

  function Delete(reg: Registry, d: U.Deletion): Registry {
    map x | x in reg && DeletionOf(x) != d :: reg[x]
  }

  function DeleteAll(reg: Registry, log: seq<U.Deletion>): Registry {
    if log == [] then reg else Delete(DeleteAll(reg, log[..|log| - 1]), log[|log| - 1])
  }

  lemma {:induction false} LeftOver(reg: Registry, log: seq<U.Deletion>, x: Ref)
    ensures x in DeleteAll(reg, log) <==> x in reg && DeletionOf(x) !in log
  {
    if log != [] {
      var n := |log| - 1;
      LeftOver(reg, log[..n], x);
      assert log == log[..n] + [log[n]];
    }
  }

  /** What a device needs to be unregistered: a child that names it. */
  ghost predicate NamedByChild(s: Store, device: string) {
    exists kind, r :: kind in CHILD_KINDS && r in List(s, kind) && DeviceName(r) == Some(device)
  }

  ghost predicate AllNamed(s: Store) {
    forall k :: 0 <= k < |List(s, Devices)| ==> NamedByChild(s, List(s, Devices)[k].id)
  }

  lemma NamedIffChild(s: Store, device: string)
    requires Tidy(s)
    ensures NamedByChild(s, device) <==> device in U.DevicesOf(U.Children(EntriesOf(s, CHILD_KINDS)))
  {
    hide EntriesOf, U.Children, Tidy, KindName, U.Deletes;
    var children := U.Children(EntriesOf(s, CHILD_KINDS));
    StoreChildren(s, CHILD_KINDS);
    if NamedByChild(s, device) {
      var kind, r :| kind in CHILD_KINDS && r in List(s, kind) && DeviceName(r) == Some(device);
      var c := U.Child(KindName(kind), r.id, device);
      assert IsChild(c, kind, r) && c in children;
    }
    if device in U.DevicesOf(children) {
      var c :| c in children && c.device == device;
    }
  }

  /** What the theorems about a finished run need: it ran for exactly this store's children. */
  ghost predicate Finished(node: Resource, s: Store, groups: seq<U.Group>, actions: seq<U.Action>, end: U.State) {
    U.IsPlan(groups, U.Children(EntriesOf(s, CHILD_KINDS))) && U.Runs(groups, node.id, actions, end) && end.nodeDeleted
  }

  lemma ChildrenAreProper(s: Store)
    requires Tidy(s)
    ensures U.ProperChildren(U.Children(EntriesOf(s, CHILD_KINDS)))
  {
    hide EntriesOf, U.Children, Tidy, U.Deletes;
    StoreChildren(s, CHILD_KINDS);
    var children := U.Children(EntriesOf(s, CHILD_KINDS));
    forall k | 0 <= k < |children|
      ensures U.ChildKind(children[k].kind)
    {
      assert children[k] in children;
    }
  }

  /** Of the node's resources exactly the devices no child names are not requested to be deleted. */
  lemma RequestedIff(node: Resource, s: Store, groups: seq<U.Group>, actions: seq<U.Action>, end: U.State, x: Ref)
    requires Reregistration.Proper(node, s) && Finished(node, s, groups, actions, end)
    requires Reregistration.Provides(node, s, x)
    ensures DeletionOf(x) in end.log <==> x.kind != Devices || NamedByChild(s, x.id)
  {
    hide U.Runs, U.IsPlan, EntriesOf, U.Children, NamedByChild, U.GroupDone, U.State.Start;
    var children := U.Children(EntriesOf(s, CHILD_KINDS));
    ChildrenAreProper(s);
    if x.kind == Devices {
      NamedIffChild(s, x.id);
      U.DeviceRequestedIffChild(groups, children, node.id, actions, end, x.id);
    } else if x == node.Self() {
      U.UnregisteredInOrder(groups, node.id, actions, end);
    } else {
      var c := ChildFor(s, x);
      var at, k := U.ChildOnceBeforeDevice(groups, children, node.id, actions, end, c);
    }
  }

  lemma ChildFor(s: Store, x: Ref) returns (c: U.Child)
    requires Tidy(s) && x.kind in s && x.kind != Devices && x.kind != Nodes && x.id in Ids(s[x.kind])
    ensures c in U.Children(EntriesOf(s, CHILD_KINDS)) && c.Delete() == DeletionOf(x)
  {
    hide EntriesOf, U.Children;
    StoreChildren(s, CHILD_KINDS);
    var k :| 0 <= k < |s[x.kind]| && Ids(s[x.kind])[k] == x.id;
    var r := s[x.kind][k];
    assert x.kind in CHILD_KINDS && r in List(s, x.kind);
    TidyList(s, x.kind);
    c := U.Child(KindName(x.kind), x.id, DeviceName(r).value);
    assert IsChild(c, x.kind, r);
  }

  /** The registry holds the store's identifiers and the node's, whatever versions of the resources. */
  ghost predicate Covers(reg: Registry, node: Resource, s: Store) {
    forall x :: x in reg <==> Reregistration.Provides(node, s, x)
  }

  /** In every interleaving, a registry that holds what the store provides and applies the deletions is empty at
      the end exactly when every device in the store is named by some receiver, sender, flow or source. */
  lemma EmptiedIffNamed(node: Resource, s: Store, reg: Registry, groups: seq<U.Group>, actions: seq<U.Action>,
                        end: U.State)
    requires Reregistration.Proper(node, s) && Covers(reg, node, s)
    requires Finished(node, s, groups, actions, end)
    ensures DeleteAll(reg, end.log) == map[] <==> AllNamed(s)
  {
    hide Finished, NamedByChild, Reregistration.Proper, DeleteAll;
    forall x
      ensures x in DeleteAll(reg, end.log) <==>
                Reregistration.Provides(node, s, x) && x.kind == Devices && !NamedByChild(s, x.id)
    {
      LeftOver(reg, end.log, x);
      if Reregistration.Provides(node, s, x) {
        RequestedIff(node, s, groups, actions, end, x);
      }
    }
    if AllNamed(s) {
      forall x
        ensures x !in DeleteAll(reg, end.log)
      {
        if Reregistration.Provides(node, s, x) && x.kind == Devices {
          DeviceListed(node, s, x);
        }
      }
    } else {
      var k :| 0 <= k < |List(s, Devices)| && !NamedByChild(s, List(s, Devices)[k].id);
      assert Ids(s[Devices])[k] == List(s, Devices)[k].id;
      assert Ref(Devices, List(s, Devices)[k].id) in DeleteAll(reg, end.log);
    }
  }

  lemma DeviceListed(node: Resource, s: Store, x: Ref)
    requires Reregistration.Proper(node, s) && Reregistration.Provides(node, s, x) && x.kind == Devices
    ensures exists k :: 0 <= k < |List(s, Devices)| && List(s, Devices)[k].id == x.id
  {
    var k :| 0 <= k < |s[Devices]| && Ids(s[Devices])[k] == x.id;
    assert List(s, Devices)[k].id == x.id;
  }

  // ---------------------------------------------------------------- the stores the gateway builds

  /** A name without a hyphen in it, so that what it ends can be read back. */
  predicate Hyphenless(param: string) {
    FreeOf(param, Only('-'))
  }

  /** Texts that end in hyphenless ones after a hyphen can be taken apart there. */
  lemma SplitAtLast(a: string, x: string, b: string, y: string)
    requires Hyphenless(x) && Hyphenless(y) && a + "-" + x == b + "-" + y
    ensures a == b && x == y
  {
    var s, t := a + "-" + x, b + "-" + y;
    assert s[|a|] == '-' && t[|b|] == '-';
    assert forall k :: 0 <= k < |x| ==> s[|a| + 1 + k] == x[k];
    assert forall k :: 0 <= k < |y| ==> t[|b| + 1 + k] == y[k];
    if |x| == |y| {
      assert a == s[..|a|] && b == t[..|b|];
      assert x == s[|a| + 1..] && y == t[|b| + 1..];
    } else {
      assert false;
    }
  }

  /** Identifier names tell device, channel and parameter apart. */
  lemma NamesDifferAcross(kind: string, device: string, m: Meter, other: string, n: Meter)
    requires Hyphenless(m.param) && Hyphenless(n.param) && IdName(kind, device, m) == IdName(kind, other, n)
    ensures device == other && m == n
  {
    hide Itoa;
    var a, b := Itoa(m.channel), Itoa(n.channel);
    ItoaHyphenless(m.channel);
    ItoaHyphenless(n.channel);
    assert IdName(kind, device, m) == kind + "-" + device + "-" + a + "-" + m.param;
    assert IdName(kind, other, n) == kind + "-" + other + "-" + b + "-" + n.param;
    SplitAtLast(kind + "-" + device + "-" + a, m.param, kind + "-" + other + "-" + b, n.param);
    SplitAtLast(kind + "-" + device, a, kind + "-" + other, b);
    ItoaInjective(m.channel, n.channel);
    assert (kind + "-" + device)[|kind| + 1..] == device && (kind + "-" + other)[|kind| + 1..] == other;
  }

  lemma ItoaHyphenless(n: nat)
    ensures Hyphenless(Itoa(n))
  {
    ItoaChars(n);
  }

  /** A source stays what it is while nothing else is registered under its identifier. */
  lemma {:induction false} SourceStays(s: Store, posts: seq<Resource>, source: Resource)
    requires Tidy(s) && source.Source?
    requires forall k :: 0 <= k < |posts| && posts[k].Source? && posts[k].id == source.id ==> posts[k] == source
    requires Stored(List(s, Sources), source.id) == Some(source) || source in posts
    ensures Tidy(RegisteredAll(s, posts))
    ensures Stored(List(RegisteredAll(s, posts), Sources), source.id) == Some(source)
  {
    hide Stored, Tidy, Registered;
    if posts != [] {
      var n := |posts| - 1;
      assert posts == posts[..n] + [posts[n]];
      if Stored(List(s, Sources), source.id) == Some(source) || source in posts[..n] {
        SourceStays(s, posts[..n], source);
      } else {
        StaysTidy(s, posts[..n]);
      }
      RegisteredTidy(RegisteredAll(s, posts[..n]), posts[n]);
      StoredAfter(RegisteredAll(s, posts[..n]), posts[n], Sources, source.id);
    }
  }

  /** Only registering a device makes a new device identifier. */
  lemma {:induction false} DeviceIds(s: Store, posts: seq<Resource>, id: string)
    requires Tidy(s) && id in Ids(List(RegisteredAll(s, posts), Devices))
    ensures id in Ids(List(s, Devices)) || exists k :: 0 <= k < |posts| && posts[k].Device? && posts[k].id == id
  {
    hide Tidy, Registered, Ids;
    if posts != [] {
      var n := |posts| - 1;
      StaysTidy(s, posts[..n]);
      DeviceIdsAfter(RegisteredAll(s, posts[..n]), posts[n], id);
      if id in Ids(List(RegisteredAll(s, posts[..n]), Devices)) {
        DeviceIds(s, posts[..n], id);
        if k :| 0 <= k < n && posts[..n][k].Device? && posts[..n][k].id == id {
          assert posts[k].Device? && posts[k].id == id;
        }
      }
    }
  }

  lemma DeviceIdsAfter(s: Store, r: Resource, id: string)
    requires Tidy(s) && id in Ids(List(Registered(s, r), Devices))
    ensures id in Ids(List(s, Devices)) || (r.Device? && r.id == id)
  {
    if r.Sender? || r.Receiver? {
      ListedKinds(s, r);
    } else if r.Device? {
      hide Place;
      var list := List(s, Devices);
      var k :| 0 <= k < |Upsert(list, r)| && Ids(Upsert(list, r))[k] == id;
      assert k < |list| ==> Ids(list)[k] in Ids(list);
    }
  }

  /** A meter's source is among the triples, and the sources among them are those of the meters. */
  lemma {:induction false} SourcesOf(derive: string -> string, device: string, meters: seq<Meter>)
    ensures forall m :: m in meters ==> Triple(derive, device, m)[0] in Triples(derive, device, meters)
    ensures forall r :: r in Triples(derive, device, meters) && r.Source? ==>
              exists m :: m in meters && r == Triple(derive, device, m)[0]
  {
    hide IdName;
    if meters != [] {
      var n := |meters| - 1;
      SourcesOf(derive, device, meters[..n]);
      assert meters == meters[..n] + [meters[n]];
    }
  }

  /** Receivers of this node, each with something to meter. */
  predicate Metering(node: Resource, arrivals: seq<Reregistration.Arrival>) {
    forall k :: 0 <= k < |arrivals| ==>
      arrivals[k].device.Device? && arrivals[k].device.node == node.id && arrivals[k].meters != [] &&
      forall m :: m in arrivals[k].meters ==> Hyphenless(m.param)
  }

  function FirstSource(derive: string -> string, arrival: Reregistration.Arrival): Resource
    requires arrival.meters != []
  {
    Triple(derive, arrival.device.id, arrival.meters[0])[0]
  }

  /** Registering another receiver does not take over the first source of this one. */
  lemma OthersSourcesApart(derive: string -> string, arrival: Reregistration.Arrival, other: Reregistration.Arrival)
    requires Injective(derive) && arrival.meters != []
    requires forall m :: m in arrival.meters || m in other.meters ==> Hyphenless(m.param)
    ensures forall r :: r in Triples(derive, other.device.id, Firsts(other.meters)) ==>
              r.Source? && r.id == FirstSource(derive, arrival).id ==> r == FirstSource(derive, arrival)
  {
    hide IdName, Triples, Firsts, Hyphenless;
    var meters, first := Firsts(other.meters), arrival.meters[0];
    FirstsDistinct(other.meters);
    SourcesOf(derive, other.device.id, meters);
    forall r | r in Triples(derive, other.device.id, meters) && r.Source? && r.id == FirstSource(derive, arrival).id
      ensures r == FirstSource(derive, arrival)
    {
      var m :| m in meters && r == Triple(derive, other.device.id, m)[0];
      NamesDifferAcross("source", other.device.id, m, arrival.device.id, first);
    }
  }

  lemma {:induction false} FirstSourceStays(node: Resource, derive: string -> string,
                                            arrivals: seq<Reregistration.Arrival>, k: nat)
    requires Injective(derive) && Metering(node, arrivals) && k < |arrivals|
    ensures var s, source := Reregistration.StoreAfter(derive, arrivals), FirstSource(derive, arrivals[k]);
            Tidy(s) && Stored(List(s, Sources), source.id) == Some(source)
  {
    hide Stored, Tidy, RegisteredAll, Firsts, Triples, Injective, Hyphenless;
    var n := |arrivals| - 1;
    var before, last := Reregistration.StoreAfter(derive, arrivals[..n]), arrivals[n];
    var source, triples := FirstSource(derive, arrivals[k]), Triples(derive, last.device.id, Firsts(last.meters));
    AfterTidy(derive, arrivals[..n]);
    OthersSourcesApart(derive, arrivals[k], last);
    if k < n {
      assert Metering(node, arrivals[..n]) && arrivals[..n][k] == arrivals[k];
      FirstSourceStays(node, derive, arrivals[..n], k);
    } else {
      FirstsDistinct(last.meters);
      SourcesOf(derive, last.device.id, Firsts(last.meters));
      assert source in [last.device] + triples;
    }
    SourceStays(before, [last.device] + triples, source);
  }

  lemma {:induction false} AfterTidy(derive: string -> string, arrivals: seq<Reregistration.Arrival>)
    ensures Tidy(Reregistration.StoreAfter(derive, arrivals))
  {
    hide RegisteredAll;
    if arrivals != [] {
      var n := |arrivals| - 1;
      AfterTidy(derive, arrivals[..n]);
      StaysTidy(Reregistration.StoreAfter(derive, arrivals[..n]),
                [arrivals[n].device] + Triples(derive, arrivals[n].device.id, Firsts(arrivals[n].meters)));
    }
  }

  lemma {:induction false} DeviceArrived(derive: string -> string, arrivals: seq<Reregistration.Arrival>,
                                         id: string) returns (k: nat)
    requires id in Ids(List(Reregistration.StoreAfter(derive, arrivals), Devices))
    ensures k < |arrivals| && arrivals[k].device.id == id
  {
    hide RegisteredAll, Firsts, Triples;
    var n := |arrivals| - 1;
    var before, last := Reregistration.StoreAfter(derive, arrivals[..n]), arrivals[n];
    var triples := Triples(derive, last.device.id, Firsts(last.meters));
    AfterTidy(derive, arrivals[..n]);
    DeviceIds(before, [last.device] + triples, id);
    TriplesAreNoDevice(derive, last.device.id, Firsts(last.meters));
    if id in Ids(List(before, Devices)) {
      k := DeviceArrived(derive, arrivals[..n], id);
    } else {
      k := n;
    }
  }

  lemma GatewayDevicesNamed(node: Resource, derive: string -> string, arrivals: seq<Reregistration.Arrival>)
    requires Injective(derive) && Metering(node, arrivals)
    ensures AllNamed(Reregistration.StoreAfter(derive, arrivals))
  {
    hide Reregistration.StoreAfter, Metering, Injective;
    var s := Reregistration.StoreAfter(derive, arrivals);
    forall i | 0 <= i < |List(s, Devices)|
      ensures NamedByChild(s, List(s, Devices)[i].id)
    {
      var id := List(s, Devices)[i].id;
      assert Ids(List(s, Devices))[i] == id;
      var k := DeviceArrived(derive, arrivals, id);
      var source := SourceOf(node, derive, arrivals, k);
      assert source in List(s, Sources) && DeviceName(source) == Some(id);
    }
  }

  lemma SourceOf(node: Resource, derive: string -> string, arrivals: seq<Reregistration.Arrival>, k: nat)
    returns (source: Resource)
    requires Injective(derive) && Metering(node, arrivals) && k < |arrivals|
    ensures source in List(Reregistration.StoreAfter(derive, arrivals), Sources)
    ensures DeviceName(source) == Some(arrivals[k].device.id)
  {
    hide Reregistration.StoreAfter, IdName;
    FirstSourceStays(node, derive, arrivals, k);
    source := FirstSource(derive, arrivals[k]);
  }

  lemma MirrorCovers(reg: Registry, node: Resource, s: Store)
    requires Reregistration.Mirrors(reg, node, s)
    ensures Covers(reg, node, s)
  {
  }

  /** A life after re-registration: whatever receivers arrived, in any order and again and again, what a registry
      took of the store is all gone once unregistration, in any interleaving, has come to its end. */
  lemma NothingIsLeft(node: Resource, derive: string -> string, arrivals: seq<Reregistration.Arrival>,
                      groups: seq<U.Group>, actions: seq<U.Action>, end: U.State)
    requires node.Node? && Injective(derive) && Metering(node, arrivals)
    requires Finished(node, Reregistration.StoreAfter(derive, arrivals), groups, actions, end)
    ensures var s := Reregistration.StoreAfter(derive, arrivals);
            DeleteAll(PostAll(map[], [node] + Reregistration.InOrder(s, Reregistration.ORDER)), end.log) == map[]
  {
    hide Reregistration.StoreAfter, Finished, AllNamed, DeleteAll, PostAll, Reregistration.Mirrors, Injective;
    hide Reregistration.Complete, Reregistration.Proper, Reregistration.InOrder;
    var s := Reregistration.StoreAfter(derive, arrivals);
    Reregistration.StoreComplete(node, derive, arrivals);
    Reregistration.GatewayStoreIsTaken(node, derive, arrivals);
    GatewayDevicesNamed(node, derive, arrivals);
    var reg := PostAll(map[], [node] + Reregistration.InOrder(s, Reregistration.ORDER));
    MirrorCovers(reg, node, s);
    EmptiedIffNamed(node, s, reg, groups, actions, end);
  }

  /** What arriving receivers post at once, one receiver after the other. */
  function EagerPosts(derive: string -> string, arrivals: seq<Reregistration.Arrival>): seq<Resource> {
    if arrivals == [] then []
    else
      var last := arrivals[|arrivals| - 1];
      EagerPosts(derive, arrivals[..|arrivals| - 1]) +
      ([last.device] + Triples(derive, last.device.id, Firsts(last.meters)))
  }

  lemma {:induction false} MergeMembers(a: seq<Resource>, b: seq<Resource>, c: seq<Resource>)
    requires Merge(a, b, c)
    ensures forall r :: r in c <==> r in a || r in b
    decreases |c|
  {
    if c != [] {
      var last, rest := c[|c| - 1], c[..|c| - 1];
      assert c == rest + [last];
      if a != [] && a[|a| - 1] == last && Merge(a[..|a| - 1], b, rest) {
        MergeMembers(a[..|a| - 1], b, rest);
        assert a == a[..|a| - 1] + [last];
      } else {
        MergeMembers(a, b[..|b| - 1], rest);
        assert b == b[..|b| - 1] + [last];
      }
    }
  }

  lemma {:induction false} EagerAccepted(node: Resource, reg: Registry, derive: string -> string,
                                         arrivals: seq<Reregistration.Arrival>)
    requires Ref(Nodes, node.id) in reg && Metering(node, arrivals)
    ensures NoneRejected(reg, EagerPosts(derive, arrivals))
  {
    if arrivals != [] {
      hide NoneRejected, Triples, Firsts, Hyphenless;
      var n := |arrivals| - 1;
      var before, last := EagerPosts(derive, arrivals[..n]), arrivals[n];
      EagerAccepted(node, reg, derive, arrivals[..n]);
      PostsOnlyAdd(reg, before, Ref(Nodes, node.id));
      EagerNeverRejected(PostAll(reg, before), derive, last.device, Firsts(last.meters));
      PostSum(reg, before, [last.device] + Triples(derive, last.device.id, Firsts(last.meters)));
    }
  }

  lemma UpsertIds(list: seq<Resource>, r: Resource, id: string)
    requires id in Ids(Upsert(list, r))
    ensures id in Ids(list) || id == r.id
  {
    hide Place;
    var k :| 0 <= k < |Upsert(list, r)| && Ids(Upsert(list, r))[k] == id;
    assert k < |list| ==> Ids(list)[k] in Ids(list);
  }

  /** Registering makes one identifier of one kind known, and no other. */
  lemma IdsAfter(s: Store, r: Resource, kind: Kind, id: string)
    requires Tidy(s) && id in Ids(List(Registered(s, r), kind))
    ensures id in Ids(List(s, kind)) || (r.Kind() == kind && r.id == id)
  {
    if kind == Devices {
      DeviceIdsAfter(s, r, id);
    } else if r.Kind() == kind {
      hide Linked, Upsert, Ids;
      UpsertIds(List(s, kind), r, id);
    } else {
      hide Linked, Upsert;
    }
  }

  lemma ProvidedStep(node: Resource, s: Store, r: Resource, x: Ref)
    requires Reregistration.Proper(node, s) && !r.Node?
    ensures Reregistration.Provides(node, Registered(s, r), x) <==>
              Reregistration.Provides(node, s, x) || x == r.Self()
    ensures Reregistration.Proper(node, Registered(s, r))
  {
    hide Upsert, Linked, Ids;
    Reregistration.RegisteredProvides(node, s, r, x);
    RegisteredTidy(s, r);
    if x != node.Self() && x.kind in Registered(s, r) && x.id in Ids(Registered(s, r)[x.kind]) {
      IdsAfter(s, r, x.kind, x.id);
      if x.kind !in s {
        NoIds();
      }
    }
  }

  lemma NoIds()
    ensures Ids([]) == []
  {
  }

  /** One of these resources has this identity. */
  predicate Carries(rs: seq<Resource>, x: Ref) {
    exists k :: 0 <= k < |rs| && rs[k].Self() == x
  }

  lemma CarriesSum(a: seq<Resource>, b: seq<Resource>, x: Ref)
    ensures Carries(a + b, x) <==> Carries(a, x) || Carries(b, x)
  {
    if k :| 0 <= k < |a| && a[k].Self() == x {
      assert (a + b)[k].Self() == x;
    }
    if k :| 0 <= k < |b| && b[k].Self() == x {
      assert (a + b)[|a| + k].Self() == x;
    }
  }

  lemma CarriesOne(r: Resource, x: Ref)
    ensures Carries([r], x) <==> r.Self() == x
    ensures !Carries([], x)
  {
    assert [r][0] == r;
  }

  /** After registrations the store provides what it did before and what was registered. */
  lemma {:induction false} Provided(node: Resource, s: Store, posts: seq<Resource>, x: Ref)
    requires Reregistration.Proper(node, s) && forall k :: 0 <= k < |posts| ==> !posts[k].Node?
    ensures Reregistration.Proper(node, RegisteredAll(s, posts))
    ensures Reregistration.Provides(node, RegisteredAll(s, posts), x) <==>
              Reregistration.Provides(node, s, x) || Carries(posts, x)
  {
    if posts != [] {
      hide Registered, Reregistration.Provides, Reregistration.Proper, Carries;
      var n := |posts| - 1;
      Provided(node, s, posts[..n], x);
      ProvidedStep(node, RegisteredAll(s, posts[..n]), posts[n], x);
      assert posts == posts[..n] + [posts[n]];
      CarriesSum(posts[..n], [posts[n]], x);
      CarriesOne(posts[n], x);
    }
  }

  /** One more arrival adds to the store what it posts. */
  lemma {:induction false} ArrivalProvided(node: Resource, derive: string -> string,
                                           arrivals: seq<Reregistration.Arrival>, x: Ref)
    requires |arrivals| > 0 && !arrivals[|arrivals| - 1].device.Node?
    requires Reregistration.Proper(node, Reregistration.StoreAfter(derive, arrivals[..|arrivals| - 1]))
    ensures Reregistration.Proper(node, Reregistration.StoreAfter(derive, arrivals))
    ensures var last := arrivals[|arrivals| - 1];
            var posts := [last.device] + Triples(derive, last.device.id, Firsts(last.meters));
            Reregistration.Provides(node, Reregistration.StoreAfter(derive, arrivals), x) <==>
              Reregistration.Provides(node, Reregistration.StoreAfter(derive, arrivals[..|arrivals| - 1]), x) ||
              Carries(posts, x)
  {
    hide RegisteredAll, Triples, Firsts, Hyphenless, Reregistration.Provides, Reregistration.Proper, Carries;
    var n := |arrivals| - 1;
    var last := arrivals[n];
    NoNodes(derive, last.device.id, Firsts(last.meters));
    Provided(node, Reregistration.StoreAfter(derive, arrivals[..n]),
             [last.device] + Triples(derive, last.device.id, Firsts(last.meters)), x);
  }

  lemma {:induction false} EagerIsStored(node: Resource, derive: string -> string,
                                         arrivals: seq<Reregistration.Arrival>, x: Ref)
    requires node.Node? && Metering(node, arrivals)
    ensures Reregistration.Proper(node, Reregistration.StoreAfter(derive, arrivals))
    ensures Reregistration.Provides(node, Reregistration.StoreAfter(derive, arrivals), x) <==>
              x == node.Self() || Carries(EagerPosts(derive, arrivals), x)
  {
    if arrivals == [] {
      assert Reregistration.StoreAfter(derive, arrivals) == map[];
    } else {
      hide RegisteredAll, Triples, Firsts, Hyphenless, Reregistration.Provides, Reregistration.Proper, Carries,
           Reregistration.StoreAfter;
      var n := |arrivals| - 1;
      var last := arrivals[n];
      EagerIsStored(node, derive, arrivals[..n], x);
      ArrivalProvided(node, derive, arrivals, x);
      CarriesSum(EagerPosts(derive, arrivals[..n]),
                 [last.device] + Triples(derive, last.device.id, Firsts(last.meters)), x);
    }
  }

  lemma {:induction false} NoNodes(derive: string -> string, device: string, meters: seq<Meter>)
    ensures forall k :: 0 <= k < |Triples(derive, device, meters)| ==> !Triples(derive, device, meters)[k].Node?
  {
    hide IdName;
    if meters != [] {
      NoNodes(derive, device, meters[..|meters| - 1]);
    }
  }

  lemma {:induction false} DevicePosted(derive: string -> string, arrivals: seq<Reregistration.Arrival>, k: nat)
    requires k < |arrivals|
    ensures arrivals[k].device in EagerPosts(derive, arrivals)
  {
    hide Triples, Firsts;
    var n := |arrivals| - 1;
    if k < n {
      DevicePosted(derive, arrivals[..n], k);
    }
  }

  /** Background posts are of devices that arrived, in whatever version. */
  predicate OfArrived(node: Resource, arrivals: seq<Reregistration.Arrival>, background: seq<Resource>) {
    forall k :: 0 <= k < |background| ==>
      background[k].Device? && background[k].node == node.id &&
      exists i :: 0 <= i < |arrivals| && arrivals[i].device.Self() == background[k].Self()
  }

  /** After the eager posts of any arrivals, however background posts of their devices fall between, the registry
      holds what the store provides, in whatever versions. */
  lemma EagerCovers(node: Resource, derive: string -> string, arrivals: seq<Reregistration.Arrival>,
                    background: seq<Resource>, posts: seq<Resource>)
    requires node.Node? && Metering(node, arrivals) && OfArrived(node, arrivals, background)
    requires Merge(EagerPosts(derive, arrivals), background, posts)
    ensures NoneRejected(map[], [node] + posts)
    ensures Covers(PostAll(map[], [node] + posts), node, Reregistration.StoreAfter(derive, arrivals))
  {
    hide Merge, EagerPosts, Metering, Reregistration.StoreAfter, Reregistration.Provides;
    var eager, reg := EagerPosts(derive, arrivals), PostAll(map[], [node]);
    PostOne(map[], [], node);
    assert [] + [node] == [node];
    PostSum(map[], [node], posts);
    EagerAccepted(node, reg, derive, arrivals);
    BackgroundPostsAreHarmless(reg, eager, background, posts);
    MergeMembers(eager, background, posts);
    forall x
      ensures x in PostAll(reg, posts) <==>
                Reregistration.Provides(node, Reregistration.StoreAfter(derive, arrivals), x)
    {
      PostsOnlyAdd(reg, posts, x);
      EagerIsStored(node, derive, arrivals, x);
      SameSelves(derive, arrivals, node, eager, background, posts, x);
    }
  }

  lemma MemberCarried(rs: seq<Resource>, r: Resource)
    requires r in rs
    ensures Carries(rs, r.Self())
  {
    var k :| 0 <= k < |rs| && rs[k] == r;
  }

  lemma SameSelves(derive: string -> string, arrivals: seq<Reregistration.Arrival>, node: Resource,
                   eager: seq<Resource>, background: seq<Resource>, posts: seq<Resource>, x: Ref)
    requires eager == EagerPosts(derive, arrivals) && OfArrived(node, arrivals, background)
    requires forall r :: r in posts <==> r in eager || r in background
    ensures Carries(posts, x) <==> Carries(eager, x)
  {
    hide EagerPosts;
    if Carries(posts, x) {
      var k :| 0 <= k < |posts| && posts[k].Self() == x;
      assert posts[k] in posts;
      if posts[k] in background {
        var j :| 0 <= j < |background| && background[j] == posts[k];
        var i :| 0 <= i < |arrivals| && arrivals[i].device.Self() == background[j].Self();
        DevicePosted(derive, arrivals, i);
        MemberCarried(eager, arrivals[i].device);
      } else {
        MemberCarried(eager, posts[k]);
      }
    }
    if Carries(eager, x) {
      var k :| 0 <= k < |eager| && eager[k].Self() == x;
      assert eager[k] in posts;
      MemberCarried(posts, eager[k]);
    }
  }

  /** A whole eager life: the node posted, any receivers arriving and posting at once, posts of their devices in
      the background in any versions, and unregistration in any interleaving, leave nothing. */
  lemma NothingIsLeftOfEager(node: Resource, derive: string -> string, arrivals: seq<Reregistration.Arrival>,
                             background: seq<Resource>, posts: seq<Resource>, groups: seq<U.Group>,
                             actions: seq<U.Action>, end: U.State)
    requires node.Node? && Injective(derive) && Metering(node, arrivals) && OfArrived(node, arrivals, background)
    requires Merge(EagerPosts(derive, arrivals), background, posts)
    requires Finished(node, Reregistration.StoreAfter(derive, arrivals), groups, actions, end)
    ensures DeleteAll(PostAll(map[], [node] + posts), end.log) == map[]
  {
    hide Reregistration.StoreAfter, Finished, AllNamed, DeleteAll, PostAll, Injective, Merge, EagerPosts, Metering;
    hide Reregistration.Proper, OfArrived, Covers;
    EagerCovers(node, derive, arrivals, background, posts);
    EagerIsStored(node, derive, arrivals, node.Self());
    GatewayDevicesNamed(node, derive, arrivals);
    EmptiedIffNamed(node, Reregistration.StoreAfter(derive, arrivals), PostAll(map[], [node] + posts), groups,
                    actions, end);
  }

  /** Every model has something to meter, under hyphenless names. */
  lemma ModelMeters(model: string)
    ensures var meters := Meters(DetectModelFamily(model), MaxChannelsFromModel(model));
            meters != [] && forall m :: m in meters ==> Hyphenless(m.param)
  {
    hide DetectModelFamily, MaxChannelsFromModel;
    MetersPlain(DetectModelFamily(model), MaxChannelsFromModel(model));
  }

  lemma {:induction false} MetersPlain(family: Family, n: nat)
    ensures n >= 1 ==> Meters(family, n) != []
    ensures forall m :: m in Meters(family, n) ==> Hyphenless(m.param)
  {
    hide MeteredParams, Hyphenless;
    if n > 0 {
      ParamsHyphenless(family);
      MetersPlain(family, n - 1);
    }
  }

  lemma AudioHyphenless()
    ensures Hyphenless("CHAN_QUALITY") && Hyphenless("AUDIO_LED_BITMAP") && Hyphenless("AUDIO_LEVEL_PEAK")
    ensures Hyphenless("AUDIO_LEVEL_RMS") && Hyphenless("AUDIO_LVL")
  {
  }

  lemma AntennaHyphenless()
    ensures Hyphenless("ANTENNA_A_ACTIVE") && Hyphenless("ANTENNA_B_ACTIVE") && Hyphenless("RF_LEVEL")
    ensures Hyphenless("RF_RSSI")
  {
  }

  lemma BitmapHyphenless()
    ensures Hyphenless("RF_LED_BITMAP_A") && Hyphenless("RF_LED_BITMAP_B") && Hyphenless("RF_LED_BITMAP_C")
    ensures Hyphenless("RF_LED_BITMAP_D") && Hyphenless("RF_LED_BITMAP_F1") && Hyphenless("RF_LED_BITMAP_F2")
  {
  }

  lemma RssiHyphenless()
    ensures Hyphenless("RF_RSSI_A") && Hyphenless("RF_RSSI_B") && Hyphenless("RF_RSSI_C")
    ensures Hyphenless("RF_RSSI_D") && Hyphenless("RF_RSSI_F1") && Hyphenless("RF_RSSI_F2")
  {
  }

  lemma ParamsHyphenless(family: Family)
    ensures MeteredParams(family) != []
    ensures forall k :: 0 <= k < |MeteredParams(family)| ==> Hyphenless(MeteredParams(family)[k])
  {
    hide Hyphenless;
    AudioHyphenless();
    AntennaHyphenless();
    BitmapHyphenless();
    RssiHyphenless();
  }
}
