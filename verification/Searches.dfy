/** What the member searches find, said of the members' own roles and class identifiers. */
module Searches {
  import opened Text
  import opened BlockGraph
  import opened RolePaths
  import opened Nca
  import opened Forests
  import opened ShureModels
  import opened DeviceLayout
  import opened Collisions
  import opened Growth

  /** What a role search asks of a role: to be the role searched for, or to contain it, up to case or not. */
  predicate RoleFits(found: string, role: string, caseSensitive: bool, whole: bool) {
    if whole then if caseSensitive then found == role else UpToCase(found, role)
    else if caseSensitive then Occurs(found, role) else OccursUpToCase(found, role)
  }

  /** What a class search asks: the class itself, or one that continues its identifier. */
  ghost predicate ClassFits(found: seq<int>, classId: seq<int>, includeDerived: bool) {
    exists more: seq<int> :: found == classId + more && (includeDerived || more == [])
  }

  lemma RoleMatches(d: Descriptor, role: string, caseSensitive: bool, whole: bool)
    ensures ByRole(role, caseSensitive, whole).Matches(d) <==> RoleFits(d.role, role, caseSensitive, whole)
  {
    FoldMeans(d.role, role);
    LowerOccurs(d.role, role);
  }

  lemma ClassMatches(d: Descriptor, classId: seq<int>, includeDerived: bool)
    ensures ByClass(classId, includeDerived).Matches(d) <==> ClassFits(d.classId, classId, includeDerived)
  {
    if ByClass(classId, includeDerived).Matches(d) {
      assert d.classId == classId + d.classId[|classId|..];
    }
  }

  /** Filtering the objects from a place on takes exactly the matching ones, each once, in order. */
  lemma {:induction false} SelectExactly(g: Graph, oids: seq<int>, q: Query, from: nat) returns (at: seq<nat>)
    requires Known(g, oids) && from <= |oids|
    ensures Choice(at, from, |oids|) && |Select(g, oids[from..], q)| == |at|
    ensures forall k :: 0 <= k < |at| ==> Select(g, oids[from..], q)[k] == g[oids[at[k]]].desc
    ensures forall j :: from <= j < |oids| ==> (j in at <==> q.Matches(g[oids[j]].desc))
    decreases |oids| - from
  {
    hide Query.Matches;
    at := [];
    if from < |oids| {
      var later := SelectExactly(g, oids, q, from + 1);
      assert oids[from..] == [oids[from]] + oids[from + 1..];
      SelectCons(g, oids[from], oids[from + 1..], q);
      at := if q.Matches(g[oids[from]].desc) then [from] + later else later;
    }
  }

  /** The objects a search goes through: the registered direct members, or all that some path reaches. */
  ghost predicate Searched(g: Graph, items: seq<int>, recurse: bool, i: int) {
    if recurse then i in Below(g, items) else i in items && i in g
  }

  lemma {:induction false} ResolvedAre(g: Graph, items: seq<int>, i: int)
    ensures i in Resolved(g, items) <==> i in items && i in g
  {
    if items != [] {
      ResolvedAre(g, items[1..], i);
    }
  }

  lemma SearchedAre(g: Graph, items: seq<int>, recurse: bool, i: int)
    requires Acyclic(g)
    ensures i in (if recurse then Preorder(g, items) else Resolved(g, items)) <==> Searched(g, items, recurse, i)
  {
    hide Acyclic, Below, Preorder, Resolved;
    PreorderReaches(g, items, i);
    ResolvedAre(g, items, i);
  }

  lemma InSelect(g: Graph, oids: seq<int>, q: Query, d: Descriptor)
    requires Known(g, oids)
    ensures d in Select(g, oids, q) <==> exists i :: i in oids && g[i].desc == d && q.Matches(d)
  {
    hide Query.Matches, Select;
    var at := SelectExactly(g, oids, q, 0);
    assert oids[0..] == oids;
    if d in Select(g, oids, q) {
      var k :| 0 <= k < |at| && Select(g, oids, q)[k] == d;
      assert at[k] in at;
      assert oids[at[k]] in oids;
    }
    if exists i :: i in oids && g[i].desc == d && q.Matches(d) {
      var i :| i in oids && g[i].desc == d && q.Matches(d);
      var j :| 0 <= j < |oids| && oids[j] == i;
      assert j in at;
      var k :| 0 <= k < |at| && at[k] == j;
      assert Select(g, oids, q)[k] == d;
    }
  }

  /** Without recursion a listing goes through the members in their order, leaving out what is not registered. */
  lemma {:induction false} ResolvedExactly(g: Graph, items: seq<int>, from: nat) returns (at: seq<nat>)
    requires from <= |items|
    ensures Choice(at, from, |items|) && |Resolved(g, items[from..])| == |at|
    ensures forall k :: 0 <= k < |at| ==> Resolved(g, items[from..])[k] == items[at[k]]
    ensures forall j :: from <= j < |items| ==> (j in at <==> items[j] in g)
    decreases |items| - from
  {
    at := [];
    if from < |items| {
      at := ResolvedExactly(g, items, from + 1);
      assert items[from..][0] == items[from] && items[from..][1..] == items[from + 1..];
      if items[from] in g {
        at := [from] + at;
      }
    }
  }

  lemma Found(g: Graph, items: seq<int>, q: Query, recurse: bool, d: Descriptor)
    requires Acyclic(g)
    ensures d in FindMembers(g, items, q, recurse) <==>
              exists i :: i in g && Searched(g, items, recurse, i) && g[i].desc == d && q.Matches(d)
  {
    hide Query.Matches, Acyclic, Searched, Select, Preorder, Resolved;
    var oids := if recurse then Preorder(g, items) else Resolved(g, items);
    forall i
      ensures i in oids <==> Searched(g, items, recurse, i)
    {
      SearchedAre(g, items, recurse, i);
    }
    InSelect(g, oids, q, d);
  }

  /** A role search of a block with a resolver finds a description exactly when a member it goes through has it
      and its role is, or contains, the role searched for, with or without case. */
  lemma FoundByRole(b: Block, role: string, caseSensitive: bool, whole: bool, recurse: bool, d: Descriptor)
    requires b.resolver != null && b.Ready()
    ensures var g, deep := b.resolver.GraphOf(), recurse && b.resolver.direct;
            d in b.Found(ByRole(role, caseSensitive, whole), recurse) <==>
              RoleFits(d.role, role, caseSensitive, whole) &&
              exists i :: i in g && Searched(g, b.items, deep, i) && g[i].desc == d
  {
    hide Query.Matches, Searched, RoleFits;
    Found(b.resolver.GraphOf(), b.items, ByRole(role, caseSensitive, whole), recurse && b.resolver.direct, d);
    RoleMatches(d, role, caseSensitive, whole);
  }

  /** A class search likewise: the class itself, and with derived ones all that continue its identifier. */
  lemma FoundByClass(b: Block, classId: seq<int>, includeDerived: bool, recurse: bool, d: Descriptor)
    requires b.resolver != null && b.Ready()
    ensures var g, deep := b.resolver.GraphOf(), recurse && b.resolver.direct;
            d in b.Found(ByClass(classId, includeDerived), recurse) <==>
              ClassFits(d.classId, classId, includeDerived) &&
              exists i :: i in g && Searched(g, b.items, deep, i) && g[i].desc == d
  {
    hide Query.Matches, Searched, ClassFits;
    Found(b.resolver.GraphOf(), b.items, ByClass(classId, includeDerived), recurse && b.resolver.direct, d);
    ClassMatches(d, classId, includeDerived);
  }

  /** A search lists what it finds in the order of the plain listing, once for each listed member that fits. */
  lemma FoundInOrder(g: Graph, items: seq<int>, q: Query, recurse: bool) returns (at: seq<nat>)
    requires Acyclic(g)
    ensures var all, found := FindMembers(g, items, Everything, recurse), FindMembers(g, items, q, recurse);
            Choice(at, 0, |all|) && |found| == |at| && (forall k :: 0 <= k < |at| ==> found[k] == all[at[k]]) &&
            forall j :: 0 <= j < |all| ==> (j in at <==> q.Matches(all[j]))
  {
    hide Query.Matches, Acyclic, Preorder, Resolved;
    var oids := if recurse then Preorder(g, items) else Resolved(g, items);
    at := SelectExactly(g, oids, q, 0);
    assert oids[0..] == oids;
    SelectEverything(g, oids);
  }

  /** The first member with the first role decides a lookup by path, whatever the later ones hold. */
  lemma FirstDecides(g: Graph, items: seq<int>, path: seq<string>, k: nat)
    requires path != [] && k < |items| && items[k] in g && g[items[k]].desc.role == path[0]
    requires forall j :: 0 <= j < k && items[j] in g ==> g[items[j]].desc.role != path[0]
    ensures Lookup(g, items, path) ==
            if |path| == 1 then [g[items[k]].desc]
            else if g[items[k]].Branch? then Lookup(g, g[items[k]].items, path[1..]) else []
  {
    FirstAt(g, items, path[0], k);
  }

  lemma {:induction false} FirstAt(g: Graph, items: seq<int>, role: string, k: nat)
    requires k < |items| && items[k] in g && g[items[k]].desc.role == role
    requires forall j :: 0 <= j < k && items[j] in g ==> g[items[j]].desc.role != role
    ensures FirstWithRole(g, items, role) == Some(items[k])
  {
    if k > 0 {
      assert items[1..][k - 1] == items[k];
      FirstAt(g, items[1..], role, k - 1);
    }
  }

  // ---------------------------------------------------------------- searching the gateway's objects by class

  /** What the class identifiers say: blocks are of the block class, the others workers or managers. */
  predicate Classed(f: Forest) {
    match f
    case Nil => true
    case Limb(d, kids, rest) => d.classId == [1, 1] && Classed(kids) && Classed(rest)
    case Twig(d, _, rest) => (IsWorker(d) || IsManager(d)) && Classed(rest)
  }

  predicate IsWorker(d: Descriptor) {
    [1, 2] <= d.classId
  }

  predicate IsManager(d: Descriptor) {
    d.classId == [1, 3, 1] || d.classId == [1, 3, 2]
  }

  lemma {:induction false} ClassedSum(a: Forest, b: Forest)
    ensures Classed(Plus(a, b)) <==> Classed(a) && Classed(b)
  {
    match a
    case Nil =>
    case Limb(_, _, rest) => ClassedSum(rest, b);
    case Twig(_, _, rest) => ClassedSum(rest, b);
  }

  lemma {:induction false} TwigsClassed(ties: seq<Tie>)
    ensures Classed(Twigs(ties))
  {
    if ties != [] {
      TwigsClassed(ties[1..]);
    }
  }

  lemma LimbClassed(oid: int, role: string, name: string, kids: Forest, rest: Forest)
    requires Classed(kids) && Classed(rest)
    ensures Classed(Limb(BlockDesc(oid, role, name), kids, rest))
  {
  }

  lemma NestedClassed(device: int, c: nat)
    ensures Classed(NestedForest(device, c))
  {
    hide GainTies, BatteryTies, TransmitterTies, Classed, Twigs, BlockDesc;
    var base, ch := (device + c) * 1000, "Ch" + Itoa(c);
    TwigsClassed(GainTies(device, c));
    TwigsClassed(BatteryTies(device, c));
    TwigsClassed(TransmitterTies(device, c));
    NilClassed();
    LimbClassed(base + 3, "Transmitter", ch + " Transmitter", Twigs(TransmitterTies(device, c)), Nil);
    var third := Limb(BlockDesc(base + 3, "Transmitter", ch + " Transmitter"), Twigs(TransmitterTies(device, c)), Nil);
    LimbClassed(base + 2, "Battery", ch + " Battery", Twigs(BatteryTies(device, c)), third);
    var second := Limb(BlockDesc(base + 2, "Battery", ch + " Battery"), Twigs(BatteryTies(device, c)), third);
    LimbClassed(base + 1, "AudioGain", ch + " AudioGain", Twigs(GainTies(device, c)), second);
  }

  lemma NilClassed()
    ensures Classed(Nil)
  {
  }

  lemma ChannelClassed(family: Family, device: int, c: nat)
    ensures Classed(ChannelForest(family, device, c))
  {
    hide NestedForest, ChannelTies, Twigs;
    TwigsClassed(ChannelTies(family, device, c));
    NestedClassed(device, c);
    ClassedSum(Twigs(ChannelTies(family, device, c)), if family.QLXD? then NestedForest(device, c) else Nil);
  }

  lemma {:induction false} ChannelsClassed(family: Family, device: int, n: nat)
    ensures Classed(ChannelForests(family, device, n))
  {
    if n > 0 {
      ChannelsClassed(family, device, n - 1);
      ChannelClassed(family, device, n);
      ClassedSum(ChannelForests(family, device, n - 1), ChannelForest(family, device, n));
    }
  }

  lemma {:induction false} SiteClassed(models: seq<string>)
    ensures Classed(DeviceForests(models))
  {
    hide DetectModelFamily, MaxChannelsFromModel, DeviceTies;
    if models != [] {
      var n := |models| - 1;
      SiteClassed(models[..n]);
      var family, device := DetectModelFamily(models[n]), DeviceOid(n + 1);
      ChannelsClassed(family, device, MaxChannelsFromModel(models[n]));
      TwigsClassed(DeviceTies(family, device));
      ClassedSum(Twigs(DeviceTies(family, device)), ChannelForests(family, device, MaxChannelsFromModel(models[n])));
      ClassedSum(DeviceForests(models[..n]), DeviceForest(n + 1, models[n]));
    }
  }

  lemma {:induction false} ClassesHeld(g: Graph, f: Forest, o: int)
    requires Holds(g, f) && Classed(f) && o in Oids(f)
    ensures o in g && if g[o].Branch? then g[o].desc.classId == [1, 1] else IsWorker(g[o].desc) || IsManager(g[o].desc)
  {
    match f
    case Nil =>
    case Limb(d, kids, rest) =>
      if o in Oids(kids) {
        ClassesHeld(g, kids, o);
      } else if o in Oids(rest) {
        ClassesHeld(g, rest, o);
      }
    case Twig(d, _, rest) =>
      if o in Oids(rest) {
        ClassesHeld(g, rest, o);
      }
  }

  /** Among the registered objects of any receivers a search for the block class with derived ones fits exactly the
      blocks, one for the manager class exactly the two managers, and one for the worker class all the others. */
  lemma ClassesTell(g: Graph, models: seq<string>, o: int)
    requires Laid(g, SiteForest(models)) && o in g
    ensures ClassFits(g[o].desc.classId, [1, 1], true) <==> g[o].Branch?
    ensures ClassFits(g[o].desc.classId, [1, 3], true) <==> IsManager(g[o].desc)
    ensures ClassFits(g[o].desc.classId, [1, 2], true) <==> !g[o].Branch? && !IsManager(g[o].desc)
  {
    hide DeviceForests, Laid, ClassFits;
    SiteClassed(models);
    ClassedSum(MANAGERS, DeviceForests(models));
    LaidHolds(g, SiteForest(models), o);
    ClassesHeld(g, SiteForest(models), o);
    ClassTells(g[o].desc);
  }

  lemma ClassTells(d: Descriptor)
    ensures d.classId == [1, 1] ==>
              ClassFits(d.classId, [1, 1], true) && !ClassFits(d.classId, [1, 2], true) &&
              !ClassFits(d.classId, [1, 3], true) && !IsManager(d)
    ensures IsWorker(d) ==>
              !ClassFits(d.classId, [1, 1], true) && ClassFits(d.classId, [1, 2], true) &&
              !ClassFits(d.classId, [1, 3], true) && !IsManager(d)
    ensures IsManager(d) ==>
              !ClassFits(d.classId, [1, 1], true) && !ClassFits(d.classId, [1, 2], true) &&
              ClassFits(d.classId, [1, 3], true)
  {
    hide ClassFits;
    PrefixFits(d.classId, [1, 1]);
    PrefixFits(d.classId, [1, 2]);
    PrefixFits(d.classId, [1, 3]);
    assert IsWorker(d) ==> d.classId[1] == 2;
    assert [1, 3] <= d.classId ==> d.classId[1] == 3;
    assert [1, 2] <= d.classId ==> d.classId[1] == 2;
    assert [1, 1] <= d.classId ==> d.classId[1] == 1;
    assert d.classId == [1, 3, 1] ==> d.classId[..2] == [1, 3];
    assert d.classId == [1, 3, 2] ==> d.classId[..2] == [1, 3];
  }

  lemma LaidHolds(g: Graph, f: Forest, o: int)
    requires Laid(g, f) && o in g
    ensures Holds(g, f) && o in Oids(f)
  {
  }

  lemma PrefixFits(found: seq<int>, classId: seq<int>)
    ensures ClassFits(found, classId, true) <==> classId <= found
  {
    if classId <= found {
      assert found == classId + found[|classId|..];
    }
  }
}
