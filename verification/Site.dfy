/** What holds of the registered objects whenever no two receivers clash. */
module Site {
  import opened Text
  import opened BlockGraph
  import opened RolePaths
  import opened Forests
  import opened ShureModels
  import opened DeviceLayout
  import opened Collisions
  import opened Growth

  lemma {:induction false} TwigsHeight(ties: seq<Tie>)
    ensures Height(Twigs(ties)) <= 1
  {
    if ties != [] {
      TwigsHeight(ties[1..]);
    }
  }

  lemma NestedHeight(device: int, c: nat)
    ensures Height(NestedForest(device, c)) <= 2
  {
    hide Twigs;
    TwigsHeight(GainTies(device, c));
    TwigsHeight(BatteryTies(device, c));
    TwigsHeight(TransmitterTies(device, c));
    var f := NestedForest(device, c);
    assert Height(f.rest.rest) <= 2;
    assert Height(f.rest) <= 2;
  }

  lemma ChannelHeight(family: Family, device: int, c: nat)
    ensures Height(ChannelForest(family, device, c)) <= 3
  {
    hide Twigs, NestedForest;
    TwigsHeight(ChannelTies(family, device, c));
    NestedHeight(device, c);
    PlusTops(Twigs(ChannelTies(family, device, c)), if family.QLXD? then NestedForest(device, c) else Nil);
  }

  lemma {:induction false} ChannelsHeight(family: Family, device: int, n: nat)
    ensures Height(ChannelForests(family, device, n)) <= 3
  {
    hide ChannelForest;
    if n > 0 {
      ChannelsHeight(family, device, n - 1);
      ChannelHeight(family, device, n);
      PlusTops(ChannelForests(family, device, n - 1), ChannelForest(family, device, n));
    }
  }

  lemma DeviceHeight(index: nat, model: string)
    ensures Height(DeviceForest(index, model)) <= 4
  {
    hide ChannelForests, DetectModelFamily, MaxChannelsFromModel, Twigs, Plus;
    var family, device, n := DetectModelFamily(model), DeviceOid(index), MaxChannelsFromModel(model);
    TwigsHeight(DeviceTies(family, device));
    ChannelsHeight(family, device, n);
    PlusTops(Twigs(DeviceTies(family, device)), ChannelForests(family, device, n));
  }

  lemma {:induction false} DevicesHeight(models: seq<string>)
    ensures Height(DeviceForests(models)) <= 4
  {
    hide DeviceForest;
    if models != [] {
      var n := |models| - 1;
      DevicesHeight(models[..n]);
      DeviceHeight(n + 1, models[n]);
      PlusTops(DeviceForests(models[..n]), DeviceForest(n + 1, models[n]));
    }
  }

  lemma SiteHeight(models: seq<string>)
    ensures Height(SiteKids(models)) <= 4
  {
    hide DeviceForests;
    DevicesHeight(models);
    PlusTops(MANAGERS, DeviceForests(models));
    assert Height(MANAGERS) == 1;
  }

  lemma ItemsSound(g: Graph, f: Forest)
    requires Holds(g, f) && NoRepeat(Oids(f))
    ensures forall o :: o in Oids(f) ==> o in g && (g[o].Branch? ==> Known(g, g[o].items) && NoRepeat(g[o].items))
  {
    hide Oids, Holds, NoRepeat;
    forall o | o in Oids(f)
      ensures o in g && (g[o].Branch? ==> Known(g, g[o].items) && NoRepeat(g[o].items))
    {
      HeldIsKnown(g, f, o);
      if g[o].Branch? {
        ItemsDistinct(g, f, o);
      }
    }
  }

  /** With no clash the registered objects are a tree under the root, at most four levels deep: the
      searches' premise holds, every listed identifier resolves, no list has a repeat, each object is
      reached by one path, and the root's recursive listing is the layout in order. */
  lemma SiteIsTree(g: Graph, models: seq<string>)
    requires ClashFree(models) && Laid(g, SiteForest(models))
    ensures Acyclic(g)
    ensures forall o :: o in g && g[o].Branch? ==> Known(g, g[o].items) && NoRepeat(g[o].items)
    ensures ROOT in g && g[ROOT] == Branch(ROOT_DESC, Tops(SiteKids(models)))
    ensures TreeBelow(g, g[ROOT].items)
    ensures forall p :: Path(g, g[ROOT].items, p) ==> |p| <= 4
    ensures Preorder(g, g[ROOT].items) == Oids(SiteKids(models))
    ensures forall o :: o in g <==> o == ROOT || o in Oids(SiteKids(models))
  {
    hide Oids, Tops, DeviceForests, ClashFree, Holds, NoRepeat;
    var f, kids := SiteForest(models), SiteKids(models);
    AllDistinctIffClashFree(models);
    ForestAcyclic(g, f);
    LimbHolds(g, ROOT_DESC, kids);
    LimbAlone(ROOT_DESC, kids);
    DistinctParts(f);
    ForestIsTree(g, kids);
    SiteHeight(models);
    ListingIsForest(g, kids);
    ItemsSound(g, f);
    assert forall o :: o in Oids(f) <==> o == ROOT || o in Oids(kids);
  }

  // ---------------------------------------------------------------- roles

  lemma {:induction false} TwigRoles(ties: seq<Tie>, role: string)
    ensures HasRole(Twigs(ties), role) <==> exists k :: 0 <= k < |ties| && ties[k].config.name == role
  {
    if ties != [] {
      TwigRoles(ties[1..], role);
      if k :| 1 <= k < |ties| && ties[k].config.name == role {
        assert ties[1..][k - 1].config.name == role;
      }
      if k :| 0 <= k < |ties[1..]| && ties[1..][k].config.name == role {
        assert ties[k + 1].config.name == role;
      }
    }
  }

  lemma {:induction false} TwigsApart(ties: seq<Tie>)
    requires forall i, j :: 0 <= i < j < |ties| ==> ties[i].config.name != ties[j].config.name
    ensures RolesApart(Twigs(ties))
  {
    if ties != [] {
      TwigRoles(ties[1..], ties[0].config.name);
      TwigsApart(ties[1..]);
    }
  }

  /** A table of distinct roles gives workers of distinct roles. */
  lemma TableApart(scope: Scope, configs: seq<WorkerConfig>, base: int)
    requires Distinct(Names(configs))
    ensures RolesApart(Twigs(Ties(scope, configs, base)))
    ensures forall role :: HasRole(Twigs(Ties(scope, configs, base)), role) <==> role in Names(configs)
  {
    var ties := Ties(scope, configs, base);
    forall i, j | 0 <= i < j < |ties|
      ensures ties[i].config.name != ties[j].config.name
    {
      assert Names(configs)[i] != Names(configs)[j];
    }
    TwigsApart(ties);
    forall role
      ensures HasRole(Twigs(ties), role) <==> role in Names(configs)
    {
      TwigRoles(ties, role);
      if k :| 0 <= k < |ties| && ties[k].config.name == role {
        assert Names(configs)[k] == role;
      }
      if k :| 0 <= k < |configs| && Names(configs)[k] == role {
        assert ties[k].config.name == role;
      }
    }
  }

  lemma {:induction false} PlusRole(a: Forest, b: Forest, role: string)
    ensures HasRole(Plus(a, b), role) <==> HasRole(a, role) || HasRole(b, role)
  {
    if !a.Nil? {
      PlusRole(a.rest, b, role);
    }
  }

  lemma {:induction false} PlusApartRoles(a: Forest, b: Forest)
    ensures RolesApart(Plus(a, b)) <==>
              RolesApart(a) && RolesApart(b) && forall r :: HasRole(a, r) && HasRole(b, r) ==> false
  {
    if !a.Nil? {
      PlusApartRoles(a.rest, b);
      PlusRole(a.rest, b, a.desc.role);
    }
  }

  lemma ThreeApart(f: Forest)
    requires f.Limb? && f.rest.Limb? && f.rest.rest.Limb? && f.rest.rest.rest.Nil?
    requires RolesApart(f.kids) && RolesApart(f.rest.kids) && RolesApart(f.rest.rest.kids)
    requires f.desc.role != f.rest.desc.role && f.desc.role != f.rest.rest.desc.role
    requires f.rest.desc.role != f.rest.rest.desc.role
    ensures RolesApart(f)
    ensures forall r :: HasRole(f, r) ==> r in [f.desc.role, f.rest.desc.role, f.rest.rest.desc.role]
  {
    assert forall r :: HasRole(f.rest.rest, r) <==> r == f.rest.rest.desc.role;
    assert forall r :: HasRole(f.rest, r) <==> r == f.rest.desc.role || r == f.rest.rest.desc.role;
    assert RolesApart(f.rest.rest);
    assert RolesApart(f.rest);
  }

  lemma NestedApart(device: int, c: nat)
    ensures RolesApart(NestedForest(device, c))
    ensures forall role :: HasRole(NestedForest(device, c), role) ==> role in ["AudioGain", "Battery", "Transmitter"]
  {
    hide Twigs, Ties, Names, RolesApart, HasRole;
    TableDistinct();
    GainRole();
    TableApart(Channel(c), GAIN_WORKERS, (device + c) * 1000 + 10);
    TableApart(Nested(c, "Battery"), BATTERY_WORKERS, (device + c) * 1000 + 20);
    TableApart(Nested(c, "Transmitter"), TRANSMITTER_WORKERS, (device + c) * 1000 + 30);
    ThreeApart(NestedForest(device, c));
  }

  lemma GainRole()
    ensures Distinct(Names(GAIN_WORKERS))
  {
  }

  lemma NestedNotWorkers(role: string)
    requires role in ["AudioGain", "Battery", "Transmitter"]
    ensures role !in Names(ChannelWorkersConfig(QLXD))
  {
    hide Names;
    QlxdMarks();
    assert Mark("AudioGain") == 1006 && Mark("Battery") == 926 && Mark("Transmitter") == 1241;
    if role in Names(ChannelWorkersConfig(QLXD)) {
      MarksMeet(["AudioGain", "Battery", "Transmitter"], [1006, 926, 1241], Names(ChannelWorkersConfig(QLXD)),
                [1109, 1052, 1193, 1419], role, role);
    }
  }

  lemma ChannelApart(family: Family, device: int, c: nat)
    ensures RolesApart(ChannelForest(family, device, c))
  {
    hide Twigs, Ties, Names, NestedForest, RolesApart, HasRole, ChannelWorkersConfig;
    var workers := Twigs(ChannelTies(family, device, c));
    ChannelDistinct(family);
    TableApart(Channel(c), ChannelWorkersConfig(family), (device + c) * 100);
    if family.QLXD? {
      NestedApart(device, c);
      forall r | HasRole(workers, r) && HasRole(NestedForest(device, c), r)
        ensures false
      {
        NestedNotWorkers(r);
      }
      PlusApartRoles(workers, NestedForest(device, c));
    } else {
      PlusNil(workers);
    }
    AloneApart(ChannelDesc(device, c), ChannelKids(family, device, c));
  }

  lemma AloneApart(d: Descriptor, kids: Forest)
    ensures RolesApart(Limb(d, kids, Nil)) <==> RolesApart(kids)
    ensures forall r :: HasRole(Limb(d, kids, Nil), r) <==> r == d.role
  {
  }

  lemma {:induction false} ChannelsApartRoles(family: Family, device: int, n: nat)
    ensures RolesApart(ChannelForests(family, device, n))
    ensures forall r :: HasRole(ChannelForests(family, device, n), r) ==>
              exists c :: 1 <= c <= n && r == "Channel" + Itoa(c)
  {
    hide ChannelForest, RolesApart, Itoa;
    if n == 0 {
      assert RolesApart(ChannelForests(family, device, 0)) by { NilApart(); }
    } else {
      hide HasRole;
      var before, here := ChannelForests(family, device, n - 1), ChannelForest(family, device, n);
      ChannelsApartRoles(family, device, n - 1);
      ChannelApart(family, device, n);
      ChannelRole(family, device, n);
      forall r | HasRole(before, r) && HasRole(here, r)
        ensures false
      {
        var c :| 1 <= c <= n - 1 && r == "Channel" + Itoa(c);
        SameChannelRole(c, n);
      }
      PlusApartRoles(before, here);
      forall r | HasRole(Plus(before, here), r)
        ensures exists c :: 1 <= c <= n && r == "Channel" + Itoa(c)
      {
        PlusRole(before, here, r);
        if HasRole(here, r) {
          assert r == "Channel" + Itoa(n);
        }
      }
    }
  }

  lemma NilApart()
    ensures RolesApart(Nil)
  {
  }

  lemma ChannelRole(family: Family, device: int, c: nat)
    ensures forall r :: HasRole(ChannelForest(family, device, c), r) <==> r == "Channel" + Itoa(c)
  {
    AloneApart(ChannelDesc(device, c), ChannelKids(family, device, c));
  }

  lemma SameChannelRole(c: int, d: int)
    requires "Channel" + Itoa(c) == "Channel" + Itoa(d)
    ensures c == d
  {
    assert ("Channel" + Itoa(c))[7..] == Itoa(c) && ("Channel" + Itoa(d))[7..] == Itoa(d);
    ItoaInjective(c, d);
  }

  /** Within one receiver sibling roles always differ. */
  lemma DeviceApart(index: nat, model: string)
    ensures RolesApart(DeviceForest(index, model))
    ensures forall r :: HasRole(DeviceForest(index, model), r) <==> r == "Device"
  {
    hide Twigs, Ties, Names, ChannelForests, RolesApart, HasRole, DetectModelFamily, MaxChannelsFromModel;
    var family, device, n := DetectModelFamily(model), DeviceOid(index), MaxChannelsFromModel(model);
    var workers, channels := Twigs(DeviceTies(family, device)), ChannelForests(family, device, n);
    ChannelsApartRoles(family, device, n);
    if family.QLXD? {
      TableDistinct();
      TableApart(WholeDevice, DEVICE_WORKERS, device * 100);
      forall r | HasRole(workers, r) && HasRole(channels, r)
        ensures false
      {
        var c :| 1 <= c <= n && r == "Channel" + Itoa(c);
        WorkerNotChannel(r);
      }
      PlusApartRoles(workers, channels);
    } else {
      NoTwigs();
    }
    AloneApart(DeviceForest(index, model).desc, DeviceKids(family, device, n));
  }

  lemma WorkerNotChannel(r: string)
    requires r in Names(DEVICE_WORKERS)
    ensures r != "" && r[0] != 'C'
  {
    assert Start(Names(DEVICE_WORKERS), 'C', false);
  }

  lemma {:induction false} DevicesApart(models: seq<string>)
    ensures RolesApart(DeviceForests(models)) <==> |models| <= 1
    ensures forall r :: HasRole(DeviceForests(models), r) <==> r == "Device" && models != []
  {
    hide DeviceForest;
    if models != [] {
      var n := |models| - 1;
      var before, here := DeviceForests(models[..n]), DeviceForest(n + 1, models[n]);
      DevicesApart(models[..n]);
      DeviceApart(n + 1, models[n]);
      PlusApartRoles(before, here);
      forall r
        ensures HasRole(Plus(before, here), r) <==> HasRole(before, r) || HasRole(here, r)
      {
        PlusRole(before, here, r);
      }
      assert n > 0 ==> HasRole(before, "Device");
      assert HasRole(here, "Device");
    }
  }

  lemma SiteApart(models: seq<string>)
    ensures RolesApart(SiteKids(models)) <==> |models| <= 1
  {
    hide DeviceForests;
    DevicesApart(models);
    PlusApartRoles(MANAGERS, DeviceForests(models));
    ManagerRoles();
  }

  lemma ManagerRoles()
    ensures RolesApart(MANAGERS) && !HasRole(MANAGERS, "Device")
  {
  }

  /** Every device block has the role "Device", so role paths from the root can be looked up back exactly
      while there is at most one receiver. */
  lemma LookupInvertsIffOneDevice(g: Graph, models: seq<string>)
    requires ClashFree(models) && Laid(g, SiteForest(models))
    ensures ROOT in g && g[ROOT].Branch?
    ensures LookupInverts(g, g[ROOT].items) <==> |models| <= 1
  {
    hide Oids, Tops, DeviceForests, ClashFree, Holds, NoRepeat;
    var kids := SiteKids(models);
    AllDistinctIffClashFree(models);
    LimbHolds(g, ROOT_DESC, kids);
    LimbAlone(ROOT_DESC, kids);
    DistinctParts(SiteForest(models));
    SiteApart(models);
    RolesApartMeans(g, kids);
    LaidSelfDescribing(g, SiteForest(models));
    LookupInvertsIffRolesDiffer(g, Tops(kids));
  }

  lemma LaidSelfDescribing(g: Graph, f: Forest)
    requires Laid(g, f)
    ensures SelfDescribing(g)
  {
    forall o | o in g
      ensures g[o].desc.oid == o
    {
      HeldSelfDescribing(g, f, o);
    }
  }

  lemma {:induction false} HeldSelfDescribing(g: Graph, f: Forest, o: int)
    requires Holds(g, f) && o in Oids(f)
    ensures o in g && g[o].desc.oid == o
  {
    if o != f.desc.oid {
      if f.Limb? && o in Oids(f.kids) {
        HeldSelfDescribing(g, f.kids, o);
      } else {
        assert o in Oids(f.rest);
        HeldSelfDescribing(g, f.rest, o);
      }
    }
  }

  // ---------------------------------------------------------------- listings

  /** The descriptions of a forest, parents first. */
  function Described(f: Forest): seq<Descriptor> {
    match f
    case Nil => []
    case Limb(d, kids, rest) => [d] + Described(kids) + Described(rest)
    case Twig(d, _, rest) => [d] + Described(rest)
  }

  function TopsDescribed(f: Forest): seq<Descriptor> {
    if f.Nil? then [] else [f.desc] + TopsDescribed(f.rest)
  }

  lemma {:induction false} DescribedIsSelected(g: Graph, f: Forest)
    requires Holds(g, f)
    ensures Known(g, Oids(f)) && Select(g, Oids(f), Everything) == Described(f)
    ensures Resolved(g, Tops(f)) == Tops(f) && Select(g, Tops(f), Everything) == TopsDescribed(f)
  {
    if !f.Nil? {
      DescribedIsSelected(g, f.rest);
      if f.Limb? {
        DescribedIsSelected(g, f.kids);
        SelectCons(g, f.desc.oid, Oids(f.kids), Everything);
        SelectOfSum(g, [f.desc.oid] + Oids(f.kids), Oids(f.rest), Everything);
      } else {
        SelectCons(g, f.desc.oid, Oids(f.rest), Everything);
      }
      SelectCons(g, f.desc.oid, Tops(f.rest), Everything);
      assert Tops(f)[1..] == Tops(f.rest);
    }
  }

  /** The root's listings of the layout. */
  lemma SiteListing(g: Graph, models: seq<string>, recurse: bool)
    requires ClashFree(models) && Laid(g, SiteForest(models))
    ensures Acyclic(g) && ROOT in g && g[ROOT].Branch?
    ensures FindMembers(g, g[ROOT].items, Everything, recurse)
         == if recurse then Described(SiteKids(models)) else TopsDescribed(SiteKids(models))
  {
    hide Laid, SiteForest, SiteKids, Acyclic, Preorder, Select, Resolved, TreeBelow, ClashFree;
    SiteIsTree(g, models);
    SiteHolds(g, models);
    DescribedIsSelected(g, SiteKids(models));
  }

  lemma SiteHolds(g: Graph, models: seq<string>)
    requires Laid(g, SiteForest(models))
    ensures Holds(g, SiteKids(models))
  {
    LimbHolds(g, ROOT_DESC, SiteKids(models));
  }

  // ---------------------------------------------------------------- each tie's worker

  /** The object of a tie is filed as that tie describes it. */
  predicate TieHeld(g: Graph, tie: Tie) {
    tie.oid in g && g[tie.oid] == Leaf(tie.Desc(), tie.Setter())
  }

  lemma {:induction false} TwigsFiled(g: Graph, ties: seq<Tie>, tie: Tie)
    requires Holds(g, Twigs(ties)) && tie in ties
    ensures TieHeld(g, tie)
  {
    if tie != ties[0] {
      assert tie in ties[1..];
      TwigsFiled(g, ties[1..], tie);
    }
  }

  lemma NestedHeld(g: Graph, device: int, c: nat)
    requires Holds(g, NestedForest(device, c))
    ensures Holds(g, Twigs(GainTies(device, c))) && Holds(g, Twigs(BatteryTies(device, c)))
    ensures Holds(g, Twigs(TransmitterTies(device, c)))
  {
    hide Twigs, Ties;
    var f := NestedForest(device, c);
    assert Holds(g, f.rest);
    assert Holds(g, f.rest.rest);
  }

  lemma ChannelFiled(g: Graph, family: Family, device: int, c: nat, tie: Tie)
    requires Holds(g, ChannelForest(family, device, c)) && tie in AllChannelTies(family, device, c)
    ensures TieHeld(g, tie)
  {
    hide Twigs, Ties, TieHeld, Tie.Desc, Tie.Setter, NestedForest, Holds;
    if family.QLXD? && Holds(g, NestedForest(device, c)) {
      NestedHeld(g, device, c);
    }
    LimbHolds(g, ChannelDesc(device, c), ChannelKids(family, device, c));
    HoldsPlus(g, Twigs(ChannelTies(family, device, c)), if family.QLXD? then NestedForest(device, c) else Nil);
    if tie in ChannelTies(family, device, c) {
      TwigsFiled(g, ChannelTies(family, device, c), tie);
    } else if tie in GainTies(device, c) {
      TwigsFiled(g, GainTies(device, c), tie);
    } else if tie in BatteryTies(device, c) {
      TwigsFiled(g, BatteryTies(device, c), tie);
    } else {
      TwigsFiled(g, TransmitterTies(device, c), tie);
    }
  }

  lemma {:induction false} ReceiverFiled(g: Graph, family: Family, device: int, n: nat, tie: Tie)
    requires Holds(g, Twigs(DeviceTies(family, device))) && Holds(g, ChannelForests(family, device, n))
    requires tie in AllTies(family, device, n)
    ensures TieHeld(g, tie)
  {
    hide Twigs, ChannelForest, AllChannelTies, TieHeld, DeviceTies;
    if n == 0 {
      TwigsFiled(g, DeviceTies(family, device), tie);
    } else {
      HoldsPlus(g, ChannelForests(family, device, n - 1), ChannelForest(family, device, n));
      if tie in AllTies(family, device, n - 1) {
        ReceiverFiled(g, family, device, n - 1, tie);
      } else {
        ChannelFiled(g, family, device, n, tie);
      }
    }
  }

  lemma {:induction false} DeviceHeld(g: Graph, models: seq<string>, k: nat)
    requires Holds(g, DeviceForests(models)) && k < |models|
    ensures Holds(g, DeviceForest(k + 1, models[k]))
  {
    hide DeviceForest;
    var n := |models| - 1;
    HoldsPlus(g, DeviceForests(models[..n]), DeviceForest(n + 1, models[n]));
    if k < n {
      DeviceHeld(g, models[..n], k);
    }
  }

  /** Every tie of every receiver is filed as described. */
  lemma TieFiled(g: Graph, models: seq<string>, k: nat, tie: Tie)
    requires Laid(g, SiteForest(models)) && k < |models|
    requires tie in AllTies(DetectModelFamily(models[k]), DeviceOid(k + 1), MaxChannelsFromModel(models[k]))
    ensures TieHeld(g, tie)
  {
    hide DeviceForests, ChannelForests, AllTies, TieHeld, DetectModelFamily, MaxChannelsFromModel, Twigs, Oids,
        DeviceTies;
    var family, device, n := DetectModelFamily(models[k]), DeviceOid(k + 1), MaxChannelsFromModel(models[k]);
    SiteHolds(g, models);
    HoldsPlus(g, MANAGERS, DeviceForests(models));
    DeviceHeld(g, models, k);
    DeviceParts(k + 1, models[k]);
    LimbHolds(g, BlockDesc(device, "Device", models[k]), DeviceKids(family, device, n));
    HoldsPlus(g, Twigs(DeviceTies(family, device)), ChannelForests(family, device, n));
    ReceiverFiled(g, family, device, n, tie);
  }

  /** While no places clash a new receiver's objects replace no registered one, so no client's view of an
      object changes behind its back. */
  lemma ArrivalReplacesNothing(g: Graph, models: seq<string>, model: string)
    requires Laid(g, SiteForest(models)) && ClashFree(models + [model])
    ensures forall x :: x in Oids(DeviceForest(|models| + 1, model)) ==> x !in g
  {
    hide Oids, DeviceForests, ClashFree, Holds, NoRepeat, DeviceForest;
    var all, f := models + [model], DeviceForest(|models| + 1, model);
    AllDistinctIffClashFree(all);
    SiteStep(models, model);
    LimbAlone(ROOT_DESC, SiteKids(all));
    LimbAlone(ROOT_DESC, SiteKids(models));
    DistinctParts(SiteForest(all));
    PlusApart(SiteKids(models), f);
    PlusOids(SiteKids(models), f);
    assert forall x :: x in Oids(SiteForest(models)) <==> x == ROOT || x in Oids(SiteKids(models));
  }

  // ---------------------------------------------------------------- places, with receivers removed

  /** Some receiver ever added, at its place, owns the identifier. */
  predicate OwnedByOne(places: seq<nat>, models: seq<string>, x: int)
    requires |places| == |models|
  {
    exists k :: 0 <= k < |places| && Owns(places[k], models[k], x)
  }

  /** The places handed out so far are 1 to the highest, each at least once. */
  predicate HandedOut(places: seq<nat>, highest: nat) {
    && (forall k :: 0 <= k < |places| ==> 1 <= places[k] <= highest)
    && forall p :: 1 <= p <= highest ==> p in places
  }

  /** Registered are the three reserved objects, and whatever some receiver ever added owns. */
  ghost predicate OnlyOwned(g: Graph, places: seq<nat>, models: seq<string>)
    requires |places| == |models|
  {
    forall o :: o in g <==> o in [ROOT, DEVICE_MANAGER, CLASS_MANAGER] || OwnedByOne(places, models, o)
  }

  function Larger(a: nat, b: nat): nat {
    if a < b then b else a
  }

  lemma OneMorePlace(places: seq<nat>, highest: nat, place: nat)
    requires HandedOut(places, highest) && 1 <= place <= highest + 1
    ensures HandedOut(places + [place], Larger(highest, place))
  {
    assert (places + [place])[|places|] == place;
    forall p | 1 <= p <= Larger(highest, place)
      ensures p in places + [place]
    {
      assert p == place || p in places;
    }
  }

  lemma OwnedMore(places: seq<nat>, models: seq<string>, place: nat, model: string, x: int)
    requires |places| == |models|
    ensures OwnedByOne(places + [place], models + [model], x) <==>
              OwnedByOne(places, models, x) || Owns(place, model, x)
  {
    hide Owns;
    var n := |places|;
    assert (places + [place])[n] == place && (models + [model])[n] == model;
    if k :| 0 <= k < n && Owns(places[k], models[k], x) {
      assert Owns((places + [place])[k], (models + [model])[k], x);
    }
    if Owns(place, model, x) {
      assert Owns((places + [place])[n], (models + [model])[n], x);
    }
  }

  lemma RegisteredMore(g: Graph, g': Graph, places: seq<nat>, models: seq<string>, place: nat, model: string,
                       items: seq<int>)
    requires |places| == |models| && OnlyOwned(g, places, models) && place >= 1
    requires GrewTo(g, g', ROOT, DeviceForest(place, model), items)
    ensures OnlyOwned(g', places + [place], models + [model])
  {
    hide Owns, Oids, DeviceForest, Holds, OwnedByOne;
    DeviceOids(place, model);
    forall o
      ensures o in g' <==> o in [ROOT, DEVICE_MANAGER, CLASS_MANAGER] ||
                           OwnedByOne(places + [place], models + [model], o)
    {
      OwnedMore(places, models, place, model, o);
    }
  }

  lemma RegisteredStart(g: Graph)
    requires Laid(g, SiteForest([]))
    ensures OnlyOwned(g, [], [])
  {
    hide Oids, SiteForest;
    SiteParts([]);
    NilOids();
    forall o | o in Oids(SiteForest([]))
      ensures o in g
    {
      HeldIsKnown(g, SiteForest([]), o);
    }
  }

  /** Where the next receiver goes, however receivers came and went: its device block gets an identifier that
      is registered already exactly when fewer are connected than places were ever handed out, or the
      identifier is one of an earlier place's. */
  lemma NextPlaceTakenIff(g: Graph, places: seq<nat>, models: seq<string>, highest: nat, connected: nat)
    requires |places| == |models| && OnlyOwned(g, places, models) && HandedOut(places, highest)
    requires connected <= highest
    ensures DeviceOid(connected + 1) in g <==>
              connected < highest ||
              exists k :: 0 <= k < |places| && BlockClash(places[k], models[k], connected + 1)
  {
    hide BlockClash, Owns;
    var next := connected + 1;
    assert DeviceOid(next) in g <==> OwnedByOne(places, models, DeviceOid(next));
    if connected < highest {
      assert next in places;
      var k :| 0 <= k < |places| && places[k] == next;
      DeviceOwned(next, models[k]);
    } else {
      forall k | 0 <= k < |places|
        ensures Owns(places[k], models[k], DeviceOid(next)) <==> BlockClash(places[k], models[k], next)
      {
        BlockOwnedIff(places[k], models[k], next);
      }
    }
  }

  /** All identifiers of the next receiver are free exactly when as many are connected as places were ever handed
      out and no place clashes with the next one. */
  lemma NextReceiverFreeIff(g: Graph, places: seq<nat>, models: seq<string>, highest: nat, connected: nat,
                            model: string)
    requires |places| == |models| && OnlyOwned(g, places, models) && HandedOut(places, highest)
    requires connected <= highest
    ensures (forall x :: Owns(connected + 1, model, x) ==> x !in g) <==>
              connected == highest &&
              forall k :: 0 <= k < |places| ==> !Clash(places[k], models[k], connected + 1, model)
  {
    hide Clash, Owns, OwnedByOne, DeviceOid;
    var next := connected + 1;
    if connected < highest {
      assert next in places;
      var k :| 0 <= k < |places| && places[k] == next;
      DeviceOwned(next, models[k]);
      DeviceOwned(next, model);
      OneOwns(places, models, k, DeviceOid(next));
    } else if k :| 0 <= k < |places| && Clash(places[k], models[k], next, model) {
      var x := ClashMeansShare(places[k], models[k], next, model);
      OneOwns(places, models, k, x);
    } else {
      forall x | Owns(next, model, x)
        ensures x !in g
      {
        AboveReserved(next, model, x);
        NoneOwns(places, models, next, model, x);
      }
    }
  }

  lemma OneOwns(places: seq<nat>, models: seq<string>, k: nat, x: int)
    requires |places| == |models| && k < |places| && Owns(places[k], models[k], x)
    ensures OwnedByOne(places, models, x)
  {
    hide Owns;
  }

  lemma NoneOwns(places: seq<nat>, models: seq<string>, next: nat, model: string, x: int)
    requires |places| == |models| && Owns(next, model, x)
    requires forall k :: 0 <= k < |places| ==>
               1 <= places[k] < next && !Clash(places[k], models[k], next, model)
    ensures !OwnedByOne(places, models, x)
  {
    hide Owns, Clash;
    forall k | 0 <= k < |places|
      ensures !Owns(places[k], models[k], x)
    {
      if Owns(places[k], models[k], x) {
        ShareMeansClash(places[k], models[k], next, model, x);
      }
    }
  }

  lemma NoClash(j: nat, earlier: string, i: nat, later: string)
    requires 1 <= j < i <= 100
    ensures !Clash(j, earlier, i, later)
  {
    ClashUpTo101(j, earlier, i, later);
  }

  lemma IsOwned(g: Graph, places: seq<nat>, models: seq<string>, x: int)
    requires |places| == |models| && OnlyOwned(g, places, models) && OwnedByOne(places, models, x)
    ensures x in g
  {
  }

  lemma PlaceHandedOut(places: seq<nat>, highest: nat, k: nat)
    requires HandedOut(places, highest) && k < |places|
    ensures 1 <= places[k] <= highest
  {
  }

  lemma FirstMeets101(earlier: string, later: string)
    requires Qlxd(earlier) && Qlxd(later)
    ensures Owns(1, earlier, 111001) && Owns(101, later, 111001)
  {
    hide DetectModelFamily, MaxChannelsFromModel;
    ChannelOwned(1, earlier, 1, 111001);
  }

  lemma NoBlockClash(j: nat, earlier: string, i: nat)
    requires 1 <= j && i <= 101
    ensures !BlockClash(j, earlier, i)
  {
  }

  lemma DeviceOwned(index: nat, model: string)
    ensures Owns(index, model, DeviceOid(index))
  {
  }
}
