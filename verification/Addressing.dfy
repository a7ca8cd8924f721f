/** Where the objects of a single receiver are found by role path, and under which identifiers. */
module Addressing {
  import opened Text
  import opened BlockGraph
  import opened RolePaths
  import opened Forests
  import opened ShureModels
  import opened DeviceLayout
  import opened Collisions
  import opened Growth
  import opened Site

  lemma {:induction false} TwigTop(ties: seq<Tie>, k: nat)
    requires k < |ties|
    ensures ties[k].oid in Tops(Twigs(ties))
  {
    if k > 0 {
      TwigTop(ties[1..], k - 1);
    }
  }

  lemma {:induction false} ChannelAt(g: Graph, family: Family, device: int, n: nat, c: nat)
    requires 1 <= c <= n && Holds(g, ChannelForests(family, device, n))
    ensures device + c in Tops(ChannelForests(family, device, n)) && Holds(g, ChannelForest(family, device, c))
  {
    hide ChannelKids;
    PlusTops(ChannelForests(family, device, n - 1), ChannelForest(family, device, n));
    HoldsPlus(g, ChannelForests(family, device, n - 1), ChannelForest(family, device, n));
    if c < n {
      ChannelAt(g, family, device, n - 1, c);
    }
  }

  /** The single receiver's device block, and its channels' blocks, in the object graph. */
  lemma DeviceAt(g: Graph, model: string, c: nat)
    requires Laid(g, SiteForest([model])) && 1 <= c <= MaxChannelsFromModel(model)
    ensures ROOT in g && g[ROOT].Branch? && 110 in g[ROOT].items
    ensures 110 in g && g[110].Branch? && g[110].desc.role == "Device" && 110 + c in g[110].items
    ensures Holds(g, ChannelForest(DetectModelFamily(model), 110, c))
  {
    hide DetectModelFamily, MaxChannelsFromModel, ChannelForests, DeviceTies, Twigs;
    var family, n := DetectModelFamily(model), MaxChannelsFromModel(model);
    OneDevice(model);
    LimbHolds(g, ROOT_DESC, SiteKids([model]));
    HoldsPlus(g, MANAGERS, DeviceForest(1, model));
    PlusTops(MANAGERS, DeviceForest(1, model));
    assert Tops(DeviceForest(1, model)) == [110];
    LimbHolds(g, BlockDesc(110, "Device", model), DeviceKids(family, 110, n));
    HoldsPlus(g, Twigs(DeviceTies(family, 110)), ChannelForests(family, 110, n));
    PlusTops(Twigs(DeviceTies(family, 110)), ChannelForests(family, 110, n));
    ChannelAt(g, family, 110, n, c);
  }

  lemma OneDevice(model: string)
    ensures SiteKids([model]) == Plus(MANAGERS, DeviceForest(1, model)) && DeviceOid(1) == 110
  {
    hide DeviceForest;
    assert [model][..0] == [];
    assert DeviceForests([]) == Nil && DeviceForests([model]) == Plus(Nil, DeviceForest(1, model));
  }

  /** The path of identifiers to a channel's block, and its roles. */
  lemma ChannelPath(g: Graph, model: string, c: nat)
    requires Laid(g, SiteForest([model])) && 1 <= c <= MaxChannelsFromModel(model)
    ensures ROOT in g && g[ROOT].Branch? && 110 + c in g
    ensures g[110 + c] == Branch(ChannelDesc(110, c), Tops(ChannelKids(DetectModelFamily(model), 110, c)))
    ensures Holds(g, ChannelKids(DetectModelFamily(model), 110, c))
    ensures Spells(g, g[ROOT].items, [110, 110 + c], ["Device", "Channel" + Itoa(c)])
  {
    hide DetectModelFamily, MaxChannelsFromModel, ChannelKids, SiteForest;
    DeviceAt(g, model, c);
    LimbHolds(g, ChannelDesc(110, c), ChannelKids(DetectModelFamily(model), 110, c));
    assert [110, 110 + c][1..] == [110 + c];
    assert Path(g, g[110].items, [110 + c]);
  }

  /** One step further down a path. */
  lemma Deeper(g: Graph, items: seq<int>, p: seq<int>, roles: seq<string>, i: int)
    requires Spells(g, items, p, roles) && g[p[|p| - 1]].Branch? && i in g[p[|p| - 1]].items && i in g
    ensures Spells(g, items, p + [i], roles + [g[i].desc.role])
  {
    SnocPath(g, items, p, i);
    PathRegistered(g, items, p + [i]);
    assert Roles(g, p + [i]) == Roles(g, p) + [g[i].desc.role];
  }

  /** Looking up the roles of a path finds its end. */
  lemma FoundAt(g: Graph, model: string, p: seq<int>, roles: seq<string>)
    requires Laid(g, SiteForest([model])) && ROOT in g && g[ROOT].Branch? && Spells(g, g[ROOT].items, p, roles)
    ensures p != [] && p[|p| - 1] in g && Lookup(g, g[ROOT].items, roles) == [g[p[|p| - 1]].desc]
  {
    hide Laid, SiteForest, Lookup;
    LookupInvertsIffOneDevice(g, [model]);
    PathRegistered(g, g[ROOT].items, p);
  }

  /** With one receiver the path "Device", "Channel" and a number leads to that channel's block, and the workers of
      the channel are found below it by name, numbered from a hundred times its identifier in the table's order. */
  lemma ChannelFound(g: Graph, model: string, c: nat, k: nat)
    requires Laid(g, SiteForest([model])) && 1 <= c <= MaxChannelsFromModel(model)
    requires k < |ChannelWorkersConfig(DetectModelFamily(model))|
    ensures ROOT in g && g[ROOT].Branch?
    ensures var d := Lookup(g, g[ROOT].items, ["Device", "Channel" + Itoa(c)]);
            |d| == 1 && d[0].oid == 110 + c && d[0].userLabel == "Channel " + Itoa(c)
    ensures var config := ChannelWorkersConfig(DetectModelFamily(model))[k];
            var d := Lookup(g, g[ROOT].items, ["Device", "Channel" + Itoa(c), config.name]);
            |d| == 1 && d[0].oid == (110 + c) * 100 + k && d[0].classId == [1, 2, 1, config.classNumber]
  {
    hide DetectModelFamily, MaxChannelsFromModel, ChannelWorkersConfig, NestedForest, SiteForest, Laid, Lookup, Spells;
    var family := DetectModelFamily(model);
    var ties := ChannelTies(family, 110, c);
    var start := ["Device", "Channel" + Itoa(c)];
    ChannelPath(g, model, c);
    FoundAt(g, model, [110, 110 + c], start);
    KidsAt(g, family, c);
    TwigTop(ties, k);
    TwigsFiled(g, ties, ties[k]);
    Deeper(g, g[ROOT].items, [110, 110 + c], start, ties[k].oid);
    FoundAt(g, model, [110, 110 + c] + [ties[k].oid], start + [ties[k].config.name]);
    assert start + [ties[k].config.name] == ["Device", "Channel" + Itoa(c), ties[k].config.name];
  }

  lemma KidsAt(g: Graph, family: Family, c: nat)
    requires Holds(g, ChannelKids(family, 110, c))
    ensures Holds(g, Twigs(ChannelTies(family, 110, c)))
    ensures forall o :: o in Tops(Twigs(ChannelTies(family, 110, c))) ==> o in Tops(ChannelKids(family, 110, c))
    ensures family.QLXD? ==> Holds(g, NestedForest(110, c))
    ensures family.QLXD? ==>
              forall o :: o in Tops(NestedForest(110, c)) ==> o in Tops(ChannelKids(family, 110, c))
  {
    hide ChannelTies, NestedForest, Twigs;
    var nested := if family.QLXD? then NestedForest(110, c) else Nil;
    HoldsPlus(g, Twigs(ChannelTies(family, 110, c)), nested);
    PlusTops(Twigs(ChannelTies(family, 110, c)), nested);
  }

  /** One nested block: its role, which of the three identifiers it has, and its workers. */
  datatype Inner = Inner(role: string, place: nat, configs: seq<WorkerConfig>)

  const INNER: seq<Inner> :=
    [Inner("AudioGain", 1, GAIN_WORKERS), Inner("Battery", 2, BATTERY_WORKERS),
     Inner("Transmitter", 3, TRANSMITTER_WORKERS)]

  /** With one QLX-D the nested blocks are found below the channel by these roles, the first, second and third from a
      thousand times its identifier, and their workers by name, numbered from ten times that place on. */
  lemma NestedFound(g: Graph, model: string, c: nat, i: nat, k: nat)
    requires Laid(g, SiteForest([model])) && 1 <= c <= MaxChannelsFromModel(model) && Qlxd(model)
    requires i < 3 && k < |INNER[i].configs|
    ensures ROOT in g && g[ROOT].Branch?
    ensures var d := Lookup(g, g[ROOT].items, ["Device", "Channel" + Itoa(c), INNER[i].role]);
            |d| == 1 && d[0].oid == (110 + c) * 1000 + INNER[i].place
    ensures var config := INNER[i].configs[k];
            var d := Lookup(g, g[ROOT].items, ["Device", "Channel" + Itoa(c), INNER[i].role, config.name]);
            |d| == 1 && d[0].oid == (110 + c) * 1000 + 10 * INNER[i].place + k &&
            d[0].classId == [1, 2, 1, config.classNumber]
  {
    hide DetectModelFamily, MaxChannelsFromModel, ChannelWorkersConfig, SiteForest, Laid, Lookup, Spells, NestedForest;
    var start := ["Device", "Channel" + Itoa(c)];
    ChannelPath(g, model, c);
    KidsAt(g, QLXD, c);
    var ties := InnerAt(g, c, i);
    var inner, tie := (110 + c) * 1000 + INNER[i].place, ties[k];
    Deeper(g, g[ROOT].items, [110, 110 + c], start, inner);
    FoundAt(g, model, [110, 110 + c] + [inner], start + [INNER[i].role]);
    assert start + [INNER[i].role] == ["Device", "Channel" + Itoa(c), INNER[i].role];
    TwigTop(ties, k);
    TwigsFiled(g, ties, tie);
    Deeper(g, g[ROOT].items, [110, 110 + c] + [inner], start + [INNER[i].role], tie.oid);
    FoundAt(g, model, [110, 110 + c] + [inner] + [tie.oid], start + [INNER[i].role] + [tie.config.name]);
    assert start + [INNER[i].role] + [tie.config.name] ==
           ["Device", "Channel" + Itoa(c), INNER[i].role, tie.config.name];
  }

  /** A nested block in the object graph, and its workers' ties. */
  lemma InnerAt(g: Graph, c: nat, i: nat) returns (ties: seq<Tie>)
    requires Holds(g, NestedForest(110, c)) && i < 3
    ensures var inner := (110 + c) * 1000 + INNER[i].place;
            inner in Tops(NestedForest(110, c)) && inner in g && g[inner].Branch? &&
            g[inner].desc.oid == inner && g[inner].desc.role == INNER[i].role &&
            g[inner].items == Tops(Twigs(ties)) && Holds(g, Twigs(ties))
    ensures |ties| == |INNER[i].configs| && forall k :: 0 <= k < |ties| ==>
              ties[k].config == INNER[i].configs[k] && ties[k].oid == (110 + c) * 1000 + 10 * INNER[i].place + k
  {
    hide Twigs;
    var f := NestedForest(110, c);
    assert Holds(g, f.rest);
    assert Holds(g, f.rest.rest);
    assert Tops(f.rest.rest) == [f.rest.rest.desc.oid] + Tops(Nil);
    assert Tops(f.rest) == [f.rest.desc.oid] + Tops(f.rest.rest);
    assert Tops(f) == [f.desc.oid] + Tops(f.rest);
    ties := if i == 0 then GainTies(110, c) else if i == 1 then BatteryTies(110, c) else TransmitterTies(110, c);
  }
}
