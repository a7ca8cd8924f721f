/** What registering control objects does to the object graph, up to a whole receiver. */
module Growth {
  import opened Text
  import opened BlockGraph
  import opened RolePaths
  import opened Forests
  import opened ShureModels
  import opened DeviceLayout
  import opened Collisions
  import opened Nca

  // ---------------------------------------------------------------- growing the object graph

  /** A graph grown by a forest, with a block's list now these items: the forest's members are filed and
      every other object is as it was. */
  ghost predicate GrewTo(g: Graph, g': Graph, b: int, f: Forest, items: seq<int>) {
    && b in g && g[b].Branch? && b !in Oids(f)
    && Holds(g', f)
    && (forall o :: o in g' <==> o in g || o in Oids(f))
    && g'[b] == Branch(g[b].desc, items)
    && forall o :: o in g && o != b && o !in Oids(f) ==> g'[o] == g[o]
  }

  /** A graph grown by a forest whose tops a block now lists last. */
  ghost predicate Grew(g: Graph, g': Graph, b: int, f: Forest) {
    b in g && g[b].Branch? && GrewTo(g, g', b, f, g[b].items + Tops(f))
  }

  lemma GrewNothing(g: Graph, b: int)
    requires b in g && g[b].Branch?
    ensures Grew(g, g, b, Nil)
  {
    assert g[b].items + [] == g[b].items;
  }

  /** One object filed, and listed by a block. */
  lemma GrewTwig(g: Graph, g1: Graph, g2: Graph, b: int, d: Descriptor, s: Option<Setter>)
    requires b in g && g[b].Branch? && d.oid != b && g1 == g[d.oid := Leaf(d, s)]
    requires g2 == g1[b := Branch(g[b].desc, g[b].items + [d.oid])]
    ensures Grew(g, g2, b, Twig(d, s, Nil))
  {
    TwigAlone(d, s);
  }

  lemma GrewLimb(g: Graph, g1: Graph, g2: Graph, b: int, d: Descriptor)
    requires b in g && g[b].Branch? && d.oid != b && g1 == g[d.oid := Branch(d, [])]
    requires g2 == g1[b := Branch(g[b].desc, g[b].items + [d.oid])]
    ensures Grew(g, g2, b, Limb(d, Nil, Nil))
  {
    LimbAlone(d, Nil);
  }

  lemma GrewAfter(g: Graph, g1: Graph, g2: Graph, b: int, f1: Forest, f2: Forest)
    requires Grew(g, g1, b, f1) && Grew(g1, g2, b, f2)
    requires forall x :: x in Oids(f1) && x in Oids(f2) ==> false
    ensures Grew(g, g2, b, Plus(f1, f2))
  {
    hide Holds, Oids, Tops;
    PlusOids(f1, f2);
    PlusTops(f1, f2);
    HoldsKept(g1, g2, f1);
    HoldsPlus(g2, f1, f2);
    assert g[b].items + Tops(f1) + Tops(f2) == g[b].items + (Tops(f1) + Tops(f2));
  }

  lemma GrewInside(g: Graph, g1: Graph, g2: Graph, b: int, d: Descriptor, kids: Forest, f: Forest)
    requires Grew(g, g1, b, Limb(d, kids, Nil)) && Grew(g1, g2, d.oid, f)
    requires b !in Oids(f) && d.oid !in Oids(kids)
    requires forall x :: x in Oids(kids) && x in Oids(f) ==> false
    ensures Grew(g, g2, b, Limb(d, Plus(kids, f), Nil))
  {
    hide Oids, Tops, Holds;
    LimbAlone(d, kids);
    LimbAlone(d, Plus(kids, f));
    PlusOids(kids, f);
    PlusTops(kids, f);
    LimbHolds(g1, d, kids);
    LimbHolds(g2, d, Plus(kids, f));
    HoldsKept(g1, g2, kids);
    HoldsPlus(g2, kids, f);
    assert forall x :: x in Oids(Limb(d, kids, Nil)) <==> x == d.oid || x in Oids(kids);
    assert forall x :: x in Oids(Limb(d, Plus(kids, f), Nil)) <==> x == d.oid || x in Oids(kids) || x in Oids(f);
  }

  lemma GrewThree(g: Graph, g1: Graph, g2: Graph, g3: Graph, b: int, f1: Forest, f2: Forest, f3: Forest, f: Forest)
    requires Grew(g, g1, b, f1) && Grew(g1, g2, b, f2) && Grew(g2, g3, b, f3) && f == Plus(Plus(f1, f2), f3)
    requires NoRepeat(Oids(f))
    ensures Grew(g, g3, b, f)
  {
    hide Grew, Oids;
    PlusApart(Plus(f1, f2), f3);
    PlusApart(f1, f2);
    GrewAfter(g, g1, g2, b, f1, f2);
    GrewAfter(g, g2, g3, b, Plus(f1, f2), f3);
  }

  lemma PlusApart(a: Forest, b: Forest)
    requires NoRepeat(Oids(Plus(a, b)))
    ensures NoRepeat(Oids(a)) && NoRepeat(Oids(b))
    ensures forall x :: x in Oids(a) && x in Oids(b) ==> false
  {
    PlusOids(a, b);
    NoRepeatSum(Oids(a), Oids(b));
    forall x | x in Oids(a) && x in Oids(b)
      ensures false
    {
      ApartMember(Oids(a), Oids(b), x);
    }
  }

  lemma LimbHolds(g: Graph, d: Descriptor, kids: Forest)
    ensures Holds(g, Limb(d, kids, Nil)) <==> d.oid in g && g[d.oid] == Branch(d, Tops(kids)) && Holds(g, kids)
  {
  }

  /** The graph holds the forest and nothing else. */
  ghost predicate Laid(g: Graph, f: Forest) {
    Holds(g, f) && forall o :: o in g ==> o in Oids(f)
  }

  lemma SiteStart(g: Graph, g1: Graph, g2: Graph)
    requires g == map[ROOT := Branch(ROOT_DESC, [])]
    requires Grew(g, g1, ROOT, Twig(MANAGERS.desc, None, Nil)) && Grew(g1, g2, ROOT, MANAGERS.rest)
    ensures Laid(g2, SiteForest([]))
  {
    SiteParts([]);
  }

  /** Every object registered outside the forest is still the same one. */
  ghost predicate Kept(was: map<int, Member>, now: map<int, Member>, f: Forest) {
    forall o :: o in was && o !in Oids(f) ==> o in now && now[o] == was[o]
  }

  lemma KeptAfter(m: map<int, Member>, m1: map<int, Member>, m2: map<int, Member>, f1: Forest, f2: Forest, f: Forest)
    requires Kept(m, m1, f1) && Kept(m1, m2, f2)
    requires forall x :: x in Oids(f1) || x in Oids(f2) ==> x in Oids(f)
    ensures Kept(m, m2, f)
  {
  }

  lemma {:induction false} TwigsSnoc(ties: seq<Tie>, tie: Tie)
    ensures Twigs(ties + [tie]) == Plus(Twigs(ties), Twig(tie.Desc(), tie.Setter(), Nil))
  {
    if ties != [] {
      assert (ties + [tie])[1..] == ties[1..] + [tie];
      TwigsSnoc(ties[1..], tie);
    }
  }

  lemma TwigAlone(d: Descriptor, s: Option<Setter>)
    ensures Oids(Twig(d, s, Nil)) == [d.oid] && Tops(Twig(d, s, Nil)) == [d.oid]
  {
  }

  /** Of distinct ties, the next one is new. */
  lemma NextTie(ties: seq<Tie>, done: seq<Tie>, tie: Tie)
    requires done + [tie] <= ties && NoRepeat(Oids(Twigs(ties)))
    ensures tie.oid in Oids(Twigs(ties)) && tie.oid !in Oids(Twigs(done))
  {
    hide Twigs, Oids;
    TwigOids(ties);
    TwigOids(done);
    assert TieOids(ties)[|done|] == tie.oid;
    assert forall i :: 0 <= i < |done| ==> TieOids(done)[i] == TieOids(ties)[i];
  }

  lemma SnocOids(done: seq<Tie>, tie: Tie)
    ensures Tops(Twigs(done + [tie])) == Tops(Twigs(done)) + [tie.oid] && Tops(Twigs(done)) == Oids(Twigs(done))
  {
    hide Twigs, Oids, Tops;
    TwigOids(done);
    TwigOids(done + [tie]);
    assert TieOids(done + [tie]) == TieOids(done) + [tie.oid];
  }

  lemma FileStep(g: Graph, g1: Graph, g2: Graph, b: int, done: seq<Tie>, tie: Tie)
    requires tie.oid !in Oids(Twigs(done))
    requires Grew(g, g1, b, Twigs(done)) && Grew(g1, g2, b, Twig(tie.Desc(), tie.Setter(), Nil))
    ensures Grew(g, g2, b, Twigs(done + [tie]))
  {
    hide Grew, Twigs, Oids;
    TwigsSnoc(done, tie);
    TwigAlone(tie.Desc(), tie.Setter());
    GrewAfter(g, g1, g2, b, Twigs(done), Twig(tie.Desc(), tie.Setter(), Nil));
  }

  lemma NoTies()
    ensures Twigs([]) == Nil && Tops(Nil) == [] && Oids(Nil) == []
  {
  }

  function GainForest(device: int, c: nat): Forest {
    Limb(BlockDesc((device + c) * 1000 + 1, "AudioGain", "Ch" + Itoa(c) + " AudioGain"),
         Twigs(GainTies(device, c)), Nil)
  }

  function BatteryForest(device: int, c: nat): Forest {
    Limb(BlockDesc((device + c) * 1000 + 2, "Battery", "Ch" + Itoa(c) + " Battery"),
         Twigs(BatteryTies(device, c)), Nil)
  }

  function TransmitterForest(device: int, c: nat): Forest {
    Limb(BlockDesc((device + c) * 1000 + 3, "Transmitter", "Ch" + Itoa(c) + " Transmitter"),
         Twigs(TransmitterTies(device, c)), Nil)
  }

  lemma NestedIsThree(device: int, c: nat)
    ensures NestedForest(device, c) ==
            Plus(Plus(GainForest(device, c), BatteryForest(device, c)), TransmitterForest(device, c))
  {
    hide Twigs;
    var a, b, t := GainForest(device, c), BatteryForest(device, c), TransmitterForest(device, c);
    assert Plus(a, b) == Limb(a.desc, a.kids, b);
    assert Plus(Plus(a, b), t) == Limb(a.desc, a.kids, Plus(b, t));
  }

  lemma NestedGrew(g: Graph, g1: Graph, g2: Graph, g3: Graph, device: int, c: nat)
    requires Grew(g, g1, device + c, GainForest(device, c)) && Grew(g1, g2, device + c, BatteryForest(device, c))
    requires Grew(g2, g3, device + c, TransmitterForest(device, c))
    ensures Grew(g, g3, device + c, NestedForest(device, c))
  {
    hide Grew, GainForest, BatteryForest, TransmitterForest, NestedForest;
    NestedOids(device, c);
    NestedIsThree(device, c);
    GrewThree(g, g1, g2, g3, device + c, GainForest(device, c), BatteryForest(device, c), TransmitterForest(device, c),
              NestedForest(device, c));
  }

  lemma NestedKept(m: map<int, Member>, m1: map<int, Member>, m2: map<int, Member>, m3: map<int, Member>,
                   device: int, c: nat)
    requires Kept(m, m1, GainForest(device, c)) && Kept(m1, m2, BatteryForest(device, c))
    requires Kept(m2, m3, TransmitterForest(device, c))
    ensures Kept(m, m3, NestedForest(device, c))
  {
    hide Kept, GainForest, BatteryForest, TransmitterForest, NestedForest, Oids;
    NestedIsThree(device, c);
    PlusOids(Plus(GainForest(device, c), BatteryForest(device, c)), TransmitterForest(device, c));
    PlusOids(GainForest(device, c), BatteryForest(device, c));
    KeptAfter(m, m1, m2, GainForest(device, c), BatteryForest(device, c), NestedForest(device, c));
    KeptAfter(m, m2, m3, NestedForest(device, c), TransmitterForest(device, c), NestedForest(device, c));
  }

  /** A channel block with its workers, then its nested blocks. */
  lemma ChannelGrew(g: Graph, g1: Graph, g2: Graph, family: Family, device: int, c: nat)
    requires 110 <= device && 1 <= c <= 4
    requires Grew(g, g1, device, Limb(ChannelDesc(device, c), Twigs(ChannelTies(family, device, c)), Nil))
    requires if family.QLXD? then Grew(g1, g2, device + c, NestedForest(device, c)) else g1 == g2
    ensures Grew(g, g2, device, ChannelForest(family, device, c))
  {
    hide Grew, NestedForest, Twigs, Oids, ChannelTies, NoRepeat, ChannelOwns;
    var d, workers, f := ChannelDesc(device, c), Twigs(ChannelTies(family, device, c)), ChannelForest(family,
        device, c);
    if family.QLXD? {
      ChannelOids(family, device, c);
      LimbAlone(d, f.kids);
      PlusOids(workers, NestedForest(device, c));
      assert forall x :: x in Oids(f) <==> x == d.oid || x in Oids(workers) || x in Oids(NestedForest(device, c));
      DeviceNotInChannel(family, device, c);
      DistinctParts(f);
      PlusApart(workers, NestedForest(device, c));
      GrewInside(g, g1, g2, device, d, workers, NestedForest(device, c));
    } else {
      PlusNil(workers);
    }
  }

  lemma {:induction false} PlusNil(f: Forest)
    ensures Plus(f, Nil) == f
  {
    if !f.Nil? {
      PlusNil(f.rest);
    }
  }

  lemma ChannelKept(m: map<int, Member>, m1: map<int, Member>, m2: map<int, Member>, family: Family,
                    device: int, c: nat)
    requires 110 <= device && 1 <= c <= 4
    requires Kept(m, m1, Limb(ChannelDesc(device, c), Twigs(ChannelTies(family, device, c)), Nil))
    requires if family.QLXD? then Kept(m1, m2, NestedForest(device, c)) else m1 == m2
    ensures Kept(m, m2, ChannelForest(family, device, c))
    ensures device in m && device in m1 && m1[device] == m[device] ==> device in m2 && m2[device] == m[device]
  {
    hide NestedForest, Twigs, Oids, ChannelTies;
    var d, workers, f := ChannelDesc(device, c), Twigs(ChannelTies(family, device, c)), ChannelForest(family,
        device, c);
    LimbAlone(d, f.kids);
    LimbAlone(d, workers);
    NestedOids(device, c);
    if family.QLXD? {
      PlusOids(workers, NestedForest(device, c));
      KeptAfter(m, m1, m2, Limb(d, workers, Nil), NestedForest(device, c), f);
    } else {
      PlusNil(workers);
    }
  }

  /** A device block filed, filled, and listed by the root. */
  lemma DeviceGrew(g: Graph, g1: Graph, g2: Graph, g3: Graph, index: nat, model: string, items: seq<int>)
    requires index >= 1 && ROOT in g && g[ROOT].Branch?
    requires var d := BlockDesc(DeviceOid(index), "Device", model);
             g1 == g[d.oid := Branch(d, [])] &&
             Grew(g1, g2, d.oid, DeviceKids(DetectModelFamily(model), d.oid, MaxChannelsFromModel(model)))
    requires ROOT in g2 ==> g3 == g2[ROOT := Branch(g2[ROOT].desc, items)]
    ensures GrewTo(g, g3, ROOT, DeviceForest(index, model), items)
  {
    hide DeviceForest, Oids, Tops, NoRepeat, Owns;
    var f := DeviceForest(index, model);
    DeviceParts(index, model);
    DeviceOids(index, model);
    DistinctParts(f);
    LimbAlone(f.desc, f.kids);
    RootOwnsNothing(index, model);
    LimbHolds(g2, f.desc, f.kids);
    assert [] + Tops(f.kids) == Tops(f.kids);
    HoldsKept(g2, g3, f);
  }

  lemma DeviceParts(index: nat, model: string)
    ensures var f := DeviceForest(index, model);
            f == Limb(BlockDesc(DeviceOid(index), "Device", model), f.kids, Nil) &&
            f.kids == DeviceKids(DetectModelFamily(model), DeviceOid(index), MaxChannelsFromModel(model))
  {
  }

  lemma RootOwnsNothing(index: nat, model: string)
    ensures !Owns(index, model, ROOT) && !Owns(index, model, DEVICE_MANAGER) && !Owns(index, model, CLASS_MANAGER)
  {
    forall x | Owns(index, model, x)
      ensures x >= 100
    {
      AboveReserved(index, model, x);
    }
  }

  /** One more channel in a device block. */
  lemma OneMoreChannel(g: Graph, g1: Graph, g2: Graph, family: Family, device: int, n: nat)
    requires 110 <= device && n < 4
    requires Grew(g, g1, device, DeviceKids(family, device, n))
    requires Grew(g1, g2, device, ChannelForest(family, device, n + 1))
    ensures Grew(g, g2, device, DeviceKids(family, device, n + 1))
    ensures Oids(DeviceKids(family, device, n + 1)) ==
            Oids(DeviceKids(family, device, n)) + Oids(ChannelForest(family, device, n + 1))
  {
    hide Grew, Oids, ChannelForest, ChannelForests, Twigs, ChannelOwns;
    var workers, before, here := Twigs(DeviceTies(family, device)), ChannelForests(family, device, n),
        ChannelForest(family, device, n + 1);
    ChannelsStep(family, device, n);
    PlusAssoc(workers, before, here);
    PlusOids(workers, before);
    PlusOids(Plus(workers, before), here);
    ChannelsOids(family, device, n);
    ChannelOids(family, device, n + 1);
    forall x | x in Oids(Plus(workers, before)) && x in Oids(here)
      ensures false
    {
      ChannelAboveDevice(family, device, n + 1, x);
      if x in Oids(workers) {
        NoTwigs();
        NilOids();
        RunOids(WholeDevice, DEVICE_WORKERS, device * 100, x);
      } else {
        var c :| 1 <= c <= n && ChannelOwns(family, device, c, x);
        ChannelsApart(family, device, c, n + 1, x);
      }
    }
    GrewAfter(g, g1, g2, device, Plus(workers, before), here);
  }

  /** The next channel's block is not listed yet. */
  lemma NextChannelNew(family: Family, device: int, n: nat)
    requires 110 <= device && n < 4
    ensures device + n + 1 !in Tops(DeviceKids(family, device, n))
    ensures Tops(DeviceKids(family, device, n + 1)) == Tops(DeviceKids(family, device, n)) + [device + n + 1]
  {
    hide Oids, Tops, ChannelForest, ChannelForests, Twigs, ChannelOwns;
    var workers, before, here := Twigs(DeviceTies(family, device)), ChannelForests(family, device, n),
        ChannelForest(family, device, n + 1);
    ChannelsStep(family, device, n);
    PlusAssoc(workers, before, here);
    PlusTops(workers, before);
    PlusTops(Plus(workers, before), here);
    ChannelTop(family, device, n + 1);
    var x := device + n + 1;
    if x in Tops(workers) {
      TopsInOids(workers, x);
      NoTwigs();
      NilOids();
      RunOids(WholeDevice, DEVICE_WORKERS, device * 100, x);
    }
    if x in Tops(before) {
      TopsInOids(before, x);
      ChannelsOids(family, device, n);
      var c :| 1 <= c <= n && ChannelOwns(family, device, c, x);
      OwnChannel(family, device, n + 1);
      ChannelsApart(family, device, c, n + 1, x);
    }
  }

  lemma ChannelTop(family: Family, device: int, c: nat)
    ensures Tops(ChannelForest(family, device, c)) == [device + c]
  {
    LimbAlone(ChannelDesc(device, c), ChannelKids(family, device, c));
  }

  lemma OwnChannel(family: Family, device: int, c: nat)
    ensures ChannelOwns(family, device, c, device + c)
  {
  }

  /** The block identifiers of channels 1 to `n`. */
  function ChannelMap(device: int, n: nat): map<int, int> {
    if n == 0 then map[] else ChannelMap(device, n - 1)[n := device + n]
  }

  /** The map has exactly the receiver's channels, each with its block's identifier. */
  lemma {:induction false} ChannelMapIs(device: int, n: nat, c: int)
    ensures c in ChannelMap(device, n) <==> 1 <= c <= n
    ensures c in ChannelMap(device, n) ==> ChannelMap(device, n)[c] == device + c == ChannelDesc(device, c).oid
  {
    if n > 0 {
      ChannelMapIs(device, n - 1, c);
    }
  }

  lemma ChannelsStep(family: Family, device: int, n: nat)
    ensures ChannelForests(family, device, n + 1) ==
            Plus(ChannelForests(family, device, n), ChannelForest(family, device, n + 1))
  {
  }

  lemma {:induction false} PlusAssoc(a: Forest, b: Forest, c: Forest)
    ensures Plus(Plus(a, b), c) == Plus(a, Plus(b, c))
  {
    if !a.Nil? {
      PlusAssoc(a.rest, b, c);
    }
  }

  lemma RootKept(m: map<int, Member>, m': map<int, Member>, family: Family, device: int, c: nat)
    requires 110 <= device && 1 <= c <= 4 && Kept(m, m', ChannelForest(family, device, c)) && ROOT in m
    ensures ROOT in m' && m'[ROOT] == m[ROOT]
  {
    hide ChannelForest, Oids;
    ChannelOids(family, device, c);
  }

  lemma DeviceNotInChannel(family: Family, device: int, c: nat)
    requires 110 <= device && 1 <= c <= 4
    ensures !ChannelOwns(family, device, c, device)
  {
  }

  lemma LimbGrows(g: Graph, g': Graph, d: Descriptor, kids: Forest, f: Forest)
    requires Laid(g, Limb(d, kids, Nil)) && NoRepeat(Oids(Limb(d, Plus(kids, f), Nil)))
    requires GrewTo(g, g', d.oid, f, Tops(kids) + Tops(f))
    ensures Laid(g', Limb(d, Plus(kids, f), Nil))
  {
    hide Oids, Tops, NoRepeat, Holds;
    LimbAlone(d, kids);
    LimbAlone(d, Plus(kids, f));
    LimbHolds(g, d, kids);
    LimbHolds(g', d, Plus(kids, f));
    PlusOids(kids, f);
    PlusTops(kids, f);
    DistinctParts(Limb(d, Plus(kids, f), Nil));
    PlusApart(kids, f);
    forall x | x in Oids(kids)
      ensures x in g' && (x in g ==> g'[x] == g[x])
    {
      HeldIsKnown(g, kids, x);
    }
    HoldsKept(g, g', kids);
    HoldsPlus(g', kids, f);
    assert forall x :: x in Oids(Limb(d, kids, Nil)) <==> x == d.oid || x in Oids(kids);
    assert forall x :: x in Oids(Limb(d, Plus(kids, f), Nil)) <==> x == d.oid || x in Oids(kids) || x in Oids(f);
  }

  /** Adding a receiver where no place clashes leaves exactly the larger layout. */
  lemma SiteGrows(g: Graph, g': Graph, models: seq<string>, model: string, items: seq<int>)
    requires ClashFree(models + [model]) && Laid(g, SiteForest(models)) && ROOT in g && g[ROOT].Branch?
    requires GrewTo(g, g', ROOT, DeviceForest(|models| + 1, model), items)
    requires items == if DeviceOid(|models| + 1) in g[ROOT].items then g[ROOT].items
                      else g[ROOT].items + [DeviceOid(|models| + 1)]
    ensures Laid(g', SiteForest(models + [model]))
  {
    hide DeviceForests, DeviceForest, Oids, Tops, NoRepeat, ClashFree, GrewTo, SiteKids;
    var all, f := models + [model], DeviceForest(|models| + 1, model);
    AllDistinctIffClashFree(all);
    SiteStep(models, model);
    DistinctParts(SiteForest(all));
    PlusApart(SiteKids(models), f);
    DeviceParts(|models| + 1, model);
    LimbAlone(f.desc, f.kids);
    assert f.desc.oid in Oids(f);
    if f.desc.oid in Tops(SiteKids(models)) {
      TopsInOids(SiteKids(models), f.desc.oid);
    }
    LimbHolds(g, ROOT_DESC, SiteKids(models));
    LimbGrows(g, g', ROOT_DESC, SiteKids(models), f);
  }

  lemma SiteStep(models: seq<string>, model: string)
    ensures SiteKids(models + [model]) == Plus(SiteKids(models), DeviceForest(|models| + 1, model))
  {
    hide DeviceForest, Plus;
    assert (models + [model])[..|models|] == models;
    PlusAssoc(MANAGERS, DeviceForests(models), DeviceForest(|models| + 1, model));
  }

  lemma ClashFreePrefix(models: seq<string>, model: string)
    requires ClashFree(models + [model])
    ensures ClashFree(models)
  {
    hide Clash;
    var all := models + [model];
    assert forall k :: 0 <= k < |models| ==> all[k] == models[k];
  }
}
