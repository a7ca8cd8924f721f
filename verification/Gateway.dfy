/** The gateway's receivers, the control objects it registers for them, and the reports it routes to them. */
module Gateway {
  import opened Text
  import opened BlockGraph
  import opened RolePaths
  import opened Forests
  import opened ShureModels
  import opened DeviceLayout
  import opened Collisions
  import opened Routing
  import Wiring
  import opened Nca
  import opened Growth
  import opened Liveness
  import opened Site

  /** What the gateway remembers of a connected receiver: its place, the family it takes it for now, the model
      it was discovered as, its routing tables, and when its last announcement came. */
  datatype DeviceInfo = DeviceInfo(index: nat, deviceOid: int, family: Family, model: string,
                                   parameterOids: map<string, int>, channelOids: map<int, int>, lastSeen: nat)

  /** The workers made for these ties, one each. */
  ghost predicate Made(workers: seq<Worker>, ties: seq<Tie>)
    reads workers
  {
    |workers| == |ties| && forall k :: 0 <= k < |ties| ==>
      workers[k].oid == ties[k].oid && workers[k].GetDescriptor() == ties[k].Desc() &&
      workers[k].setter == ties[k].Setter()
  }

  /** The worker of one tie; only the settable ones get a setter. */
  method CreateWorker(tie: Tie) returns (worker: Worker)
    ensures fresh(worker) && worker.oid == tie.oid
    ensures worker.GetDescriptor() == tie.Desc() && worker.setter == tie.Setter()
  {
    var setter := None;
    if !tie.config.readOnly {
      setter := Some(Setter(if tie.scope.WholeDevice? then None else Some(tie.scope.channel as int), tie.config.param));
    }
    worker := new Worker(tie.oid, tie.config.ClassId(), None, tie.config.name, tie.scope.Label(tie.config.name),
                         setter);
  }

  lemma NoneMade()
    ensures Made([], []) && Routes([]) == map[]
  {
  }

  lemma OneMoreRoute(ties: seq<Tie>, tie: Tie)
    ensures Routes(ties + [tie]) == Routes(ties)[tie.Key() := tie.oid]
  {
    assert (ties + [tie])[..|ties|] == ties;
  }

  lemma MadeMore(workers: seq<Worker>, ties: seq<Tie>, worker: Worker, tie: Tie)
    requires Made(workers, ties) && worker.oid == tie.oid
    requires worker.GetDescriptor() == tie.Desc() && worker.setter == tie.Setter()
    ensures Made(workers + [worker], ties + [tie])
  {
    hide Tie.Desc, Tie.Setter, Worker.GetDescriptor;
  }

  /** One worker per table entry, numbered from the base, and the keys their reports are routed by. */
  method CreateWorkers(scope: Scope, configs: seq<WorkerConfig>, base: int)
    returns (workers: seq<Worker>, paramOids: map<string, int>)
    ensures Made(workers, Ties(scope, configs, base)) && fresh(workers)
    ensures paramOids == Routes(Ties(scope, configs, base))
  {
    hide Tie.Desc, Tie.Setter, Tie.Key, Worker.GetDescriptor, Made, Routes;
    workers, paramOids := [], map[];
    ghost var ties := Ties(scope, configs, base);
    NoneMade();
    for k := 0 to |configs|
      invariant Made(workers, ties[..k]) && fresh(workers)
      invariant paramOids == Routes(ties[..k])
    {
      var tie := Tie(base + k, scope, configs[k]);
      var worker := CreateWorker(tie);
      assert ties[..k + 1] == ties[..k] + [tie];
      OneMoreRoute(ties[..k], tie);
      paramOids := paramOids[tie.Key() := tie.oid];
      MadeMore(workers, ties[..k], worker, tie);
      workers := workers + [worker];
    }
    assert ties[..|configs|] == ties;
  }

  /** What is remembered of a receiver added at a place. */
  function InfoOf(index: nat, model: string, now: nat): DeviceInfo {
    var family, n := DetectModelFamily(model), MaxChannelsFromModel(model);
    DeviceInfo(index, DeviceOid(index), family, model, Routes(AllTies(family, DeviceOid(index), n)),
               ChannelMap(DeviceOid(index), n), now)
  }

  /** The routing key for a channel's group, by the model's name: under one name for all models but those that
      start with SLXD or, starting like no other family, have a plus in them; under the other name for those. */
  lemma GroupKeys(index: nat, model: string, now: nat, c: int)
    ensures var other := (StartsUpToCase(model, "SLXD") && '+' !in model) ||
                         ('+' in model && !StartsUpToCase(model, "AD") && !StartsUpToCase(model, "ULXD") &&
                          !StartsUpToCase(model, "QLXD"));
            var keys := InfoOf(index, model, now).parameterOids;
            (Itoa(c) + "_GROUP_CHAN" in keys <==> 1 <= c <= MaxChannelsFromModel(model) && !other) &&
            (Itoa(c) + "_GROUP_CHANNEL" in keys <==> 1 <= c <= MaxChannelsFromModel(model) && other)
  {
    hide DetectModelFamily, MaxChannelsFromModel, Routes, AllTies, PerChannel, StartsUpToCase, Wiring.Has;
    var family, n := DetectModelFamily(model), MaxChannelsFromModel(model);
    FamilyIff(model);
    Wiring.GroupIff(family);
    Wiring.ChannelKeyIff(family, DeviceOid(index), n, c, "GROUP_CHAN");
    Wiring.ChannelKeyIff(family, DeviceOid(index), n, c, "GROUP_CHANNEL");
    KeyTexts(c);
  }

  lemma UlxdKeys(index: nat, model: string, now: nat)
    requires StartsUpToCase(model, "ULXD")
    ensures forall c :: 1 <= c <= MaxChannelsFromModel(model) ==>
              Itoa(c) + "_GROUP_CHAN" in InfoOf(index, model, now).parameterOids &&
              Itoa(c) + "_GROUP_CHANNEL" !in InfoOf(index, model, now).parameterOids
  {
    hide InfoOf, StartsUpToCase, MaxChannelsFromModel, DetectModelFamily;
    FamilyIff(model);
    forall c | 1 <= c <= MaxChannelsFromModel(model)
      ensures Itoa(c) + "_GROUP_CHAN" in InfoOf(index, model, now).parameterOids &&
              Itoa(c) + "_GROUP_CHANNEL" !in InfoOf(index, model, now).parameterOids
    {
      GroupKeys(index, model, now, c);
    }
  }

  lemma KeyTexts(c: int)
    ensures Itoa(c) + "_GROUP_CHAN" == Itoa(c) + "_" + "GROUP_CHAN"
    ensures Itoa(c) + "_GROUP_CHANNEL" == Itoa(c) + "_" + "GROUP_CHANNEL"
  {
    hide Itoa;
    assert "_GROUP_CHAN" == "_" + "GROUP_CHAN" && "_GROUP_CHANNEL" == "_" + "GROUP_CHANNEL";
  }

  /** Before any receiver the root has just the two managers. */
  lemma StartGraph(g: Graph)
    requires Laid(g, SiteForest([]))
    ensures g == map[1 := Branch(Descriptor("Root", 1, true, [1, 1], "Root Block", None), [2, 3]),
                     2 := Leaf(Descriptor("DeviceManager", 2, true, [1, 3, 1], "Device Manager", None), None),
                     3 := Leaf(Descriptor("ClassManager", 3, true, [1, 3, 2], "Class Manager", None), None)]
  {
    var f := SiteForest([]);
    assert f == Limb(ROOT_DESC, MANAGERS, Nil);
    ManagersAre(g);
    assert forall o :: o in Oids(f) <==> o in {1, 2, 3};
    forall o
      ensures o in g <==> o in {1, 2, 3}
    {
    }
  }

  lemma ManagersAre(g: Graph)
    ensures Oids(SiteForest([])) == [1, 2, 3] && Tops(MANAGERS) == [2, 3]
    ensures Holds(g, MANAGERS) ==>
              2 in g && g[2] == Leaf(Descriptor("DeviceManager", 2, true, [1, 3, 1], "Device Manager", None), None) &&
              3 in g && g[3] == Leaf(Descriptor("ClassManager", 3, true, [1, 3, 2], "Class Manager", None), None)
  {
    var second := MANAGERS.rest;
    assert second == Twig(Descriptor("ClassManager", 3, true, [1, 3, 2], "Class Manager", None), None, Nil);
    assert Oids(second) == [3] && Tops(second) == [3] && Oids(MANAGERS) == [2] + Oids(second);
    assert SiteForest([]) == Limb(ROOT_DESC, MANAGERS, Nil);
    assert Holds(g, MANAGERS) ==> Holds(g, second);
  }

  /** A record is still that of its place and model, whatever family the receiver is taken for since. */
  predicate Genuine(info: DeviceInfo) {
    info.(family := DetectModelFamily(info.model)) == InfoOf(info.index, info.model, info.lastSeen)
  }

  ghost predicate AllGenuine(infos: map<string, DeviceInfo>) {
    forall a :: a in infos ==> Genuine(infos[a])
  }

  /** While nothing was removed the places are 1 to the number of receivers, in the order they were added. */
  predicate InPlace(index: nat, model: string, models: seq<string>) {
    1 <= index <= |models| && models[index - 1] == model
  }

  ghost predicate AllInPlace(infos: map<string, DeviceInfo>, models: seq<string>) {
    |infos| == |models| && forall a :: a in infos ==> InPlace(infos[a].index, infos[a].model, models)
  }

  ghost predicate Recorded(infos: map<string, DeviceInfo>, models: seq<string>, reaped: bool) {
    AllGenuine(infos) && (!reaped ==> AllInPlace(infos, models))
  }

  lemma NewIsGenuine(index: nat, model: string, now: nat)
    ensures Genuine(InfoOf(index, model, now))
    ensures InfoOf(index, model, now).index == index && InfoOf(index, model, now).model == model
  {
  }

  lemma Size(infos: map<string, DeviceInfo>, addr: string, info: DeviceInfo)
    ensures |infos[addr := info]| == if addr in infos then |infos| else |infos| + 1
  {
    assert infos[addr := info].Keys == infos.Keys + {addr};
  }

  lemma CountInPlace(infos: map<string, DeviceInfo>, models: seq<string>, reaped: bool)
    requires Recorded(infos, models, reaped)
    ensures !reaped ==> |infos| == |models|
  {
  }

  lemma LaidMore(g: Graph, g': Graph, models: seq<string>, reaped: bool, index: nat, model: string, items: seq<int>)
    requires !reaped ==> index == |models| + 1
    requires !reaped && ClashFree(models) ==> Laid(g, SiteForest(models))
    requires GrewTo(g, g', ROOT, DeviceForest(index, model), items) && ROOT in g && g[ROOT].Branch?
    requires items == if DeviceOid(index) in g[ROOT].items then g[ROOT].items else g[ROOT].items + [DeviceOid(index)]
    ensures !reaped && ClashFree(models + [model]) ==> Laid(g', SiteForest(models + [model]))
  {
    hide GrewTo, Laid, ClashFree, DeviceForest, SiteForest;
    if !reaped && ClashFree(models + [model]) {
      ClashFreePrefix(models, model);
      SiteGrows(g, g', models, model, items);
    }
  }

  lemma StillInPlace(index: nat, model: string, models: seq<string>, more: string)
    ensures InPlace(index, model, models) ==> InPlace(index, model, models + [more])
    ensures InPlace(|models| + 1, more, models + [more])
  {
  }

  lemma MoreInPlace(infos: map<string, DeviceInfo>, models: seq<string>, addr: string, info: DeviceInfo)
    requires AllInPlace(infos, models) && addr !in infos && info.index == |infos| + 1
    ensures AllInPlace(infos[addr := info], models + [info.model])
  {
    hide InPlace;
    Size(infos, addr, info);
    var more := infos[addr := info];
    forall a | a in more
      ensures InPlace(more[a].index, more[a].model, models + [info.model])
    {
      StillInPlace(more[a].index, more[a].model, models, info.model);
    }
  }

  lemma RecordedMore(infos: map<string, DeviceInfo>, models: seq<string>, reaped: bool, addr: string, info: DeviceInfo)
    requires Recorded(infos, models, reaped) && addr !in infos && Genuine(info) && info.index == |infos| + 1
    ensures Recorded(infos[addr := info], models + [info.model], reaped)
  {
    hide Genuine, AllInPlace;
    if !reaped {
      MoreInPlace(infos, models, addr, info);
    }
  }

  /** Noting something else about a receiver keeps its record genuine and in place. */
  lemma RecordedNoted(infos: map<string, DeviceInfo>, models: seq<string>, reaped: bool, addr: string, info: DeviceInfo)
    requires Recorded(infos, models, reaped) && addr in infos && Genuine(info)
    requires info.index == infos[addr].index && info.model == infos[addr].model
    ensures Recorded(infos[addr := info], models, reaped)
  {
    hide Genuine, InPlace;
    Size(infos, addr, info);
  }

  lemma NotedIsGenuine(info: DeviceInfo, family: Family, now: nat)
    requires Genuine(info)
    ensures Genuine(info.(family := family)) && Genuine(info.(lastSeen := now))
  {
  }

  /** All workers of a receiver. */
  function TiesOf(info: DeviceInfo): seq<Tie> {
    AllTies(DetectModelFamily(info.model), info.deviceOid, MaxChannelsFromModel(info.model))
  }

  /** The receivers whose last announcement is too long ago. */
  function StaleAt(infos: map<string, DeviceInfo>, now: nat): set<string> {
    set a | a in infos && now - infos[a].lastSeen > PATIENCE
  }

  ghost predicate Meet(a: set<string>, b: set<string>) {
    exists x :: x in a && x in b
  }

  lemma NoneMeet(stale: set<string>, known: set<string>)
    ensures !Meet(stale - stale, known)
  {
  }

  lemma MeetMore(stale: set<string>, left: set<string>, addr: string, known: set<string>)
    requires left <= stale && addr in left
    ensures Meet(stale - (left - {addr}), known) <==> Meet(stale - left, known) || addr in known
  {
    assert stale - (left - {addr}) == (stale - left) + {addr};
  }

  lemma OneFewer(infos: map<string, DeviceInfo>, stale: set<string>, left: set<string>, addr: string)
    requires left <= stale && addr in left
    ensures infos - (stale - left) - {addr} == infos - (stale - (left - {addr}))
  {
  }

  lemma FewerRecorded(infos: map<string, DeviceInfo>, models: seq<string>, reaped: bool, addr: string)
    requires addr in infos && Recorded(infos, models, reaped)
    ensures |infos - {addr}| == |infos| - 1 && Recorded(infos - {addr}, models, true)
  {
    hide Genuine, AllInPlace;
    assert (infos - {addr}).Keys == infos.Keys - {addr};
  }

  class Gateway {
    const registry: Registry
    const root: Block
    var shureCtrls: map<string, DeviceInfo>
    /** The models and places of the receivers ever added, in order, the highest place, and whether one was
        removed since. */
    ghost var models: seq<string>
    ghost var places: seq<nat>
    ghost var highest: nat
    ghost var reaped: bool

    ghost predicate Filed(b: Block)
      reads registry
    {
      b.oid in registry.objects && registry.objects[b.oid] == BlockMember(b)
    }

    /** In every run: what each receiver ever added owns stays registered, and nothing else is. While nothing
        was removed and places do not clash, the registered objects are exactly the layout's. */
    ghost predicate Valid()
      reads this, registry, registry.parts
    {
      && registry.Valid() && this !in registry.parts && root.oid == ROOT && Filed(root)
      && History(registry.GraphOf())
    }

    /** What the gateway remembers, compared with an object graph. */
    ghost predicate History(g: Graph)
      reads this
    {
      && Recorded(shureCtrls, models, reaped)
      && |shureCtrls| <= highest && (!reaped ==> highest == |models|)
      && |places| == |models| && HandedOut(places, highest) && OnlyOwned(g, places, models)
      && (!reaped && ClashFree(models) ==> Laid(g, SiteForest(models)))
    }

    constructor (direct: bool)
      ensures Valid() && !reaped && models == [] && highest == 0 && shureCtrls == map[] && registry.direct == direct
      ensures fresh(registry) && fresh(registry.parts) && fresh(root)
      ensures registry.GraphOf() == map[
                1 := Branch(Descriptor("Root", 1, true, [1, 1], "Root Block", None), [2, 3]),
                2 := Leaf(Descriptor("DeviceManager", 2, true, [1, 3, 1], "Device Manager", None), None),
                3 := Leaf(Descriptor("ClassManager", 3, true, [1, 3, 2], "Class Manager", None), None)]
    {
      hide Recorded, OnlyOwned, HandedOut, Laid, ClashFree, SiteForest;
      registry := new Registry(direct);
      root := new Block(ROOT, None, "Root", "Root Block");
      shureCtrls, models, places, highest, reaped := map[], [], [], 0, false;
      new;
      InstallRoot();
      RegisteredStart(registry.GraphOf());
      StartGraph(registry.GraphOf());
      StartHistory(registry.GraphOf());
    }

    lemma StartHistory(g: Graph)
      requires Laid(g, SiteForest([])) && OnlyOwned(g, [], []) && shureCtrls == map[] && models == [] && places == []
      requires highest == 0 && !reaped
      ensures History(g)
    {
      hide Laid, OnlyOwned;
    }

    /** Registers the root block and the two managers in it. */
    method InstallRoot()
      requires registry.objects == map[] && registry.parts == {}
      requires root.oid == ROOT && root.items == [] && root.GetDescriptor() == ROOT_DESC
      modifies registry, root
      ensures registry.Valid() && fresh(registry.parts - {root}) && Filed(root)
      ensures Laid(registry.GraphOf(), SiteForest([]))
    {
      hide Grew, Laid, SiteForest;
      registry.Register(BlockMember(root));
      ghost var g := registry.GraphOf();
      assert g == map[ROOT := Branch(ROOT_DESC, [])];
      var deviceManager := new Manager(DEVICE_MANAGER, [1, 3, 1], "DeviceManager", "Device Manager", true);
      AddMember(root, ManagerMember(deviceManager));
      ghost var g1 := registry.GraphOf();
      var classManager := new Manager(CLASS_MANAGER, [1, 3, 2], "ClassManager", "Class Manager", false);
      AddMember(root, ManagerMember(classManager));
      SiteStart(g, g1, registry.GraphOf());
    }

    /** Adds an identifier to a registered block's members. */
    method AddTo(block: Block, oid: int)
      requires registry.Valid() && Filed(block)
      modifies block`items
      ensures registry.Valid() && Filed(block)
      ensures block.items == if oid in old(block.items) then old(block.items) else old(block.items) + [oid]
      ensures registry.GraphOf() ==
              old(registry.GraphOf())[block.oid := Branch(old(registry.GraphOf())[block.oid].desc, block.items)]
    {
      block.AddItem(oid);
      assert forall o :: o in registry.objects && o != block.oid ==>
               registry.objects[o].AsNode() == old(registry.objects[o].AsNode());
    }

    /** Registers an object that is not a block and adds it to a block. */
    method AddMember(block: Block, m: Member)
      requires registry.Valid() && Filed(block) && !m.BlockMember? && m.Sound()
      requires m.Oid() != block.oid && m.Oid() !in block.items
      modifies registry, block`items
      ensures registry.Valid() && registry.parts == old(registry.parts) + m.Part()
      ensures block.items == old(block.items) + [m.Oid()]
      ensures registry.objects == old(registry.objects)[m.Oid() := m]
      ensures Grew(old(registry.GraphOf()), registry.GraphOf(), block.oid,
                   Twig(old(m.AsNode()).desc, m.AsNode().setter, Nil))
    {
      hide Grew;
      ghost var g, node := registry.GraphOf(), m.AsNode();
      registry.Register(m);
      ghost var g1 := registry.GraphOf();
      AddTo(block, m.Oid());
      GrewTwig(g, g1, registry.GraphOf(), block.oid, node.desc, node.setter);
    }

    /** A new block, registered and added to a parent. */
    method AddBlock(parent: Block, oid: int, role: string, name: string) returns (b: Block)
      requires registry.Valid() && Filed(parent) && oid != parent.oid && oid !in parent.items
      modifies registry, parent`items
      ensures registry.Valid() && fresh(b) && fresh(registry.parts - old(registry.parts))
      ensures b.oid == oid && b.items == [] && parent.items == old(parent.items) + [oid]
      ensures registry.objects == old(registry.objects)[oid := BlockMember(b)]
      ensures Grew(old(registry.GraphOf()), registry.GraphOf(), parent.oid, Limb(BlockDesc(oid, role, name), Nil, Nil))
    {
      hide Grew;
      ghost var g := registry.GraphOf();
      b := new Block(oid, None, role, name);
      registry.Register(BlockMember(b));
      ghost var g1 := registry.GraphOf();
      AddTo(parent, oid);
      GrewLimb(g, g1, registry.GraphOf(), parent.oid, BlockDesc(oid, role, name));
    }

    /** Registers workers and adds them to their block, in order. */
    method FileWorkers(block: Block, workers: seq<Worker>, ghost ties: seq<Tie>)
      requires registry.Valid() && Filed(block) && Made(workers, ties)
      requires NoRepeat(Oids(Twigs(ties))) && block.oid !in Oids(Twigs(ties))
      requires forall x :: x in Oids(Twigs(ties)) ==> x !in block.items
      modifies registry, block`items
      ensures registry.Valid() && Filed(block) && fresh(registry.parts - old(registry.parts) - set w | w in workers)
      ensures block.items == old(block.items) + Tops(Twigs(ties))
      ensures Kept(old(registry.objects), registry.objects, Twigs(ties))
      ensures Grew(old(registry.GraphOf()), registry.GraphOf(), block.oid, Twigs(ties))
    {
      hide Grew, Holds, Twigs, Oids, Tops, NoRepeat, Tie.Desc, Tie.Setter;
      ghost var g, objects := registry.GraphOf(), registry.objects;
      ghost var done: seq<Tie> := [];
      NoTies();
      GrewNothing(g, block.oid);
      for k := 0 to |workers|
        invariant registry.Valid() && Filed(block) && Made(workers, ties) && done == ties[..k]
        invariant fresh(registry.parts - old(registry.parts) - set w | w in workers)
        invariant block.items == old(block.items) + Tops(Twigs(done))
        invariant Kept(objects, registry.objects, Twigs(done))
        invariant Grew(g, registry.GraphOf(), block.oid, Twigs(done))
      {
        ghost var g1, tie := registry.GraphOf(), ties[k];
        NextTie(ties, done, tie);
        SnocOids(done, tie);
        SnocOids(done + [tie], tie);
        AddMember(block, WorkerMember(workers[k]));
        FileStep(g, g1, registry.GraphOf(), block.oid, done, tie);
        done := done + [tie];
      }
      assert done == ties;
    }

    /** A new block in a parent, filled with one worker per table entry. */
    method AddFilledBlock(parent: Block, oid: int, role: string, name: string, scope: Scope,
                          configs: seq<WorkerConfig>, base: int)
      returns (block: Block, paramOids: map<string, int>)
      requires registry.Valid() && Filed(parent) && oid != parent.oid && oid !in parent.items
      requires !(base <= oid < base + |configs|) && !(base <= parent.oid < base + |configs|)
      modifies registry, parent`items
      ensures registry.Valid() && Filed(parent) && fresh(registry.parts - old(registry.parts))
      ensures fresh(block) && block.oid == oid && Filed(block) && block.items == Tops(Twigs(Ties(scope, configs, base)))
      ensures parent.items == old(parent.items) + [oid] && paramOids == Routes(Ties(scope, configs, base))
      ensures var f := Limb(BlockDesc(oid, role, name), Twigs(Ties(scope, configs, base)), Nil);
              Kept(old(registry.objects), registry.objects, f) &&
              Grew(old(registry.GraphOf()), registry.GraphOf(), parent.oid, f)
    {
      hide Grew, Routes, Oids, Twigs, Ties, NoRepeat;
      ghost var g, kids := registry.GraphOf(), Twigs(Ties(scope, configs, base));
      block := AddBlock(parent, oid, role, name);
      ghost var g1 := registry.GraphOf();
      var workers;
      workers, paramOids := CreateWorkers(scope, configs, base);
      forall x
        ensures x in Oids(kids) <==> base <= x < base + |configs|
        ensures NoRepeat(Oids(kids))
      {
        RunOids(scope, configs, base, x);
      }
      RunOids(scope, configs, base, base);
      FileWorkers(block, workers, Ties(scope, configs, base));
      NoTies();
      LimbAlone(BlockDesc(oid, role, name), kids);
      GrewInside(g, g1, registry.GraphOf(), parent.oid, BlockDesc(oid, role, name), Nil, kids);
    }

    /** The three nested blocks of a QLX-D channel. */
    method SetUpNested(block: Block, device: int, c: nat) returns (paramOids: map<string, int>)
      requires registry.Valid() && Filed(block) && block.oid == device + c && 110 <= device && 1 <= c <= 4
      requires forall x :: x in block.items ==> x < (device + c) * 1000
      modifies registry, block`items
      ensures registry.Valid() && Filed(block) && fresh(registry.parts - old(registry.parts))
      ensures paramOids == Routes(GainTies(device, c) + BatteryTies(device, c) + TransmitterTies(device, c))
      ensures Kept(old(registry.objects), registry.objects, NestedForest(device, c))
      ensures Grew(old(registry.GraphOf()), registry.GraphOf(), block.oid, NestedForest(device, c))
    {
      hide Grew, Kept, Routes, Oids, Twigs, Ties, NoRepeat;
      var base, ch := (device + c) * 1000, "Ch" + Itoa(c);
      ghost var g, objects := registry.GraphOf(), registry.objects;
      var _, gain := AddFilledBlock(block, base + 1, "AudioGain", ch + " AudioGain", Channel(c), GAIN_WORKERS,
          base + 10);
      ghost var g1, objects1 := registry.GraphOf(), registry.objects;
      var _, battery := AddFilledBlock(block, base + 2, "Battery", ch + " Battery", Nested(c, "Battery"),
          BATTERY_WORKERS, base + 20);
      ghost var g2, objects2 := registry.GraphOf(), registry.objects;
      var _, transmitter := AddFilledBlock(block, base + 3, "Transmitter", ch + " Transmitter",
                                        Nested(c, "Transmitter"), TRANSMITTER_WORKERS, base + 30);
      paramOids := gain + battery + transmitter;
      RoutesSum(GainTies(device, c), BatteryTies(device, c));
      RoutesSum(GainTies(device, c) + BatteryTies(device, c), TransmitterTies(device, c));
      NestedGrew(g, g1, g2, registry.GraphOf(), device, c);
      NestedKept(objects, objects1, objects2, registry.objects, device, c);
    }

    /** A channel's block in its device block, with the channel's workers and nested blocks. */
    method SetUpChannel(dev: Block, family: Family, c: nat) returns (paramOids: map<string, int>)
      requires registry.Valid() && Filed(dev) && 110 <= dev.oid && 1 <= c <= 4 && dev.oid + c !in dev.items
      modifies registry, dev`items
      ensures registry.Valid() && Filed(dev) && fresh(registry.parts - old(registry.parts))
      ensures dev.items == old(dev.items) + [dev.oid + c]
      ensures paramOids == Routes(AllChannelTies(family, dev.oid, c))
      ensures Kept(old(registry.objects), registry.objects, ChannelForest(family, dev.oid, c))
      ensures Grew(old(registry.GraphOf()), registry.GraphOf(), dev.oid, ChannelForest(family, dev.oid, c))
    {
      hide Grew, Kept, Routes, Oids, Twigs, Ties, NoRepeat, NestedForest, ChannelForest;
      var channelOid := dev.oid + c;
      ghost var g, objects := registry.GraphOf(), registry.objects;
      var block;
      block, paramOids := AddFilledBlock(dev, channelOid, "Channel" + Itoa(c), "Channel " + Itoa(c),
                                         Channel(c), ChannelWorkersConfig(family), channelOid * 100);
      ghost var g1, objects1 := registry.GraphOf(), registry.objects;
      if family.QLXD? {
        forall x | x in block.items
          ensures x < channelOid * 1000
        {
          TwigOids(ChannelTies(family, dev.oid, c));
          RunOids(Channel(c), ChannelWorkersConfig(family), channelOid * 100, x);
        }
        var nested := SetUpNested(block, dev.oid, c);
        RoutesSum(ChannelTies(family, dev.oid, c),
                  GainTies(dev.oid, c) + BatteryTies(dev.oid, c) + TransmitterTies(dev.oid, c));
        paramOids := paramOids + nested;
      } else {
        assert ChannelTies(family, dev.oid, c) + [] == ChannelTies(family, dev.oid, c);
      }
      ChannelGrew(g, g1, registry.GraphOf(), family, dev.oid, c);
      ChannelKept(objects, objects1, registry.objects, family, dev.oid, c);
    }

    /** The workers of a QLX-D device block. */
    method SetUpDeviceWorkers(dev: Block, family: Family) returns (paramOids: map<string, int>)
      requires registry.Valid() && Filed(root) && Filed(dev) && root.oid == ROOT && 110 <= dev.oid && dev.items == []
      modifies registry, dev`items
      ensures registry.Valid() && Filed(root) && Filed(dev) && fresh(registry.parts - old(registry.parts))
      ensures paramOids == Routes(DeviceTies(family, dev.oid))
      ensures dev.items == Tops(DeviceKids(family, dev.oid, 0))
      ensures Grew(old(registry.GraphOf()), registry.GraphOf(), dev.oid, DeviceKids(family, dev.oid, 0))
    {
      hide Grew, Routes, Oids, Tops, Twigs, Ties, NoRepeat;
      ghost var ties := DeviceTies(family, dev.oid);
      PlusNil(Twigs(ties));
      if family.QLXD? {
        var workers;
        workers, paramOids := CreateWorkers(WholeDevice, DEVICE_WORKERS, dev.oid * 100);
        RunOids(WholeDevice, DEVICE_WORKERS, dev.oid * 100, dev.oid);
        RunOids(WholeDevice, DEVICE_WORKERS, dev.oid * 100, ROOT);
        FileWorkers(dev, workers, ties);
        assert [] + Tops(Twigs(ties)) == Tops(Twigs(ties));
      } else {
        paramOids := map[];
        NoTies();
        NoRoutes();
        GrewNothing(registry.GraphOf(), dev.oid);
      }
    }

    /** The channels of a device block, one after the other, after its workers. */
    method SetUpChannels(dev: Block, family: Family, n: nat, deviceOids: map<string, int>, ghost g: Graph)
      returns (parameterOids: map<string, int>, channelOids: map<int, int>)
      requires registry.Valid() && Filed(root) && Filed(dev) && root.oid == ROOT && 110 <= dev.oid && n <= 4
      requires dev.items == Tops(DeviceKids(family, dev.oid, 0)) && deviceOids == Routes(DeviceTies(family, dev.oid))
      requires Grew(g, registry.GraphOf(), dev.oid, DeviceKids(family, dev.oid, 0))
      modifies registry, dev`items
      ensures registry.Valid() && Filed(root) && Filed(dev) && fresh(registry.parts - old(registry.parts))
      ensures parameterOids == Routes(AllTies(family, dev.oid, n)) && channelOids == ChannelMap(dev.oid, n)
      ensures Grew(g, registry.GraphOf(), dev.oid, DeviceKids(family, dev.oid, n))
    {
      hide Grew, GrewTo, Kept, Routes, Oids, Tops, Twigs, Ties, NoRepeat, ChannelForest, ChannelForests, AllChannelTies;
      parameterOids, channelOids := deviceOids, map[];
      for c := 1 to n + 1
        invariant registry.Valid() && Filed(root) && Filed(dev) && fresh(registry.parts - old(registry.parts))
        invariant dev.items == Tops(DeviceKids(family, dev.oid, c - 1))
        invariant parameterOids == Routes(AllTies(family, dev.oid, c - 1)) && channelOids == ChannelMap(dev.oid, c - 1)
        invariant Grew(g, registry.GraphOf(), dev.oid, DeviceKids(family, dev.oid, c - 1))
      {
        ghost var g2, objects := registry.GraphOf(), registry.objects;
        channelOids := channelOids[c := dev.oid + c];
        NextChannelNew(family, dev.oid, c - 1);
        var paramOids := SetUpChannel(dev, family, c);
        parameterOids := parameterOids + paramOids;
        OneMoreChannel(g, g2, registry.GraphOf(), family, dev.oid, c - 1);
        RoutesSum(AllTies(family, dev.oid, c - 1), AllChannelTies(family, dev.oid, c));
        RootKept(objects, registry.objects, family, dev.oid, c);
      }
    }

    /** Registers a new device block. */
    method FileDevice(oid: int, model: string) returns (dev: Block)
      requires registry.Valid() && Filed(root) && oid != root.oid
      modifies registry
      ensures registry.Valid() && fresh(dev) && fresh(registry.parts - old(registry.parts))
      ensures Filed(root) && Filed(dev) && dev.oid == oid && dev.items == []
      ensures registry.GraphOf() == old(registry.GraphOf())[oid := Branch(BlockDesc(oid, "Device", model), [])]
    {
      dev := new Block(oid, None, "Device", model);
      registry.Register(BlockMember(dev));
    }

    /** All control objects of a receiver: its device block, workers and channels, listed by the root. */
    method SetupDeviceNCP(index: nat, model: string) returns (parameterOids: map<string, int>,
                          channelOids: map<int, int>)
      requires registry.Valid() && root.oid == ROOT && Filed(root) && index >= 1
      modifies registry, root`items
      ensures registry.Valid() && Filed(root) && fresh(registry.parts - old(registry.parts))
      ensures parameterOids == Routes(AllTies(DetectModelFamily(model), DeviceOid(index), MaxChannelsFromModel(model)))
      ensures channelOids == ChannelMap(DeviceOid(index), MaxChannelsFromModel(model))
      ensures root.items == if DeviceOid(index) in old(root.items) then old(root.items)
                            else old(root.items) + [DeviceOid(index)]
      ensures GrewTo(old(registry.GraphOf()), registry.GraphOf(), ROOT, DeviceForest(index, model), root.items)
    {
      hide Grew, GrewTo, Kept, Routes, Oids, Tops, NoRepeat, DeviceKids, AllTies;
      hide DeviceForest, DetectModelFamily, MaxChannelsFromModel, ChannelMap;
      var family, n, deviceOid := DetectModelFamily(model), MaxChannelsFromModel(model), DeviceOid(index);
      ghost var g := registry.GraphOf();
      var dev := FileDevice(deviceOid, model);
      ghost var g1 := registry.GraphOf();
      var deviceOids := SetUpDeviceWorkers(dev, family);
      assert fresh(registry.parts - old(registry.parts));
      parameterOids, channelOids := SetUpChannels(dev, family, n, deviceOids, g1);
      assert fresh(registry.parts - old(registry.parts));
      ghost var g2 := registry.GraphOf();
      AddTo(root, deviceOid);
      DeviceGrew(g, g1, g2, registry.GraphOf(), index, model, root.items);
    }

    /** Connects a discovered receiver, unless connecting fails; of one connected already the announcement is
        noted. A new one's place is one more than the number of receivers now connected. */
    method AddShureController(addr: string, model: string, connects: bool, now: nat) returns (added: bool)
      requires Valid()
      modifies this`shureCtrls, this`models, this`places, this`highest, registry, root`items
      ensures Valid() && added == (addr !in old(shureCtrls) && connects) && reaped == old(reaped)
      ensures !added ==> models == old(models) && places == old(places) && highest == old(highest)
      ensures !added ==> registry.objects == old(registry.objects) && root.items == old(root.items)
      ensures !added ==> shureCtrls == if addr in old(shureCtrls)
                                       then old(shureCtrls)[addr := old(shureCtrls)[addr].(lastSeen := now)]
                                       else old(shureCtrls)
      ensures added ==> models == old(models) + [model] && places == old(places) + [|old(shureCtrls)| + 1]
      ensures added ==> highest == Larger(old(highest), |old(shureCtrls)| + 1)
      ensures added ==> shureCtrls == old(shureCtrls)[addr := InfoOf(|old(shureCtrls)| + 1, model, now)]
      ensures added ==> GrewTo(old(registry.GraphOf()), registry.GraphOf(), ROOT,
                               DeviceForest(|old(shureCtrls)| + 1, model), root.items)
      ensures added && StartsUpToCase(model, "ULXD") ==> forall c :: 1 <= c <= MaxChannelsFromModel(model) ==>
                Itoa(c) + "_GROUP_CHAN" in shureCtrls[addr].parameterOids &&
                Itoa(c) + "_GROUP_CHANNEL" !in shureCtrls[addr].parameterOids
      ensures added ==> var oid := DeviceOid(|old(shureCtrls)| + 1);
                root.items == if oid in old(root.items) then old(root.items) else old(root.items) + [oid]
    {
      hide GrewTo, DeviceForest, DetectModelFamily, MaxChannelsFromModel, AllTies, Routes, ChannelMap, History,
           StartsUpToCase;
      if addr in shureCtrls {
        GenuineOf(addr);
        NotedIsGenuine(shureCtrls[addr], shureCtrls[addr].family, now);
        Note(addr, shureCtrls[addr].(lastSeen := now));
        return false;
      }
      if !connects {
        return false;
      }
      var index := |shureCtrls| + 1;
      ghost var g := registry.GraphOf();
      var parameterOids, channelOids := SetupDeviceNCP(index, model);
      NewIsGenuine(index, model, now);
      var info := DeviceInfo(index, DeviceOid(index), DetectModelFamily(model), model, parameterOids, channelOids, now);
      Enter(addr, info, g);
      if StartsUpToCase(model, "ULXD") {
        UlxdKeys(index, model, now);
      }
      return true;
    }

    lemma GenuineOf(addr: string)
      requires Valid() && addr in shureCtrls
      ensures Genuine(shureCtrls[addr])
    {
      hide Laid, ClashFree, SiteForest, OnlyOwned, HandedOut, Genuine;
    }

    /** Records a receiver whose objects were just registered. */
    method Enter(addr: string, info: DeviceInfo, ghost g: Graph)
      requires registry.Valid() && this !in registry.parts && root.oid == ROOT && Filed(root) && History(g)
      requires addr !in shureCtrls && Genuine(info) && info.index == |shureCtrls| + 1
      requires GrewTo(g, registry.GraphOf(), ROOT, DeviceForest(info.index, info.model), root.items)
      requires ROOT in g && g[ROOT].Branch?
      requires root.items == if DeviceOid(info.index) in g[ROOT].items then g[ROOT].items
                             else g[ROOT].items + [DeviceOid(info.index)]
      modifies this`shureCtrls, this`models, this`places, this`highest
      ensures Valid() && shureCtrls == old(shureCtrls)[addr := info]
      ensures models == old(models) + [info.model] && places == old(places) + [info.index]
      ensures highest == Larger(old(highest), info.index)
    {
      hide GrewTo, Laid, ClashFree, DeviceForest, Recorded, SiteForest, OnlyOwned, HandedOut, Genuine, Filed;
      RecordedMore(shureCtrls, models, reaped, addr, info);
      OneMorePlace(places, highest, info.index);
      RegisteredMore(g, registry.GraphOf(), places, models, info.index, info.model, root.items);
      CountInPlace(shureCtrls, models, reaped);
      LaidMore(g, registry.GraphOf(), models, reaped, info.index, info.model, root.items);
      Size(shureCtrls, addr, info);
      shureCtrls := shureCtrls[addr := info];
      models, places, highest := models + [info.model], places + [info.index], Larger(highest, info.index);
    }

    /** Notes something about a receiver that leaves its place, model and tables. */
    method Note(addr: string, info: DeviceInfo)
      requires Valid() && addr in shureCtrls && Genuine(info)
      requires info.index == shureCtrls[addr].index && info.model == shureCtrls[addr].model
      modifies this`shureCtrls
      ensures Valid() && registry.GraphOf() == old(registry.GraphOf())
      ensures shureCtrls == old(shureCtrls)[addr := info]
    {
      hide Laid, ClashFree, Recorded, SiteForest, OnlyOwned, HandedOut, Genuine;
      RecordedNoted(shureCtrls, models, reaped, addr, info);
      Size(shureCtrls, addr, info);
      shureCtrls := shureCtrls[addr := info];
    }

    /** Forgets one receiver. */
    method Forget(addr: string)
      requires Valid() && addr in shureCtrls
      modifies this`shureCtrls, this`reaped
      ensures Valid() && shureCtrls == old(shureCtrls) - {addr} && reaped
    {
      hide Laid, ClashFree, Recorded, SiteForest, OnlyOwned, HandedOut;
      FewerRecorded(shureCtrls, models, reaped, addr);
      shureCtrls := shureCtrls - {addr};
      reaped := true;
    }

    /** The reaper's first half: the receivers not seen lately. */
    method StaleAddrs(now: nat) returns (stale: set<string>)
      ensures stale == StaleAt(shureCtrls, now)
    {
      stale := CollectStale(map a | a in shureCtrls :: shureCtrls[a].lastSeen, now);
    }

    /** The second half: those collected are forgotten, even if they were announced or added again since. Their
        control objects stay registered. */
    method RemoveStale(stale: set<string>)
      requires Valid()
      modifies this`shureCtrls, this`reaped
      ensures Valid() && shureCtrls == old(shureCtrls) - stale
      ensures reaped == (old(reaped) || Meet(stale, old(shureCtrls).Keys))
    {
      hide Valid, Meet;
      var left := stale;
      ghost var known := shureCtrls.Keys;
      NoneMeet(stale, known);
      while left != {}
        invariant Valid() && left <= stale && shureCtrls == old(shureCtrls) - (stale - left)
        invariant reaped == (old(reaped) || Meet(stale - left, known))
        decreases |left|
      {
        Occupied(left);
        var addr: string :| addr in left;
        OneFewer(old(shureCtrls), stale, left, addr);
        MeetMore(stale, left, addr, known);
        left := left - {addr};
        if addr in shureCtrls {
          Forget(addr);
        }
      }
      assert stale - left == stale;
    }

    /** A whole turn of the reaper that nothing comes between. */
    method Reap(now: nat)
      requires Valid()
      modifies this`shureCtrls, this`reaped
      ensures Valid() && shureCtrls == old(shureCtrls) - StaleAt(old(shureCtrls), now)
      ensures reaped == (old(reaped) || StaleAt(old(shureCtrls), now) != {})
    {
      var stale := StaleAddrs(now);
      assert forall a :: a in stale ==> a in shureCtrls.Keys;
      if stale != {} {
        Occupied(stale);
      }
      RemoveStale(stale);
    }

    /** Where the next receiver goes, in every run of additions and removals: the identifier of its device
        block is registered already exactly when fewer are connected than places were ever handed out, or it
        is one that an earlier place owns, which takes more than a hundred connected. */
    lemma NextPlaceTaken()
      requires Valid()
      ensures DeviceOid(|shureCtrls| + 1) in registry.objects <==>
                |shureCtrls| < highest ||
                exists k :: 0 <= k < |places| && BlockClash(places[k], models[k], |shureCtrls| + 1)
      ensures |shureCtrls| < 100 ==> (DeviceOid(|shureCtrls| + 1) in registry.objects <==> |shureCtrls| < highest)
    {
      hide Laid, ClashFree, Recorded, SiteForest, OnlyOwned, HandedOut, BlockClash, DeviceOid;
      NextPlaceTakenIff(registry.GraphOf(), places, models, highest, |shureCtrls|);
      if |shureCtrls| < 100 {
        forall k | 0 <= k < |places|
          ensures !BlockClash(places[k], models[k], |shureCtrls| + 1)
        {
          PlaceHandedOut(places, highest, k);
          NoBlockClash(places[k], models[k], |shureCtrls| + 1);
        }
      }
    }

    /** In every run all identifiers of the next receiver are free exactly when as many are connected as places
        were ever handed out and no place clashes with the next one; with fewer than a hundred connected none
        does. */
    lemma NextReceiverFree(model: string)
      requires Valid()
      ensures (forall x :: Owns(|shureCtrls| + 1, model, x) ==> x !in registry.objects) <==>
                |shureCtrls| == highest &&
                forall k :: 0 <= k < |places| ==> !Clash(places[k], models[k], |shureCtrls| + 1, model)
      ensures |shureCtrls| < 100 ==>
                ((forall x :: Owns(|shureCtrls| + 1, model, x) ==> x !in registry.objects) <==>
                   |shureCtrls| == highest)
    {
      hide Laid, ClashFree, Recorded, SiteForest, OnlyOwned, Owns, Clash;
      var g := registry.GraphOf();
      NextReceiverFreeIff(g, places, models, highest, |shureCtrls|, model);
      assert g.Keys == registry.objects.Keys;
      assert forall x :: x in g <==> x in registry.objects;
      if |shureCtrls| < 100 && |shureCtrls| == highest {
        forall k | 0 <= k < |places|
          ensures !Clash(places[k], models[k], |shureCtrls| + 1, model)
        {
          NoClash(places[k], models[k], |shureCtrls| + 1, model);
        }
      }
    }

    /** With a hundred connected and none ever removed the next device block can be free while another identifier
        of the receiver is not. */
    lemma FreeBlockIsNotEnough(model: string, k: nat)
      requires Valid() && |shureCtrls| == 100 && highest == 100
      requires k < |places| && places[k] == 1 && Qlxd(models[k]) && Qlxd(model)
      ensures (forall j :: 0 <= j < |places| ==> !BlockClash(places[j], models[j], 101)) &&
              DeviceOid(101) !in registry.objects
      ensures Owns(101, model, 111001) && 111001 in registry.objects
    {
      hide Laid, ClashFree, Recorded, SiteForest, OnlyOwned, Owns, HandedOut, BlockClash, Qlxd;
      FirstMeets101(models[k], model);
      OneOwns(places, models, k, 111001);
      assert 111001 in registry.GraphOf() by {
        IsOwned(registry.GraphOf(), places, models, 111001);
      }
      forall j | 0 <= j < |places|
        ensures !BlockClash(places[j], models[j], 101)
      {
        PlaceHandedOut(places, highest, j);
        NoBlockClash(places[j], models[j], 101);
      }
      NextPlaceTaken();
    }

    /** While nothing was removed and no places clash the root block is ready for any search, and a listing
        gives the layout in order, or the direct members. */
    lemma RootReady()
      requires Valid() && !reaped && ClashFree(models)
      ensures Acyclic(registry.GraphOf()) && root.Ready()
      ensures forall recurse: bool :: FindMembers(registry.GraphOf(), root.items, Everything, recurse)
                == if recurse then Described(SiteKids(models)) else TopsDescribed(SiteKids(models))
    {
      hide Laid, SiteForest, SiteKids, Acyclic, FindMembers, Recorded, ClashFree, Described, TopsDescribed;
      SiteListing(registry.GraphOf(), models, true);
      SiteListing(registry.GraphOf(), models, false);
      assert registry.GraphOf()[ROOT] == registry.objects[ROOT].AsNode();
    }

    /** What the gateway has for a worker of a connected receiver. */
    lemma WorkerFiled(addr: string, tie: Tie)
      requires Valid() && !reaped && ClashFree(models) && addr in shureCtrls && tie in TiesOf(shureCtrls[addr])
      ensures tie.oid in registry.objects
      ensures var m := registry.objects[tie.oid];
              m.WorkerMember? && m.worker.GetDescriptor() == tie.Desc() && m.worker.setter == tie.Setter()
    {
      hide Laid, SiteForest, ClashFree, AllTies, DetectModelFamily, MaxChannelsFromModel, Routes, ChannelMap,
          Tie.Setter;
      var info := shureCtrls[addr];
      TieFiled(registry.GraphOf(), models, info.index - 1, tie);
      assert registry.GraphOf()[tie.oid] == registry.objects[tie.oid].AsNode();
      assert tie.Desc().classId[1] == 2;
    }

    /** Whether a report from an address is for one of its receiver's workers. */
    ghost predicate HeardBy(addr: string, tie: Tie, channel: int, param: string)
      reads this
    {
      addr in shureCtrls && tie in TiesOf(shureCtrls[addr]) && Hears(shureCtrls[addr].family, tie, channel, param)
    }

    /** The worker filed under an identifier, if a worker is. */
    ghost function WorkerAt(oid: int): Worker?
      reads registry
    {
      if oid in registry.objects && registry.objects[oid].WorkerMember? then registry.objects[oid].worker else null
    }

    /** What is filed for the worker that hears a report. */
    ghost function Target(addr: string, channel: int, param: string): Worker?
      reads this, registry
    {
      if exists tie :: HeardBy(addr, tie, channel, param) then
        var tie :| HeardBy(addr, tie, channel, param);
        WorkerAt(tie.oid)
      else null
    }

    /** All workers that hear a report are one, so its target is well defined; and while nothing was removed
        and no places clash it is that worker's own object, tied to that parameter. */
    lemma TargetIs(addr: string, channel: int, param: string, tie: Tie)
      requires Valid() && HeardBy(addr, tie, channel, param)
      ensures Target(addr, channel, param) == WorkerAt(tie.oid)
      ensures !reaped && ClashFree(models) ==>
                var w := Target(addr, channel, param);
                w != null && w.GetDescriptor() == tie.Desc() && w.setter == tie.Setter()
    {
      hide Laid, SiteForest, ClashFree, Hears, DetectModelFamily, MaxChannelsFromModel, AllTies, ChannelMap, Routes;
      hide Registry.Valid, Tie.Desc, Tie.Setter, OnlyOwned, HandedOut;
      var other :| HeardBy(addr, other, channel, param) && Target(addr, channel, param) == WorkerAt(other.oid);
      var info := shureCtrls[addr];
      assert HeardBy(addr, other, channel, param) && other in TiesOf(info) && tie in TiesOf(info);
      OneHears(DetectModelFamily(info.model), info.family, info.deviceOid, MaxChannelsFromModel(info.model), tie, other,
               channel, param);
      if !reaped && ClashFree(models) {
        WorkerFiled(addr, tie);
      }
    }

    /** The tables of a connected receiver. */
    lemma TableOf(addr: string)
      requires Valid() && addr in shureCtrls
      ensures shureCtrls[addr].parameterOids == Routes(TiesOf(shureCtrls[addr]))
    {
      hide Laid, SiteForest, ClashFree, DetectModelFamily, MaxChannelsFromModel, AllTies, ChannelMap, Routes;
      hide OnlyOwned, HandedOut, AllInPlace;
      assert Genuine(shureCtrls[addr]);
    }

    /** The worker the routing finds for a report, if there is one. */
    method WorkerFor(addr: string, channel: int, param: string) returns (w: Worker?)
      requires Valid()
      ensures w == Target(addr, channel, param)
    {
      hide Laid, SiteForest, ClashFree, Hears, DetectModelFamily, MaxChannelsFromModel, AllTies, ChannelMap;
      hide Routes, Registry.Valid, Tie.Desc, Tie.Setter, OnlyOwned, HandedOut, Recorded;
      w := null;
      if addr in shureCtrls {
        var info := shureCtrls[addr];
        TableOf(addr);
        var oid := RouteReport(info.parameterOids, info.family, channel, param, DetectModelFamily(info.model),
            info.deviceOid, MaxChannelsFromModel(info.model));
        if oid.Some? {
          ghost var tie :| tie in TiesOf(info) && Hears(info.family, tie, channel, param);
          assert HeardBy(addr, tie, channel, param);
          TargetIs(addr, channel, param, tie);
          if oid.value in registry.objects {
            var obj := registry.objects[oid.value];
            if obj.WorkerMember? {
              w := obj.worker;
            }
          }
        }
      }
    }

    /** A report of a metered parameter that has a worker under its channel's key. */
    predicate Metered(addr: string, channel: int, param: string)
      reads this
    {
      addr in shureCtrls && IsMeteredParam(param) && Itoa(channel) + "_" + param in shureCtrls[addr].parameterOids
    }

    /** That worker is the one the routing finds, since its key is tried first; and it has no setter. */
    lemma MeteredIs(addr: string, channel: int, param: string) returns (tie: Tie)
      requires Valid() && Metered(addr, channel, param)
      ensures HeardBy(addr, tie, channel, param) && tie.Setter().None?
      ensures shureCtrls[addr].parameterOids[Itoa(channel) + "_" + param] == tie.oid
    {
      hide Valid, Hears, DetectModelFamily, MaxChannelsFromModel, AllTies, ChannelMap, Routes, IsMeteredParam;
      hide Tie.Key, Tie.Setter;
      var info, key := shureCtrls[addr], Itoa(channel) + "_" + param;
      var built, n := DetectModelFamily(info.model), MaxChannelsFromModel(info.model);
      TableOf(addr);
      TableExact(built, info.deviceOid, n);
      tie :| tie in TiesOf(info) && tie.Key() == key;
      KeyMeansHears(built, info.family, info.deviceOid, n, tie, channel, param);
      MeteredNoSetter(built, info.deviceOid, n, tie, channel, param);
    }

    /** The worker filed under a metered parameter's key. */
    method MeteredWorker(addr: string, channel: int, param: string) returns (w: Worker?)
      requires Valid() && addr in shureCtrls
      ensures w == if Metered(addr, channel, param) then Target(addr, channel, param) else null
    {
      hide Valid, Hears, DetectModelFamily, MaxChannelsFromModel, AllTies, ChannelMap, Routes, IsMeteredParam;
      w := null;
      var info, key := shureCtrls[addr], Itoa(channel) + "_" + param;
      if IsMeteredParam(param) && key in info.parameterOids {
        ghost var tie := MeteredIs(addr, channel, param);
        TargetIs(addr, channel, param, tie);
        var oid := info.parameterOids[key];
        if oid in registry.objects {
          var obj := registry.objects[oid];
          if obj.WorkerMember? {
            w := obj.worker;
          }
        }
      }
    }

    /** The reports that are routed by all keys. */
    predicate Routed(kind: string, param: string) {
      kind == "REP" && param != "ALL"
    }

    /** The worker a report sets, if any. */
    ghost function Reached(addr: string, kind: string, channel: int, param: string): Worker?
      reads this, registry
    {
      if Metered(addr, channel, param) || Routed(kind, param) then Target(addr, channel, param) else null
    }

    /** The line of one set of a worker. */
    ghost function LineOf(w: Worker?, v: Value): seq<string>
      reads w
    {
      if w != null && w.setter.Some? then [SetLine(w.setter.value, v)] else []
    }

    /** The lines a report makes the gateway send. */
    ghost function Lines(addr: string, kind: string, channel: int, param: string, v: Value): seq<string>
      reads this, registry, registry.parts, Target(addr, channel, param)
    {
      var line := LineOf(Target(addr, channel, param), v);
      (if Metered(addr, channel, param) then line else []) + (if Routed(kind, param) then line else [])
    }

    /** While nothing was removed and no places clash, a settable worker reached by a report sends one line,
        and that is for the channel and parameter the report names exactly when the worker is the whole
        device's or the report did not spell its routing key. */
    lemma LineNamesReportIff(addr: string, kind: string, channel: int, param: string, v: Value, tie: Tie)
      requires Valid() && !reaped && ClashFree(models) && HeardBy(addr, tie, channel, param)
      requires tie.Setter().Some? && Routed(kind, param)
      ensures Lines(addr, kind, channel, param, v) == [SetLine(tie.Setter().value, v)]
      ensures Lines(addr, kind, channel, param, v) == [SetLine(Named(tie, channel, param), v)] <==>
                tie.scope.WholeDevice? || NoBlanks(param) != tie.Key()
    {
      hide Valid, Hears, ClashFree, DetectModelFamily, MaxChannelsFromModel, AllTies, ChannelMap, Routes, NoBlanks;
      hide IsMeteredParam, SetLine, Tie.Key, Metered;
      TargetIs(addr, channel, param, tie);
      var info := shureCtrls[addr];
      var built, n := DetectModelFamily(info.model), MaxChannelsFromModel(info.model);
      if Metered(addr, channel, param) {
        var other := MeteredIs(addr, channel, param);
        OneHears(built, info.family, info.deviceOid, n, tie, other, channel, param);
      }
      SendsWhatItHears(built, info.family, info.deviceOid, n, tie, channel, param);
      LineTellsSetter(tie.Setter().value, Named(tie, channel, param), v);
    }

    /** Sets a worker, if there is one. */
    method SetIfAny(w: Worker?, v: Value, accepted: bool) returns (line: seq<string>)
      requires Valid() && (w != null ==> w in registry.parts)
      modifies registry.parts
      ensures Valid() && registry.GraphOf() == old(registry.GraphOf()) && line == old(LineOf(w, v))
      ensures unchanged(this) && unchanged(registry)
      ensures w != null ==> w.value == if w.setter.None? || accepted then v else old(w.value)
      ensures forall x: Worker :: x in old(registry.parts) && x != w ==> x.value == old(x.value)
    {
      hide Valid;
      line := [];
      if w != null {
        var sent;
        PartsApart();
        sent := registry.SetWorker(w, v, accepted);
        line := if sent.Some? then [sent.value] else [];
        Unchanged();
      }
    }

    /** Sets the workers a report is for: a metered parameter's own one, whatever kind of report it is; then,
        of a REP report, the one the routing finds. */
    method SetWorkers(addr: string, kind: string, channel: int, param: string, v: Value, accepted: bool,
                      acceptedNext: bool)
      returns (w: Worker?, lines: seq<string>)
      requires Valid() && addr in shureCtrls
      modifies registry.parts
      ensures Valid() && registry.GraphOf() == old(registry.GraphOf()) && unchanged(this) && unchanged(registry)
      ensures w == old(Reached(addr, kind, channel, param)) && lines == old(Lines(addr, kind, channel, param, v))
      ensures w != null ==>
                w.value == if w.setter.None? || (Metered(addr, channel, param) && accepted) ||
                              (Routed(kind, param) && acceptedNext)
                           then v else old(w.value)
      ensures forall x: Worker :: x in old(registry.parts) && x != w ==> x.value == old(x.value)
    {
      hide Valid, Target, IsMeteredParam, SetLine;
      w, lines := null, [];
      TargetInParts(addr, channel, param);
      if IsMeteredParam(param) {
        w := MeteredWorker(addr, channel, param);
        lines := SetIfAny(w, v, accepted);
      }
      if Routed(kind, param) {
        w := WorkerFor(addr, channel, param);
        var line := SetIfAny(w, v, acceptedNext);
        lines := lines + line;
      }
    }

    /** Applies a report to the workers it is for. A settable worker first sends its own line back to the
        device, and takes the value only if that is accepted. No other worker changes. A report that names
        the model, of a receiver whose device is stored, changes the family the gateway takes it for. */
    method HandleReport(addr: string, kind: string, channel: int, param: string, text: string, accepted: bool,
                        acceptedNext: bool, stored: bool)
      returns (w: Worker?, lines: seq<string>)
      requires Valid()
      modifies registry.parts, this`shureCtrls
      ensures Valid() && registry.GraphOf() == old(registry.GraphOf())
      ensures w == old(Reached(addr, kind, channel, param))
      ensures w == old(if (kind == "REP" && param != "ALL") ||
                          (addr in shureCtrls && IsMeteredParam(param) &&
                           Itoa(channel) + "_" + param in shureCtrls[addr].parameterOids)
                       then Target(addr, channel, param) else null)
      ensures lines == old(Lines(addr, kind, channel, param, Str(text)))
      ensures w != null ==>
                w.value == if w.setter.None? || (old(Metered(addr, channel, param)) && accepted) ||
                              (Routed(kind, param) && acceptedNext)
                           then Str(text) else old(w.value)
      ensures forall x: Worker :: x in old(registry.parts) && x != w ==> x.value == old(x.value)
      ensures shureCtrls == if addr in old(shureCtrls) && stored && param == "MODEL"
                            then old(shureCtrls)[addr := old(shureCtrls)[addr].(family := DetectModelFamily(text))]
                            else old(shureCtrls)
    {
      hide Valid, Target, Metered, Reached, Lines, Routed, DetectModelFamily;
      ReachedIs(addr, kind, channel, param);
      if addr !in shureCtrls {
        Unknown(addr, kind, channel, param, Str(text));
        return null, [];
      }
      w, lines := SetWorkers(addr, kind, channel, param, Str(text), accepted, acceptedNext);
      if stored && param == "MODEL" {
        GenuineOf(addr);
        NotedIsGenuine(shureCtrls[addr], DetectModelFamily(text), shureCtrls[addr].lastSeen);
        Note(addr, shureCtrls[addr].(family := DetectModelFamily(text)));
      }
    }

    lemma ReachedIs(addr: string, kind: string, channel: int, param: string)
      ensures Reached(addr, kind, channel, param) ==
              if (kind == "REP" && param != "ALL") ||
                 (addr in shureCtrls && IsMeteredParam(param) &&
                  Itoa(channel) + "_" + param in shureCtrls[addr].parameterOids)
              then Target(addr, channel, param) else null
    {
    }

    /** A report from an unknown address reaches nothing. */
    lemma Unknown(addr: string, kind: string, channel: int, param: string, v: Value)
      requires addr !in shureCtrls
      ensures Reached(addr, kind, channel, param) == null && Lines(addr, kind, channel, param, v) == []
    {
    }

    lemma PartsApart()
      requires Valid()
      ensures registry.Valid() && this !in registry.parts
    {
    }

    /** Validity reads no more of the objects than their graph. */
    twostate lemma Unchanged()
      requires old(Valid()) && registry.Valid() && registry.GraphOf() == old(registry.GraphOf())
      requires unchanged(this) && unchanged(registry)
      ensures Valid()
    {
      hide Laid, ClashFree, Recorded, SiteForest, OnlyOwned, HandedOut;
    }

    lemma TargetInParts(addr: string, channel: int, param: string)
      requires Valid()
      ensures Target(addr, channel, param) != null ==>
                registry.Valid() && Target(addr, channel, param) in registry.parts
    {
      hide Laid, Recorded, HeardBy, OnlyOwned, HandedOut;
    }
  }

  lemma InfoFields(index: nat, model: string, now: nat)
    ensures InfoOf(index, model, now).deviceOid == DeviceOid(index) && InfoOf(index, model, now).lastSeen == now
  {
  }

  lemma OneStale(first: DeviceInfo, second: DeviceInfo, now: nat)
    requires now - first.lastSeen > PATIENCE && now - second.lastSeen <= PATIENCE
    ensures StaleAt(map["a" := first, "b" := second], now) == {"a"}
    ensures map["a" := first, "b" := second] - {"a"} == map["b" := second] && |map["b" := second]| == 1
  {
  }

  method TwoAdded() returns (g: Gateway)
    ensures fresh(g) && fresh(g.registry) && fresh(g.root) && g.Valid() && g.highest == 2
    ensures g.shureCtrls == map["a" := InfoOf(1, "QLXD4", 0), "b" := InfoOf(2, "QLXD4", 100 * SECOND)]
  {
    hide Gateway.Valid, InfoOf, GrewTo, DeviceForest, DeviceOid;
    g := new Gateway(true);
    var added := g.AddShureController("a", "QLXD4", true, 0);
    added := g.AddShureController("b", "QLXD4", true, 100 * SECOND);
  }

  /** Two QLX-D receivers, and the first of them removed: the identifier of the next one's device block is
      registered already. */
  method FirstRemoved() returns (g: Gateway)
    ensures fresh(g) && fresh(g.registry) && fresh(g.root) && g.Valid()
    ensures g.shureCtrls == map["b" := InfoOf(2, "QLXD4", 100 * SECOND)] && DeviceOid(2) in g.registry.objects
  {
    hide Gateway.Valid, InfoOf, BlockClash, StaleAt, DeviceOid;
    g := TwoAdded();
    InfoFields(1, "QLXD4", 0);
    InfoFields(2, "QLXD4", 100 * SECOND);
    OneStale(InfoOf(1, "QLXD4", 0), InfoOf(2, "QLXD4", 100 * SECOND), 130 * SECOND);
    g.Reap(130 * SECOND);
    g.NextPlaceTaken();
  }

  /** A third one added then: two connected receivers have one place. */
  method AddedAfterRemoval() returns (g: Gateway)
    ensures fresh(g) && g.Valid()
    ensures "b" in g.shureCtrls && "c" in g.shureCtrls && g.shureCtrls["b"].deviceOid == g.shureCtrls["c"].deviceOid
  {
    hide Gateway.Valid, InfoOf, GrewTo, DeviceForest, DeviceOid, Larger;
    g := FirstRemoved();
    InfoFields(2, "QLXD4", 100 * SECOND);
    InfoFields(2, "QLXD4", 130 * SECOND);
    var added := g.AddShureController("c", "QLXD4", true, 130 * SECOND);
  }

  /** A receiver announced between the halves of the reaper's turn is forgotten all the same. */
  method AnnouncedTooLate() returns (g: Gateway, seen: nat, now: nat)
    ensures fresh(g) && g.Valid() && "a" !in g.shureCtrls && seen == now
  {
    hide Gateway.Valid, InfoOf, GrewTo, StaleAt, DeviceForest, DeviceOid, Larger;
    g := new Gateway(true);
    now := 130 * SECOND;
    var added := g.AddShureController("a", "QLXD4", true, 0);
    InfoFields(1, "QLXD4", 0);
    assert g.shureCtrls == map["a" := InfoOf(1, "QLXD4", 0)];
    var stale := g.StaleAddrs(now);
    assert "a" in stale by {
      OneIsStale(g.shureCtrls, "a", now);
    }
    added := g.AddShureController("a", "QLXD4", true, now);
    seen := g.shureCtrls["a"].lastSeen;
    g.RemoveStale(stale);
  }

  lemma OneIsStale(infos: map<string, DeviceInfo>, addr: string, now: nat)
    requires addr in infos && now - infos[addr].lastSeen > PATIENCE
    ensures addr in StaleAt(infos, now)
  {
  }
}
