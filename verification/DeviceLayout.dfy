/** The control objects the gateway makes for one receiver: which, under which identifiers, in which tree. */
module DeviceLayout {
  import opened Text
  import opened BlockGraph
  import opened RolePaths
  import opened Forests
  import opened ShureModels

  const ROOT: int := 1
  const DEVICE_MANAGER: int := 2
  const CLASS_MANAGER: int := 3

  /** Where a worker sits: in the device block, in a channel block, or in a named block of a channel. */
  datatype Scope = WholeDevice | Channel(channel: nat) | Nested(channel: nat, block: string) {
    function Label(name: string): string {
      match this
      case WholeDevice => name
      case Channel(c) => "Ch" + Itoa(c) + " " + name
      case Nested(c, b) => "Ch" + Itoa(c) + " " + b + " " + name
    }

    /** The key under which reports of a parameter are routed. */
    function Key(param: string): string {
      if WholeDevice? then param else Itoa(channel) + "_" + param
    }
  }

  /** A worker, tied to its device parameter. */
  datatype Tie = Tie(oid: int, scope: Scope, config: WorkerConfig) {
    function Key(): string {
      scope.Key(config.param)
    }

    function Setter(): Option<Setter> {
      if config.readOnly then None
      else Some(BlockGraph.Setter(if scope.WholeDevice? then None else Some(scope.channel as int), config.param))
    }

    function Desc(): Descriptor {
      Descriptor(config.name, oid, true, config.ClassId(), scope.Label(config.name), None)
    }
  }

  /** One worker per table entry, numbered from a base. */
  function Ties(scope: Scope, configs: seq<WorkerConfig>, base: int): seq<Tie> {
    seq(|configs|, k requires 0 <= k < |configs| => Tie(base + k, scope, configs[k]))
  }

  function Twigs(ties: seq<Tie>): Forest {
    if ties == [] then Nil else Twig(ties[0].Desc(), ties[0].Setter(), Twigs(ties[1..]))
  }

  function BlockDesc(oid: int, role: string, name: string): Descriptor {
    Descriptor(role, oid, true, [1, 1], name, None)
  }

  function DeviceOid(index: nat): int {
    100 + index * 10
  }

  function ChannelTies(family: Family, device: int, c: nat): seq<Tie> {
    Ties(Channel(c), ChannelWorkersConfig(family), (device + c) * 100)
  }

  function GainTies(device: int, c: nat): seq<Tie> {
    Ties(Channel(c), GAIN_WORKERS, (device + c) * 1000 + 10)
  }

  function BatteryTies(device: int, c: nat): seq<Tie> {
    Ties(Nested(c, "Battery"), BATTERY_WORKERS, (device + c) * 1000 + 20)
  }

  function TransmitterTies(device: int, c: nat): seq<Tie> {
    Ties(Nested(c, "Transmitter"), TRANSMITTER_WORKERS, (device + c) * 1000 + 30)
  }

  function DeviceTies(family: Family, device: int): seq<Tie> {
    if family.QLXD? then Ties(WholeDevice, DEVICE_WORKERS, device * 100) else []
  }

  /** The blocks nested in a QLX-D channel. */
  function NestedForest(device: int, c: nat): Forest {
    var base, ch := (device + c) * 1000, "Ch" + Itoa(c);
    Limb(BlockDesc(base + 1, "AudioGain", ch + " AudioGain"), Twigs(GainTies(device, c)),
    Limb(BlockDesc(base + 2, "Battery", ch + " Battery"), Twigs(BatteryTies(device, c)),
    Limb(BlockDesc(base + 3, "Transmitter", ch + " Transmitter"), Twigs(TransmitterTies(device, c)), Nil)))
  }

  function ChannelDesc(device: int, c: nat): Descriptor {
    BlockDesc(device + c, "Channel" + Itoa(c), "Channel " + Itoa(c))
  }

  function ChannelKids(family: Family, device: int, c: nat): Forest {
    Plus(Twigs(ChannelTies(family, device, c)), if family.QLXD? then NestedForest(device, c) else Nil)
  }

  /** All workers of a channel. */
  function AllChannelTies(family: Family, device: int, c: nat): seq<Tie> {
    ChannelTies(family, device, c) +
    (if family.QLXD? then GainTies(device, c) + BatteryTies(device, c) + TransmitterTies(device, c) else [])
  }

  /** All workers of a receiver with `n` channels. */
  function AllTies(family: Family, device: int, n: nat): seq<Tie> {
    if n == 0 then DeviceTies(family, device)
    else AllTies(family, device, n - 1) + AllChannelTies(family, device, n)
  }

  function ChannelForest(family: Family, device: int, c: nat): Forest {
    Limb(ChannelDesc(device, c), ChannelKids(family, device, c), Nil)
  }

  /** The blocks of channels 1 to `n`. */
  function ChannelForests(family: Family, device: int, n: nat): Forest {
    if n == 0 then Nil else Plus(ChannelForests(family, device, n - 1), ChannelForest(family, device, n))
  }

  function DeviceKids(family: Family, device: int, n: nat): Forest {
    Plus(Twigs(DeviceTies(family, device)), ChannelForests(family, device, n))
  }

  /** All of a receiver's objects, given its place in the order of arrival (from 1) and its model name. */
  function DeviceForest(index: nat, model: string): Forest {
    Limb(BlockDesc(DeviceOid(index), "Device", model),
         DeviceKids(DetectModelFamily(model), DeviceOid(index), MaxChannelsFromModel(model)), Nil)
  }

  // ---------------------------------------------------------------- who owns which identifier

  predicate NestedOwns(base: int, x: int) {
    base + 1 <= x <= base + 3 || x == base + 10 || base + 20 <= x < base + 28 || base + 30 <= x < base + 39
  }

  predicate ChannelOwns(family: Family, device: int, c: int, x: int) {
    || x == device + c
    || (device + c) * 100 <= x < (device + c) * 100 + (if family.QLXD? then 4 else 7)
    || (family.QLXD? && NestedOwns((device + c) * 1000, x))
  }

  /** The identifiers of the receiver at one place, in closed form. */
  predicate Owns(index: nat, model: string, x: int) {
    var family, device := DetectModelFamily(model), DeviceOid(index);
    || x == device
    || (family.QLXD? && device * 100 <= x < device * 100 + 4)
    || exists c :: 1 <= c <= MaxChannelsFromModel(model) && ChannelOwns(family, device, c, x)
  }

  function TieOids(ties: seq<Tie>): seq<int> {
    seq(|ties|, k requires 0 <= k < |ties| => ties[k].oid)
  }

  lemma {:induction false} TwigOids(ties: seq<Tie>)
    ensures Oids(Twigs(ties)) == TieOids(ties) && Tops(Twigs(ties)) == TieOids(ties)
  {
    if ties != [] {
      TwigOids(ties[1..]);
      assert TieOids(ties) == [ties[0].oid] + TieOids(ties[1..]);
    }
  }

  lemma RunOids(scope: Scope, configs: seq<WorkerConfig>, base: int, x: int)
    ensures x in Oids(Twigs(Ties(scope, configs, base))) <==> base <= x < base + |configs|
    ensures NoRepeat(Oids(Twigs(Ties(scope, configs, base))))
  {
    var ties := Ties(scope, configs, base);
    TwigOids(ties);
    if base <= x < base + |configs| {
      assert Oids(Twigs(ties))[x - base] == x;
    }
  }

  lemma ApartByMembers(a: seq<int>, b: seq<int>)
    requires forall x :: x in a && x in b ==> false
    ensures Apart(a, b)
  {
    forall i, j | 0 <= i < |a| && 0 <= j < |b|
      ensures a[i] != b[j]
    {
      assert a[i] in a && b[j] in b;
    }
  }

  /** A limb's identifiers: its own, its kids', its siblings'. */
  lemma LimbOids(f: Forest, x: int)
    requires f.Limb?
    ensures x in Oids(f) <==> x == f.desc.oid || x in Oids(f.kids) || x in Oids(f.rest)
  {
  }

  lemma LimbDistinct(f: Forest)
    requires f.Limb? && NoRepeat(Oids(f.kids)) && NoRepeat(Oids(f.rest))
    requires f.desc.oid !in Oids(f.kids) && f.desc.oid !in Oids(f.rest)
    requires forall x :: x in Oids(f.kids) && x in Oids(f.rest) ==> false
    ensures NoRepeat(Oids(f))
  {
    var own := [f.desc.oid];
    ApartByMembers(own, Oids(f.kids));
    NoRepeatSum(own, Oids(f.kids));
    ApartByMembers(own + Oids(f.kids), Oids(f.rest));
    NoRepeatSum(own + Oids(f.kids), Oids(f.rest));
  }

  lemma NestedOids(device: int, c: nat)
    ensures forall x :: x in Oids(NestedForest(device, c)) <==> NestedOwns((device + c) * 1000, x)
    ensures NoRepeat(Oids(NestedForest(device, c)))
  {
    hide Ties, Oids, Twigs, NoRepeat;
    var f := NestedForest(device, c);
    forall x
      ensures x in Oids(f.kids) <==> x == (device + c) * 1000 + 10
      ensures x in Oids(f.rest.kids) <==> (device + c) * 1000 + 20 <= x < (device + c) * 1000 + 28
      ensures x in Oids(f.rest.rest.kids) <==> (device + c) * 1000 + 30 <= x < (device + c) * 1000 + 39
    {
      RunOids(Channel(c), GAIN_WORKERS, (device + c) * 1000 + 10, x);
      RunOids(Nested(c, "Battery"), BATTERY_WORKERS, (device + c) * 1000 + 20, x);
      RunOids(Nested(c, "Transmitter"), TRANSMITTER_WORKERS, (device + c) * 1000 + 30, x);
    }
    RunOids(Channel(c), GAIN_WORKERS, (device + c) * 1000 + 10, 0);
    RunOids(Nested(c, "Battery"), BATTERY_WORKERS, (device + c) * 1000 + 20, 0);
    RunOids(Nested(c, "Transmitter"), TRANSMITTER_WORKERS, (device + c) * 1000 + 30, 0);
    NilOids();
    forall x
      ensures x in Oids(f) <==> NestedOwns((device + c) * 1000, x)
    {
      LimbOids(f, x);
      LimbOids(f.rest, x);
      LimbOids(f.rest.rest, x);
    }
    forall x
      ensures x in Oids(f.rest) <==> x == f.rest.desc.oid || x in Oids(f.rest.kids) || x in Oids(f.rest.rest)
      ensures x in Oids(f.rest.rest) <==> x == f.rest.rest.desc.oid || x in Oids(f.rest.rest.kids)
    {
      LimbOids(f.rest, x);
      LimbOids(f.rest.rest, x);
    }
    LimbDistinct(f.rest.rest);
    LimbDistinct(f.rest);
    LimbDistinct(f);
  }

  lemma NilOids()
    ensures Oids(Nil) == [] && NoRepeat(Oids(Nil))
  {
  }

  lemma PlusDistinct(a: Forest, b: Forest)
    requires NoRepeat(Oids(a)) && NoRepeat(Oids(b)) && forall x :: x in Oids(a) && x in Oids(b) ==> false
    ensures NoRepeat(Oids(Plus(a, b)))
    ensures forall x :: x in Oids(Plus(a, b)) <==> x in Oids(a) || x in Oids(b)
  {
    PlusOids(a, b);
    ApartByMembers(Oids(a), Oids(b));
    NoRepeatSum(Oids(a), Oids(b));
  }

  /** A channel's identifiers are the ones it owns, each once. */
  lemma ChannelOids(family: Family, device: int, c: nat)
    requires 110 <= device && 1 <= c <= 4
    ensures forall x :: x in Oids(ChannelForest(family, device, c)) <==> ChannelOwns(family, device, c, x)
    ensures NoRepeat(Oids(ChannelForest(family, device, c)))
  {
    hide Oids, Twigs, NoRepeat, NestedForest, Ties;
    var f := ChannelForest(family, device, c);
    var workers, nested := Twigs(ChannelTies(family, device, c)), if family.QLXD? then NestedForest(device, c) else Nil;
    forall x
      ensures x in Oids(workers) <==>
                (device + c) * 100 <= x < (device + c) * 100 + (if family.QLXD? then 4 else 7)
    {
      RunOids(Channel(c), ChannelWorkersConfig(family), (device + c) * 100, x);
    }
    RunOids(Channel(c), ChannelWorkersConfig(family), (device + c) * 100, 0);
    NestedOids(device, c);
    NilOids();
    PlusDistinct(workers, nested);
    LimbDistinct(f);
    forall x
      ensures x in Oids(f) <==> ChannelOwns(family, device, c, x)
    {
      LimbOids(f, x);
    }
  }

  lemma ChannelsApart(family: Family, device: int, c: nat, d: nat, x: int)
    requires 110 <= device && 1 <= c < d <= 4
    ensures !(ChannelOwns(family, device, c, x) && ChannelOwns(family, device, d, x))
  {
  }

  lemma {:induction false} ChannelsOids(family: Family, device: int, n: nat)
    requires 110 <= device && n <= 4
    ensures forall x :: x in Oids(ChannelForests(family, device, n)) <==>
                          exists c :: 1 <= c <= n && ChannelOwns(family, device, c, x)
    ensures NoRepeat(Oids(ChannelForests(family, device, n)))
  {
    hide ChannelForest, ChannelOwns, NoRepeat;
    if n == 0 {
      NilOids();
    } else {
      hide Oids;
      ChannelsOids(family, device, n - 1);
      ChannelOids(family, device, n);
      var before, here := ChannelForests(family, device, n - 1), ChannelForest(family, device, n);
      forall x | x in Oids(before) && x in Oids(here)
        ensures false
      {
        var c :| 1 <= c <= n - 1 && ChannelOwns(family, device, c, x);
        ChannelsApart(family, device, c, n, x);
      }
      PlusDistinct(before, here);
    }
  }

  /** A receiver's identifiers are the ones it owns, each once. */
  lemma DeviceOids(index: nat, model: string)
    requires index >= 1
    ensures forall x :: x in Oids(DeviceForest(index, model)) <==> Owns(index, model, x)
    ensures NoRepeat(Oids(DeviceForest(index, model)))
  {
    hide Oids, Twigs, NoRepeat, Ties, ChannelForests, ChannelOwns, DetectModelFamily, MaxChannelsFromModel;
    var f, family, device, n := DeviceForest(index, model), DetectModelFamily(model), DeviceOid(index),
        MaxChannelsFromModel(model);
    var workers, channels := Twigs(DeviceTies(family, device)), ChannelForests(family, device, n);
    forall x
      ensures x in Oids(workers) <==> family.QLXD? && device * 100 <= x < device * 100 + 4
    {
      RunOids(WholeDevice, DEVICE_WORKERS, device * 100, x);
      NoTwigs();
      NilOids();
    }
    RunOids(WholeDevice, DEVICE_WORKERS, device * 100, 0);
    NoTwigs();
    NilOids();
    ChannelsOids(family, device, n);
    forall c, x | 1 <= c <= n && ChannelOwns(family, device, c, x)
      ensures x != device && !(device * 100 <= x < device * 100 + 4)
    {
      ChannelAboveDevice(family, device, c, x);
    }
    PlusDistinct(workers, channels);
    LimbDistinct(f);
    forall x
      ensures x in Oids(f) <==> Owns(index, model, x)
    {
      LimbOids(f, x);
    }
  }

  lemma NoTwigs()
    ensures Twigs([]) == Nil
  {
  }

  lemma ChannelAboveDevice(family: Family, device: int, c: nat, x: int)
    requires 110 <= device && 1 <= c <= 4 && ChannelOwns(family, device, c, x)
    ensures device < x && !(device * 100 <= x < device * 100 + 4)
  {
  }
}
