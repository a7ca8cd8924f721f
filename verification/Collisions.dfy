/** When the identifiers of all receivers together are distinct. */
module Collisions {
  import opened Text
  import opened BlockGraph
  import opened RolePaths
  import opened Forests
  import opened ShureModels
  import opened DeviceLayout

  predicate Qlxd(model: string) {
    DetectModelFamily(model) == QLXD
  }

  /** When the receiver at place `j` and one at a later place `i` share an identifier: the later one's
      QLX-D device workers meet the earlier one's nested blocks, its device block or a channel block meets
      the earlier one's device or channel workers, or meets the earlier one's nested blocks and workers. */
  predicate Clash(j: nat, earlier: string, i: nat, later: string) {
    || (Qlxd(later) && Qlxd(earlier) && i == 91 + 10 * j)
    || (Qlxd(earlier) && i == 990 + 100 * j)
    || (exists c: nat :: 1 <= c <= MaxChannelsFromModel(earlier) && i == 990 + 100 * j + 10 * c)
    || (Qlxd(earlier) && 10090 + 1000 * j <= i <= 10093 + 1000 * j)
  }

  ghost predicate Share(j: nat, earlier: string, i: nat, later: string) {
    exists x :: Owns(j, earlier, x) && Owns(i, later, x)
  }

  lemma ChannelOwned(index: nat, model: string, c: nat, x: int)
    requires 1 <= c <= MaxChannelsFromModel(model) && ChannelOwns(DetectModelFamily(model), DeviceOid(index), c, x)
    ensures Owns(index, model, x)
  {
  }

  /** The closed form without the quantifier: which channel, if any. */
  lemma OwnsCases(index: nat, model: string, x: int) returns (c: nat)
    requires Owns(index, model, x)
    ensures c <= MaxChannelsFromModel(model)
    ensures c == 0 ==>
              x == DeviceOid(index) || (Qlxd(model) && DeviceOid(index) * 100 <= x < DeviceOid(index) * 100 + 4)
    ensures c > 0 ==> ChannelOwns(DetectModelFamily(model), DeviceOid(index), c, x)
    ensures c > 1 ==> !Qlxd(model)
  {
    var family, device := DetectModelFamily(model), DeviceOid(index);
    if x == device || (family.QLXD? && device * 100 <= x < device * 100 + 4) {
      c := 0;
    } else {
      c :| 1 <= c <= MaxChannelsFromModel(model) && ChannelOwns(family, device, c, x);
    }
  }

  /** Where an identifier lies tells its level: a block of a device or channel, a worker of one, or nested. */
  datatype Level = OfBlock | OfWorker | OfNested

  function Base(level: Level, oid: int): int {
    match level
    case OfBlock => oid
    case OfWorker => oid * 100
    case OfNested => oid * 1000
  }

  predicate InLevel(level: Level, offset: int) {
    match level
    case OfBlock => offset == 0
    case OfWorker => 0 <= offset < 7
    case OfNested => NestedOwns(0, offset)
  }

  /** An owned identifier is an offset from a scaled block identifier. */
  lemma OwnsLevel(index: nat, model: string, x: int) returns (level: Level, c: nat)
    requires Owns(index, model, x)
    ensures c <= MaxChannelsFromModel(model) && InLevel(level, x - Base(level, DeviceOid(index) + c))
    ensures level.OfWorker? && c == 0 ==> Qlxd(model) && x - Base(level, DeviceOid(index)) < 4
    ensures level.OfNested? ==> c == 1 && Qlxd(model)
    ensures Qlxd(model) ==> c <= 1 && (level.OfWorker? ==> x - Base(level, DeviceOid(index) + c) < 4)
  {
    hide DetectModelFamily, MaxChannelsFromModel;
    var family, device := DetectModelFamily(model), DeviceOid(index);
    c := OwnsCases(index, model, x);
    if x == device + c {
      level := OfBlock;
    } else if (device + c) * 100 <= x < (device + c) * 100 + 7 && (c > 0 || family.QLXD?) {
      level := OfWorker;
    } else {
      level := OfNested;
    }
  }

  lemma ShareMeansClash(j: nat, earlier: string, i: nat, later: string, x: int)
    requires 1 <= j < i && Owns(j, earlier, x) && Owns(i, later, x)
    ensures Clash(j, earlier, i, later)
  {
    hide DetectModelFamily, MaxChannelsFromModel, Owns;
    var le, ce := OwnsLevel(j, earlier, x);
    var ll, cl := OwnsLevel(i, later, x);
    assert ce <= 4 && cl <= 4;
    match (ll, le) {
      case (OfBlock, OfBlock) => assert false;
      case (OfBlock, OfWorker) => BlockMeetsWorker(j, i, ce, cl, x);
      case (OfBlock, OfNested) => BlockMeetsNested(j, i, cl, x);
      case (OfWorker, OfBlock) => assert false;
      case (OfWorker, OfWorker) => assert false;
      case (OfWorker, OfNested) => WorkerMeetsNested(j, i, cl, x);
      case (OfNested, OfBlock) => assert false;
      case (OfNested, OfWorker) => assert false;
      case (OfNested, OfNested) => assert false;
    }
  }

  lemma BlockMeetsWorker(j: nat, i: nat, ce: nat, cl: nat, x: int)
    requires ce <= 4 && cl <= 4
    requires x == DeviceOid(i) + cl && 0 <= x - (DeviceOid(j) + ce) * 100 < 7
    ensures i == 990 + 100 * j + 10 * ce
  {
    assert 10 * (i - 990 - 100 * j - 10 * ce) == x - (DeviceOid(j) + ce) * 100 - cl;
  }

  lemma BlockMeetsNested(j: nat, i: nat, cl: nat, x: int)
    requires cl <= 4 && x == DeviceOid(i) + cl && NestedOwns(0, x - (DeviceOid(j) + 1) * 1000)
    ensures 10090 + 1000 * j <= i <= 10093 + 1000 * j
  {
    assert 10 * (i - 10090 - 1000 * j) == x - (DeviceOid(j) + 1) * 1000 - cl;
  }

  lemma WorkerMeetsNested(j: nat, i: nat, cl: nat, x: int)
    requires cl <= 4 && 0 <= x - (DeviceOid(i) + cl) * 100 < 7 && NestedOwns(0, x - (DeviceOid(j) + 1) * 1000)
    ensures cl == 0 && i == 91 + 10 * j
  {
    assert 100 * (10 * (i - 91 - 10 * j) + cl)
        == (x - (DeviceOid(j) + 1) * 1000) - (x - (DeviceOid(i) + cl) * 100);
  }

  /** An identifier the two receivers share, given a clash. */
  lemma ClashMeansShare(j: nat, earlier: string, i: nat, later: string) returns (x: int)
    requires 1 <= j < i && Clash(j, earlier, i, later)
    ensures Owns(j, earlier, x) && Owns(i, later, x)
  {
    hide DetectModelFamily, MaxChannelsFromModel;
    if Qlxd(later) && Qlxd(earlier) && i == 91 + 10 * j {
      x := DeviceOid(i) * 100 + 1;
      ChannelOwned(j, earlier, 1, x);
    } else if Qlxd(earlier) && i == 990 + 100 * j {
      x := DeviceOid(i);
    } else if Qlxd(earlier) && 10090 + 1000 * j <= i <= 10093 + 1000 * j {
      x := if i == 10090 + 1000 * j then DeviceOid(i) + 1 else DeviceOid(i);
      ChannelOwned(j, earlier, 1, x);
      if i == 10090 + 1000 * j {
        ChannelOwned(i, later, 1, x);
      }
    } else {
      var c: nat :| 1 <= c <= MaxChannelsFromModel(earlier) && i == 990 + 100 * j + 10 * c;
      x := DeviceOid(i);
      ChannelOwned(j, earlier, c, x);
    }
  }

  /** Two receivers share an identifier exactly when their places clash. */
  lemma ShareIffClash(j: nat, earlier: string, i: nat, later: string)
    requires 1 <= j < i
    ensures Share(j, earlier, i, later) <==> Clash(j, earlier, i, later)
  {
    if Share(j, earlier, i, later) {
      var x :| Owns(j, earlier, x) && Owns(i, later, x);
      ShareMeansClash(j, earlier, i, later, x);
    }
    if Clash(j, earlier, i, later) {
      var x := ClashMeansShare(j, earlier, i, later);
    }
  }

  /** When the device block of a receiver at place `i` gets an identifier of one at an earlier place `j`. */
  predicate BlockClash(j: nat, earlier: string, i: nat) {
    || (Qlxd(earlier) && i == 990 + 100 * j)
    || (exists c: nat :: 1 <= c <= MaxChannelsFromModel(earlier) && i == 990 + 100 * j + 10 * c)
    || (Qlxd(earlier) && 10091 + 1000 * j <= i <= 10093 + 1000 * j)
  }

  lemma BlockOwnedIff(j: nat, earlier: string, i: nat)
    requires 1 <= j < i
    ensures Owns(j, earlier, DeviceOid(i)) <==> BlockClash(j, earlier, i)
  {
    if Owns(j, earlier, DeviceOid(i)) {
      BlockOwnedClash(j, earlier, i);
    }
    if BlockClash(j, earlier, i) {
      BlockClashOwned(j, earlier, i);
    }
  }

  lemma BlockOwnedClash(j: nat, earlier: string, i: nat)
    requires 1 <= j < i && Owns(j, earlier, DeviceOid(i))
    ensures BlockClash(j, earlier, i)
  {
    hide DetectModelFamily, MaxChannelsFromModel, Owns;
    var x := DeviceOid(i);
    var level, c := OwnsLevel(j, earlier, x);
    assert c <= 4;
    match level
    case OfBlock => assert false;
    case OfWorker => BlockMeetsWorker(j, i, c, 0, x);
    case OfNested => DeviceMeetsNested(j, i, x);
  }

  lemma DeviceMeetsNested(j: nat, i: nat, x: int)
    requires x == DeviceOid(i) && NestedOwns(0, x - (DeviceOid(j) + 1) * 1000)
    ensures 10091 + 1000 * j <= i <= 10093 + 1000 * j
  {
    assert 10 * (i - 10090 - 1000 * j) == x - (DeviceOid(j) + 1) * 1000;
  }

  lemma BlockClashOwned(j: nat, earlier: string, i: nat)
    requires 1 <= j < i && BlockClash(j, earlier, i)
    ensures Owns(j, earlier, DeviceOid(i))
  {
    hide DetectModelFamily, MaxChannelsFromModel;
    var x := DeviceOid(i);
    if Qlxd(earlier) && 10091 + 1000 * j <= i <= 10093 + 1000 * j {
      ChannelOwned(j, earlier, 1, x);
    } else if !(Qlxd(earlier) && i == 990 + 100 * j) {
      var c: nat :| 1 <= c <= MaxChannelsFromModel(earlier) && i == 990 + 100 * j + 10 * c;
      ChannelOwned(j, earlier, c, x);
    }
  }

  // ---------------------------------------------------------------- all receivers

  /** The receivers added so far, in order of arrival. */
  function DeviceForests(models: seq<string>): Forest {
    if models == [] then Nil
    else Plus(DeviceForests(models[..|models| - 1]), DeviceForest(|models|, models[|models| - 1]))
  }

  const MANAGERS: Forest :=
    Twig(Descriptor("DeviceManager", DEVICE_MANAGER, true, [1, 3, 1], "Device Manager", None), None,
    Twig(Descriptor("ClassManager", CLASS_MANAGER, true, [1, 3, 2], "Class Manager", None), None, Nil))

  const ROOT_DESC: Descriptor := BlockDesc(ROOT, "Root", "Root Block")

  function SiteKids(models: seq<string>): Forest {
    Plus(MANAGERS, DeviceForests(models))
  }

  /** Everything registered: the root block with the two managers and the receivers. */
  function SiteForest(models: seq<string>): Forest {
    Limb(ROOT_DESC, SiteKids(models), Nil)
  }

  predicate ClashFree(models: seq<string>) {
    forall i, j :: 0 <= j < i < |models| ==> !Clash(j + 1, models[j], i + 1, models[i])
  }

  lemma {:induction false} ForestsOids(models: seq<string>, x: int)
    ensures x in Oids(DeviceForests(models)) <==> exists k :: 0 <= k < |models| && Owns(k + 1, models[k], x)
  {
    hide DeviceForest, Owns, Oids;
    var n := |models| - 1;
    if models == [] {
      NilOids();
    } else {
      ForestsOids(models[..n], x);
      DeviceOids(n + 1, models[n]);
      PlusOids(DeviceForests(models[..n]), DeviceForest(n + 1, models[n]));
      if x in Oids(DeviceForests(models[..n])) {
        var k :| 0 <= k < n && Owns(k + 1, models[..n][k], x);
        assert Owns(k + 1, models[k], x);
      }
      if k :| 0 <= k < |models| && Owns(k + 1, models[k], x) {
        if k < n {
          assert Owns(k + 1, models[..n][k], x);
        }
      }
    }
  }

  predicate NewestFree(models: seq<string>) {
    var n := |models| - 1;
    forall j :: 0 <= j < n ==> !Clash(j + 1, models[j], n + 1, models[n])
  }

  lemma NewestApart(models: seq<string>)
    requires models != []
    ensures var n := |models| - 1;
            Apart(Oids(DeviceForests(models[..n])), Oids(DeviceForest(n + 1, models[n]))) <==> NewestFree(models)
  {
    hide DeviceForest, DeviceForests, Oids, Owns, Clash;
    var n := |models| - 1;
    var before, here := Oids(DeviceForests(models[..n])), Oids(DeviceForest(n + 1, models[n]));
    DeviceOids(n + 1, models[n]);
    if NewestFree(models) {
      forall x | x in before && x in here
        ensures false
      {
        ForestsOids(models[..n], x);
        var k :| 0 <= k < n && Owns(k + 1, models[..n][k], x);
        assert Share(k + 1, models[k], n + 1, models[n]);
        ShareIffClash(k + 1, models[k], n + 1, models[n]);
      }
      ApartByMembers(before, here);
    }
    if Apart(before, here) {
      forall j | 0 <= j < n
        ensures !Clash(j + 1, models[j], n + 1, models[n])
      {
        if Clash(j + 1, models[j], n + 1, models[n]) {
          var x := ClashMeansShare(j + 1, models[j], n + 1, models[n]);
          assert models[..n][j] == models[j];
          ForestsOids(models[..n], x);
          ApartMember(before, here, x);
        }
      }
    }
  }

  lemma ClashFreeStep(models: seq<string>)
    requires models != []
    ensures ClashFree(models) <==> ClashFree(models[..|models| - 1]) && NewestFree(models)
  {
    hide Clash;
    var n := |models| - 1;
    if ClashFree(models[..n]) && NewestFree(models) {
      forall i, j | 0 <= j < i < |models|
        ensures !Clash(j + 1, models[j], i + 1, models[i])
      {
        if i < n {
          assert models[..n][i] == models[i] && models[..n][j] == models[j];
        }
      }
    }
  }

  lemma {:induction false} ForestsDistinct(models: seq<string>)
    ensures NoRepeat(Oids(DeviceForests(models))) <==> ClashFree(models)
  {
    if models == [] {
      NilOids();
    } else {
      hide DeviceForest, Oids, NoRepeat, Apart, ClashFree, NewestFree;
      var n := |models| - 1;
      var before, here := DeviceForests(models[..n]), DeviceForest(n + 1, models[n]);
      ForestsDistinct(models[..n]);
      DeviceOids(n + 1, models[n]);
      PlusOids(before, here);
      NoRepeatSum(Oids(before), Oids(here));
      NewestApart(models);
      ClashFreeStep(models);
    }
  }

  lemma AboveReserved(index: nat, model: string, x: int)
    requires Owns(index, model, x)
    ensures x >= 100
  {
  }

  lemma ManagerOids()
    ensures Oids(MANAGERS) == [DEVICE_MANAGER, CLASS_MANAGER] && Tops(MANAGERS) == Oids(MANAGERS)
  {
  }

  lemma LimbAlone(d: Descriptor, kids: Forest)
    ensures Oids(Limb(d, kids, Nil)) == [d.oid] + Oids(kids) && Tops(Limb(d, kids, Nil)) == [d.oid]
  {
  }

  lemma SiteParts(models: seq<string>)
    ensures Oids(SiteForest(models)) == [ROOT, DEVICE_MANAGER, CLASS_MANAGER] + Oids(DeviceForests(models))
    ensures Tops(SiteForest(models)) == [ROOT]
  {
    hide Oids, Tops, DeviceForests;
    PlusOids(MANAGERS, DeviceForests(models));
    ManagerOids();
    LimbAlone(ROOT_DESC, SiteKids(models));
    assert [ROOT] + ([DEVICE_MANAGER, CLASS_MANAGER] + Oids(DeviceForests(models)))
        == [ROOT, DEVICE_MANAGER, CLASS_MANAGER] + Oids(DeviceForests(models));
  }

  /** For every list of receivers, all identifiers with the three reserved ones are pairwise distinct
      exactly when no two places clash. */
  lemma AllDistinctIffClashFree(models: seq<string>)
    ensures NoRepeat(Oids(SiteForest(models))) <==> ClashFree(models)
  {
    hide Oids, DeviceForests;
    SiteParts(models);
    ForestsDistinct(models);
    var reserved, devices := [ROOT, DEVICE_MANAGER, CLASS_MANAGER], Oids(DeviceForests(models));
    forall x | x in reserved && x in devices
      ensures false
    {
      ForestsOids(models, x);
      var k :| 0 <= k < |models| && Owns(k + 1, models[k], x);
      AboveReserved(k + 1, models[k], x);
    }
    ApartByMembers(reserved, devices);
    NoRepeatSum(reserved, devices);
  }

  /** Up to a hundred receivers of any models never clash. */
  lemma HundredAreDistinct(models: seq<string>)
    requires |models| <= 100
    ensures NoRepeat(Oids(SiteForest(models)))
  {
    hide Oids;
    AllDistinctIffClashFree(models);
  }

  lemma ClashUpTo101(j: nat, earlier: string, i: nat, later: string)
    requires 1 <= j < i <= 101
    ensures Clash(j, earlier, i, later) <==> Qlxd(earlier) && Qlxd(later) && j == 1 && i == 101
  {
  }

  /** With a hundred and one it depends on the models: only QLX-D first and last clash, in 111001. */
  lemma HundredAndOne(models: seq<string>)
    requires |models| == 101
    ensures NoRepeat(Oids(SiteForest(models))) <==> !(Qlxd(models[0]) && Qlxd(models[100]))
    ensures Qlxd(models[0]) && Qlxd(models[100]) ==> Owns(1, models[0], 111001) && Owns(101, models[100], 111001)
  {
    hide Oids, MaxChannelsFromModel, DetectModelFamily, Clash, NoRepeat;
    AllDistinctIffClashFree(models);
    forall i, j | 0 <= j < i < |models|
      ensures Clash(j + 1, models[j], i + 1, models[i]) <==> Qlxd(models[j]) && Qlxd(models[i]) && j == 0 && i == 100
    {
      ClashUpTo101(j + 1, models[j], i + 1, models[i]);
    }
    if Qlxd(models[0]) && Qlxd(models[100]) {
      assert Clash(0 + 1, models[0], 100 + 1, models[100]);
      ChannelOwned(1, models[0], 1, 111001);
    }
  }
}
