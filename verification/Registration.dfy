/** Registering with a registry that refuses references to what it does not have: eager registration of a
    receiver, registering everything again with an empty registry, and what the store must be like. */
module Registration {
  import opened Text
  import opened RolePaths
  import opened Resources
  import opened ShureModels

  /** What a registry has filed. */
  type Registry = map<Ref, Resource>

  predicate Accepts(reg: Registry, r: Resource) {
    forall k :: 0 <= k < |r.Parents()| ==> r.Parents()[k] in reg
  }

  function Post(reg: Registry, r: Resource): Registry {
    if Accepts(reg, r) then reg[r.Self() := r] else reg
  }

  function PostAll(reg: Registry, posts: seq<Resource>): Registry {
    if posts == [] then reg else Post(PostAll(reg, posts[..|posts| - 1]), posts[|posts| - 1])
  }

  predicate NoneRejected(reg: Registry, posts: seq<Resource>) {
    posts != [] ==>
      NoneRejected(reg, posts[..|posts| - 1]) && Accepts(PostAll(reg, posts[..|posts| - 1]), posts[|posts| - 1])
  }

  lemma {:induction false} PostSum(reg: Registry, a: seq<Resource>, b: seq<Resource>)
    ensures PostAll(reg, a + b) == PostAll(PostAll(reg, a), b)
    ensures NoneRejected(reg, a + b) <==> NoneRejected(reg, a) && NoneRejected(PostAll(reg, a), b)
  {
    if b == [] {
      assert a + b == a;
    } else {
      hide Post, Accepts;
      assert (a + b)[..|a + b| - 1] == a + b[..|b| - 1];
      PostSum(reg, a, b[..|b| - 1]);
    }
  }

  lemma {:induction false} PostsOnlyAdd(reg: Registry, posts: seq<Resource>, x: Ref)
    ensures x in reg ==> x in PostAll(reg, posts)
    ensures x in PostAll(reg, posts) && x !in reg ==> exists k :: 0 <= k < |posts| && posts[k].Self() == x
    ensures NoneRejected(reg, posts) ==> forall k :: 0 <= k < |posts| ==> posts[k].Self() in PostAll(reg, posts)
  {
    if posts != [] {
      var n := |posts| - 1;
      PostsOnlyAdd(reg, posts[..n], x);
      if x in PostAll(reg, posts) && x !in reg {
        if x in PostAll(reg, posts[..n]) {
          var k :| 0 <= k < n && posts[..n][k].Self() == x;
          assert posts[k].Self() == x;
        } else {
          assert posts[n].Self() == x;
        }
      }
      if NoneRejected(reg, posts) {
        forall k | 0 <= k < n
          ensures posts[k].Self() in PostAll(reg, posts)
        {
          assert posts[..n][k] == posts[k];
        }
      }
    }
  }

  // ---------------------------------------------------------------- posts in the background

  /** One sequence is an interleaving of two others, each kept in its order. */
  ghost predicate Merge(a: seq<Resource>, b: seq<Resource>, c: seq<Resource>)
    decreases |c|
  {
    if c == [] then a == [] && b == []
    else
      var last, rest := c[|c| - 1], c[..|c| - 1];
      || (a != [] && a[|a| - 1] == last && Merge(a[..|a| - 1], b, rest))
      || (b != [] && b[|b| - 1] == last && Merge(a, b[..|b| - 1], rest))
  }

  /** However the background posts of devices fall between the others, none is rejected that was not. */
  lemma {:induction false} BackgroundPostsAreHarmless(reg: Registry, a: seq<Resource>, b: seq<Resource>,
                                                      c: seq<Resource>)
    requires Merge(a, b, c) && NoneRejected(reg, a)
    requires forall k :: 0 <= k < |b| ==> b[k].Device? && Ref(Nodes, b[k].node) in reg
    ensures NoneRejected(reg, c)
    ensures forall x :: x in PostAll(reg, a) ==> x in PostAll(reg, c)
    decreases |c|
  {
    if c != [] {
      var last, rest := c[|c| - 1], c[..|c| - 1];
      if a != [] && a[|a| - 1] == last && Merge(a[..|a| - 1], b, rest) {
        BackgroundPostsAreHarmless(reg, a[..|a| - 1], b, rest);
      } else {
        BackgroundPostsAreHarmless(reg, a, b[..|b| - 1], rest);
        PostsOnlyAdd(reg, rest, Ref(Nodes, last.node));
      }
    }
  }

  // ---------------------------------------------------------------- eager registration of a receiver

  /** A metered parameter of a channel. */
  datatype Meter = Meter(channel: nat, param: string)

  function IdName(kind: string, device: string, m: Meter): string {
    kind + "-" + device + "-" + Itoa(m.channel) + "-" + m.param
  }

  ghost predicate Injective(derive: string -> string) {
    forall x, y :: derive(x) == derive(y) ==> x == y
  }

  function SenderId(derive: string -> string, device: string, m: Meter): string {
    derive(IdName("sender", device, m))
  }

  /** The source, flow and sender of a meter. */
  function Triple(derive: string -> string, device: string, m: Meter): seq<Resource> {
    var source, flow := derive(IdName("source", device, m)), derive(IdName("flow", device, m));
    [Source(source, device, m.param), Flow(flow, source, device, m.param),
     Sender(SenderId(derive, device, m), device, flow, m.param)]
  }

  function Triples(derive: string -> string, device: string, meters: seq<Meter>): seq<Resource> {
    if meters == [] then []
    else Triples(derive, device, meters[..|meters| - 1]) + Triple(derive, device, meters[|meters| - 1])
  }

  function SenderIds(derive: string -> string, device: string, meters: seq<Meter>): seq<string> {
    seq(|meters|, k requires 0 <= k < |meters| => SenderId(derive, device, meters[k]))
  }

  /** The first occurrences. */
  function Firsts(meters: seq<Meter>): seq<Meter> {
    if meters == [] then []
    else
      var before := Firsts(meters[..|meters| - 1]);
      if meters[|meters| - 1] in before then before else before + [meters[|meters| - 1]]
  }

  lemma {:induction false} FirstsDistinct(meters: seq<Meter>)
    ensures NoRepeat(Firsts(meters)) && forall m :: m in Firsts(meters) <==> m in meters
  {
    if meters != [] {
      var n := |meters| - 1;
      FirstsDistinct(meters[..n]);
      assert meters == meters[..n] + [meters[n]];
    }
  }

  /** The posts of devices that registrations, one after the other, start in the background. */
  function Started(s: Store, rs: seq<Resource>): seq<Resource> {
    if rs == [] then []
    else
      var n := |rs| - 1;
      var later := PostsOf(RegisteredAll(s, rs[..n]), rs[n]).later;
      Started(s, rs[..n]) + (if later.Some? then [later.value] else [])
  }

  lemma StartedOne(s: Store, rs: seq<Resource>, r: Resource)
    ensures var later := PostsOf(RegisteredAll(s, rs), r).later;
            Started(s, rs + [r]) == Started(s, rs) + (if later.Some? then [later.value] else [])
  {
    assert (rs + [r])[..|rs|] == rs;
  }

  /** Registering a receiver: the device, then source, flow and sender of each meter not registered yet. What is
      posted at once are these, in this order; `background` is what is posted some time later. */
  method RegisterReceiver(store: ResourceStore, derive: string -> string, device: Resource, meters: seq<Meter>)
    returns (posts: seq<Resource>, background: seq<Resource>)
    requires device.Device?
    modifies store
    ensures posts == [device] + Triples(derive, device.id, Firsts(meters))
    ensures store.resources == RegisteredAll(old(store.resources), posts)
    ensures background == Started(old(store.resources), posts)
  {
    hide Triple, Registered, Firsts, Triples, RegisteredAll, Started, PostsOf;
    var sourceIds: map<Meter, string> := map[];
    ghost var s, firsts := store.resources, [];
    var p := store.RegisterResource(Some(device));
    posts, background := [p.value.now], [];
    FirstStarted(s, device);
    RegisteredOne(s, [], device);
    NothingYet(s, derive, device.id);
    for k := 0 to |meters|
      invariant firsts == Firsts(meters[..k]) && posts == [device] + Triples(derive, device.id, firsts)
      invariant store.resources == RegisteredAll(s, posts) && background == Started(s, posts)
      invariant forall m :: m in sourceIds <==> m in firsts
    {
      var m := meters[k];
      FirstsStep(meters, k);
      if m !in sourceIds {
        sourceIds := sourceIds[m := derive(IdName("source", device.id, m))];
        TriplesStep(derive, device.id, firsts, m);
        var t, started := RegisterTriple(store, derive, device.id, m, s, posts);
        assert posts + t == [device] + (Triples(derive, device.id, firsts) + t);
        posts, background := posts + t, background + started;
        firsts := firsts + [m];
      }
    }
    assert meters[..|meters|] == meters;
  }

  lemma FirstStarted(s: Store, device: Resource)
    requires device.Device?
    ensures PostsOf(s, device).now == device && Started(s, [device]) == []
  {
    assert [device][..0] == [];
  }

  /** The parameters reported as events, by family. */
  function MeteredParams(family: Family): seq<string> {
    match family
    case AxientDigital =>
      ["CHAN_QUALITY", "AUDIO_LED_BITMAP", "AUDIO_LEVEL_PEAK", "AUDIO_LEVEL_RMS",
       "ANTENNA_A_ACTIVE", "ANTENNA_B_ACTIVE", "RF_LED_BITMAP_A", "RF_RSSI_A",
       "RF_LED_BITMAP_B", "RF_RSSI_B", "RF_LED_BITMAP_C", "RF_RSSI_C",
       "RF_LED_BITMAP_D", "RF_RSSI_D", "RF_LED_BITMAP_F1", "RF_RSSI_F1", "RF_LED_BITMAP_F2", "RF_RSSI_F2"]
    case ULXD => ["ANTENNA_A_ACTIVE", "ANTENNA_B_ACTIVE", "RF_LEVEL", "AUDIO_LVL"]
    case QLXD => ["ANTENNA_A_ACTIVE", "ANTENNA_B_ACTIVE", "RF_LEVEL", "AUDIO_LVL"]
    case SLXD => ["AUDIO_LEVEL_PEAK", "AUDIO_LEVEL_RMS", "RF_RSSI"]
    case SLXDPlus => ["AUDIO_LEVEL_PEAK", "AUDIO_LEVEL_RMS", "RF_RSSI"]
  }

  function ChannelMeters(channel: nat, params: seq<string>): seq<Meter> {
    seq(|params|, k requires 0 <= k < |params| => Meter(channel, params[k]))
  }

  /** The meters of a receiver's first `n` channels, in order. */
  function Meters(family: Family, n: nat): seq<Meter> {
    if n == 0 then [] else Meters(family, n - 1) + ChannelMeters(n, MeteredParams(family))
  }

  /** The device a receiver is to the node. */
  function DeviceFor(derive: string -> string, node: string, address: string, model: string): Resource {
    Device(derive("device-" + address), node, [], [], model)
  }

  /** Each of the receiver's channels has each parameter of its family's, and there are no others. */
  lemma {:induction false} MetersIff(family: Family, n: nat, m: Meter)
    ensures m in Meters(family, n) <==> 1 <= m.channel <= n && m.param in MeteredParams(family)
  {
    hide MeteredParams;
    if n > 0 {
      MetersIff(family, n - 1, m);
      var params := MeteredParams(family);
      if m.channel == n && m.param in params {
        var k :| 0 <= k < |params| && params[k] == m.param;
        assert ChannelMeters(n, params)[k] == m;
      }
      assert forall k :: 0 <= k < |params| ==> params[k] in params;
    }
  }

  /** Registering a connected receiver: its device, then everything its model meters, channel by channel. */
  method RegisterModel(store: ResourceStore, derive: string -> string, node: string, address: string, model: string)
    returns (posts: seq<Resource>, background: seq<Resource>)
    modifies store
    ensures var device := DeviceFor(derive, node, address, model);
            var meters := Firsts(Meters(DetectModelFamily(model), MaxChannelsFromModel(model)));
            posts == [device] + Triples(derive, device.id, meters) &&
            store.resources == RegisteredAll(old(store.resources), posts) &&
            (Injective(derive) ==> background == EachVersion(derive, device, meters))
  {
    hide RegisteredAll, Started, Injective, Firsts, EachVersion;
    var n, family, meters := MaxChannelsFromModel(model), DetectModelFamily(model), [];
    for channel := 1 to n + 1
      invariant meters == Meters(family, channel - 1)
    {
      meters := meters + ChannelMeters(channel, MeteredParams(family));
    }
    posts, background := RegisterReceiver(store, derive, DeviceFor(derive, node, address, model), meters);
    if Injective(derive) {
      FirstsDistinct(meters);
      StartedByMeters(old(store.resources), derive, DeviceFor(derive, node, address, model), Firsts(meters));
    }
  }

  method RegisterTriple(store: ResourceStore, derive: string -> string, device: string,
                        m: Meter, ghost s: Store, ghost before: seq<Resource>)
    returns (t: seq<Resource>, started: seq<Resource>)
    requires store.resources == RegisteredAll(s, before)
    modifies store
    ensures t == Triple(derive, device, m) && store.resources == RegisteredAll(s, before + t)
    ensures Started(s, before + t) == Started(s, before) + started
  {
    hide RegisteredAll, Registered, Started, PostsOf;
    t, started := [], [];
    assert before + [] == before;
    var triple := Triple(derive, device, m);
    for k := 0 to 3
      invariant t == triple[..k] && store.resources == RegisteredAll(s, before + t)
      invariant Started(s, before + t) == Started(s, before) + started
    {
      NowIsIt(store.resources, triple[k]);
      RegisteredOne(s, before + t, triple[k]);
      StartedOne(s, before + t, triple[k]);
      assert before + t + [triple[k]] == before + triple[..k + 1];
      var p := store.RegisterResource(Some(triple[k]));
      t := t + [p.value.now];
      started := started + if p.value.later.Some? then [p.value.later.value] else [];
    }
  }

  lemma NowIsIt(s: Store, r: Resource)
    ensures PostsOf(s, r).now == r
  {
  }

  lemma NothingYet(s: Store, derive: string -> string, device: string)
    ensures Firsts([]) == [] && Triples(derive, device, []) == [] && RegisteredAll(s, []) == s
    ensures forall r: Resource :: [r] + [] == [r] && [] + [r] == [r]
  {
  }

  lemma FirstsStep(meters: seq<Meter>, k: nat)
    requires k < |meters|
    ensures var before := Firsts(meters[..k]);
            Firsts(meters[..k + 1]) == if meters[k] in before then before else before + [meters[k]]
  {
    assert meters[..k + 1][..k] == meters[..k];
  }

  lemma TriplesStep(derive: string -> string, device: string, meters: seq<Meter>, m: Meter)
    ensures Triples(derive, device, meters + [m]) == Triples(derive, device, meters) + Triple(derive, device, m)
  {
    assert (meters + [m])[..|meters|] == meters;
  }

  lemma RegisteredThree(s: Store, posts: seq<Resource>, t: seq<Resource>)
    requires |t| == 3
    ensures RegisteredAll(s, posts + t)
         == Registered(Registered(Registered(RegisteredAll(s, posts), t[0]), t[1]), t[2])
  {
    hide Registered;
    RegisteredOne(s, posts, t[0]);
    RegisteredOne(s, posts + [t[0]], t[1]);
    RegisteredOne(s, posts + [t[0]] + [t[1]], t[2]);
    assert posts + t == posts + [t[0]] + [t[1]] + [t[2]];
  }

  lemma RegisteredOne(s: Store, posts: seq<Resource>, r: Resource)
    ensures RegisteredAll(s, posts + [r]) == Registered(RegisteredAll(s, posts), r)
  {
    assert (posts + [r])[..|posts|] == posts;
  }

  /** Eager registration is never rejected when the node is registered. */
  lemma {:induction false} EagerNeverRejected(reg: Registry, derive: string -> string, device: Resource,
                                              meters: seq<Meter>)
    requires device.Device? && Ref(Nodes, device.node) in reg
    ensures var posts := [device] + Triples(derive, device.id, meters);
            NoneRejected(reg, posts) && Ref(Devices, device.id) in PostAll(reg, posts)
  {
    if meters == [] {
      assert [device] + [] == [device] && [device][..0] == [];
    } else {
      var n := |meters| - 1;
      var before := [device] + Triples(derive, device.id, meters[..n]);
      var t := Triple(derive, device.id, meters[n]);
      EagerNeverRejected(reg, derive, device, meters[..n]);
      assert [device] + Triples(derive, device.id, meters) == before + t;
      PostSum(reg, before, t);
      TripleAccepted(PostAll(reg, before), derive, device.id, meters[n]);
    }
  }

  lemma TripleAccepted(reg: Registry, derive: string -> string, device: string, m: Meter)
    requires Ref(Devices, device) in reg
    ensures var t := Triple(derive, device, m);
            NoneRejected(reg, t) && Ref(Devices, device) in PostAll(reg, t)
  {
    var t := Triple(derive, device, m);
    PostOne(reg, [], t[0]);
    PostOne(reg, [t[0]], t[1]);
    PostOne(reg, [t[0], t[1]], t[2]);
    assert [] + [t[0]] == [t[0]] && [t[0]] + [t[1]] == [t[0], t[1]] && [t[0], t[1]] + [t[2]] == t;
  }

  lemma PostOne(reg: Registry, posts: seq<Resource>, r: Resource)
    ensures PostAll(reg, posts + [r]) == Post(PostAll(reg, posts), r)
    ensures NoneRejected(reg, posts + [r]) <==> NoneRejected(reg, posts) && Accepts(PostAll(reg, posts), r)
    ensures NoneRejected(reg, []) && PostAll(reg, []) == reg
  {
    assert (posts + [r])[..|posts|] == posts;
  }

  // ---------------------------------------------------------------- the device's list of senders

  /** Identifier names of one receiver tell channel and parameter apart. */
  lemma NamesDiffer(kind: string, device: string, m: Meter, n: Meter)
    requires IdName(kind, device, m) == IdName(kind, device, n)
    ensures m == n
  {
    var head := kind + "-" + device + "-";
    var a, b := Itoa(m.channel), Itoa(n.channel);
    assert IdName(kind, device, m) == head + (a + "-" + m.param);
    assert IdName(kind, device, n) == head + (b + "-" + n.param);
    assert (head + (a + "-" + m.param))[|head|..] == a + "-" + m.param;
    assert (head + (b + "-" + n.param))[|head|..] == b + "-" + n.param;
    assert FreeOf(a, Only('-')) && FreeOf(b, Only('-'));
    SplitAtSeparator(a, m.param, b, n.param, '-');
    ItoaInjective(m.channel, n.channel);
  }

  lemma SenderIdsDistinct(derive: string -> string, device: string, meters: seq<Meter>)
    requires Injective(derive) && NoRepeat(meters)
    ensures NoRepeat(SenderIds(derive, device, meters))
  {
    forall i, j | 0 <= i < j < |meters|
      ensures SenderIds(derive, device, meters)[i] != SenderIds(derive, device, meters)[j]
    {
      if SenderId(derive, device, meters[i]) == SenderId(derive, device, meters[j]) {
        NamesDiffer("sender", device, meters[i], meters[j]);
      }
    }
  }

  /** A device as the local list has it. */
  ghost predicate HasDevice(s: Store, d: Resource) {
    d.Device? && Place(List(s, Devices), d.id).Some? && List(s, Devices)[Place(List(s, Devices), d.id).value] == d
  }

  lemma DeviceRegistered(s: Store, d: Resource)
    requires d.Device?
    ensures HasDevice(Registered(s, d), d)
  {
    var list := List(s, Devices);
    PlaceIs(Upsert(list, d), d.id, if Place(list, d.id).Some? then Place(list, d.id).value else |list|);
  }

  /** Registering a source or flow leaves the devices, registering a sender lists it. */
  lemma SenderListed(s: Store, d: Resource, r: Resource)
    requires HasDevice(s, d) && (r.Source? || r.Flow? || (r.Sender? && r.device == d.id && r.id !in d.senders))
    ensures HasDevice(Registered(s, r), if r.Sender? then d.(senders := d.senders + [r.id]) else d)
  {
    if r.Sender? {
      var list := List(s, Devices);
      var i := Place(list, d.id).value;
      PlaceIs(Linked(list, r), d.id, i);
    }
  }

  /** After a receiver is registered its device lists exactly its sender identifiers, in order, each once,
      whatever the store held before. */
  lemma {:induction false} DeviceListsItsSenders(s: Store, derive: string -> string, device: Resource,
                                                 meters: seq<Meter>)
    requires Injective(derive) && device.Device? && device.senders == [] && NoRepeat(meters)
    ensures HasDevice(RegisteredAll(s, [device] + Triples(derive, device.id, meters)),
                      device.(senders := SenderIds(derive, device.id, meters)))
    ensures NoRepeat(SenderIds(derive, device.id, meters))
  {
    hide HasDevice, Registered, Injective, IdName;
    SenderIdsDistinct(derive, device.id, meters);
    if meters == [] {
      NothingYet(s, derive, device.id);
      RegisteredOne(s, [], device);
      DeviceRegistered(s, device);
      assert SenderIds(derive, device.id, []) == device.senders;
    } else {
      var n := |meters| - 1;
      var before := [device] + Triples(derive, device.id, meters[..n]);
      DeviceListsItsSenders(s, derive, device, meters[..n]);
      var ids := SenderIds(derive, device.id, meters);
      assert ids == SenderIds(derive, device.id, meters[..n]) + [SenderId(derive, device.id, meters[n])];
      ListedThree(s, derive, device, meters[..n], meters[n], before);
      assert [device] + Triples(derive, device.id, meters) == before + Triple(derive, device.id, meters[n]);
    }
  }

  lemma ListedThree(s: Store, derive: string -> string, device: Resource, meters: seq<Meter>, m: Meter,
                    posts: seq<Resource>)
    requires device.Device?
    requires HasDevice(RegisteredAll(s, posts), device.(senders := SenderIds(derive, device.id, meters)))
    requires NoRepeat(SenderIds(derive, device.id, meters) + [SenderId(derive, device.id, m)])
    ensures HasDevice(RegisteredAll(s, posts + Triple(derive, device.id, m)),
                      device.(senders := SenderIds(derive, device.id, meters) + [SenderId(derive, device.id, m)]))
  {
    hide HasDevice, Registered;
    var t, ids := Triple(derive, device.id, m), SenderIds(derive, device.id, meters);
    var all := ids + [SenderId(derive, device.id, m)];
    assert forall i :: 0 <= i < |ids| ==> all[i] == ids[i];
    assert all[|ids|] !in ids;
    RegisteredThree(s, posts, t);
    var d, s0 := device.(senders := ids), RegisteredAll(s, posts);
    SenderListed(s0, d, t[0]);
    SenderListed(Registered(s0, t[0]), d, t[1]);
    SenderListed(Registered(Registered(s0, t[0]), t[1]), d, t[2]);
  }

  // ---------------------------------------------------------------- the registry's copy of the device

  /** The device once its first `n` senders are listed. */
  function Version(derive: string -> string, device: Resource, meters: seq<Meter>, n: nat): Resource
    requires device.Device? && n <= |meters|
  {
    device.(senders := SenderIds(derive, device.id, meters[..n]))
  }

  /** What background posts of the device hold: each reads the list when it is written out, so any version
      from its own on, and they arrive in any order. */
  function Versions(derive: string -> string, device: Resource, meters: seq<Meter>, arrivals: seq<nat>): seq<Resource>
    requires device.Device? && forall k :: 0 <= k < |arrivals| ==> arrivals[k] <= |meters|
  {
    seq(|arrivals|, k requires 0 <= k < |arrivals| => Version(derive, device, meters, arrivals[k]))
  }

  /** Of posts of one resource among others the last one stays. */
  lemma {:induction false} LastPostStays(reg: Registry, a: seq<Resource>, b: seq<Resource>, c: seq<Resource>, x: Ref)
    requires Merge(a, b, c) && x in reg
    requires forall k :: 0 <= k < |a| ==> a[k].Self() != x
    requires forall k :: 0 <= k < |b| ==> b[k].Device? && b[k].Self() == x && Ref(Nodes, b[k].node) in reg
    ensures x in PostAll(reg, c) && PostAll(reg, c)[x] == if b == [] then reg[x] else b[|b| - 1]
    decreases |c|
  {
    if c != [] {
      var last, rest := c[|c| - 1], c[..|c| - 1];
      if a != [] && a[|a| - 1] == last && Merge(a[..|a| - 1], b, rest) {
        LastPostStays(reg, a[..|a| - 1], b, rest, x);
      } else {
        LastPostStays(reg, a, b[..|b| - 1], rest, x);
        PostsOnlyAdd(reg, rest, Ref(Nodes, last.node));
      }
    }
  }

  lemma {:induction false} TriplesAreNoDevice(derive: string -> string, device: string, meters: seq<Meter>)
    ensures forall k :: 0 <= k < |Triples(derive, device, meters)| ==> !Triples(derive, device, meters)[k].Device?
  {
    hide IdName;
    if meters != [] {
      TriplesAreNoDevice(derive, device, meters[..|meters| - 1]);
    }
  }

  /** However the background posts of a new receiver's device fall between the others, the registry's copy is
      the version that arrived last; so it lists what the node's own copy lists exactly when that one was
      written out after all senders were listed. */
  lemma RegistryHasLastVersion(reg: Registry, derive: string -> string, device: Resource, meters: seq<Meter>,
                               arrivals: seq<nat>, others: seq<Resource>)
    requires device.Device? && device.senders == [] && Ref(Nodes, device.node) in reg
    requires forall k :: 0 <= k < |arrivals| ==> arrivals[k] <= |meters|
    requires Merge(Triples(derive, device.id, meters), Versions(derive, device, meters, arrivals), others)
    ensures var last := if arrivals == [] then 0 else arrivals[|arrivals| - 1];
            var copies := PostAll(reg, [device] + others);
            device.Self() in copies && copies[device.Self()] == Version(derive, device, meters, last) &&
            (copies[device.Self()] == device.(senders := SenderIds(derive, device.id, meters)) <==> last == |meters|)
  {
    hide Triples, Merge;
    var b := Versions(derive, device, meters, arrivals);
    TriplesAreNoDevice(derive, device.id, meters);
    PostSum(reg, [device], others);
    PostOne(reg, [], device);
    assert [] + [device] == [device];
    LastPostStays(PostAll(reg, [device]), Triples(derive, device.id, meters), b, others, device.Self());
    var last := if arrivals == [] then 0 else arrivals[|arrivals| - 1];
    assert meters[..|meters|] == meters && meters[..0] == [];
    assert |SenderIds(derive, device.id, meters[..last])| == last;
    assert SenderIds(derive, device.id, []) == [];
  }

  // ---------------------------------------------------------------- which posts the code can make

  /** Listing the sender of the next meter leaves one device post to the background, and that starts from the
      version with this sender; so there is one such post for each meter. */
  lemma OnePostPerMeter(s: Store, derive: string -> string, device: Resource, meters: seq<Meter>, k: nat)
    requires Injective(derive) && device.Device? && device.senders == [] && NoRepeat(meters) && k < |meters|
    ensures var t := Triple(derive, device.id, meters[k]);
            var s0 := RegisteredAll(s, [device] + Triples(derive, device.id, meters[..k]));
            PostsOf(s0, t[0]).later == None && PostsOf(Registered(s0, t[0]), t[1]).later == None &&
            PostsOf(Registered(Registered(s0, t[0]), t[1]), t[2]).later
              == Some(Version(derive, device, meters, k + 1))
  {
    hide HasDevice, Registered, Injective, IdName;
    var d, m := device.(senders := SenderIds(derive, device.id, meters[..k])), meters[k];
    var t, s0 := Triple(derive, device.id, m), RegisteredAll(s, [device] + Triples(derive, device.id, meters[..k]));
    DeviceListsItsSenders(s, derive, device, meters[..k]);
    SenderListed(s0, d, t[0]);
    SenderListed(Registered(s0, t[0]), d, t[1]);
    SenderIdsDistinct(derive, device.id, meters);
    assert SenderIds(derive, device.id, meters[..k + 1]) == SenderIds(derive, device.id, meters[..k]) + [t[2].id];
    forall i | 0 <= i < k
      ensures SenderIds(derive, device.id, meters[..k])[i] != t[2].id
    {
      assert SenderIds(derive, device.id, meters)[i] != SenderIds(derive, device.id, meters)[k];
    }
    LaterPost(Registered(Registered(s0, t[0]), t[1]), d, t[2]);
  }

  /** One background post for each meter, of the device with the senders up to that one. */
  function EachVersion(derive: string -> string, device: Resource, meters: seq<Meter>): seq<Resource>
    requires device.Device?
  {
    seq(|meters|, k requires 0 <= k < |meters| => Version(derive, device, meters, k + 1))
  }

  /** That is what registering a new receiver starts in the background, in this order. */
  lemma {:induction false} StartedByMeters(s: Store, derive: string -> string, device: Resource, meters: seq<Meter>)
    requires Injective(derive) && device.Device? && device.senders == [] && NoRepeat(meters)
    ensures Started(s, [device] + Triples(derive, device.id, meters)) == EachVersion(derive, device, meters)
  {
    hide Injective, Started, PostsOf, RegisteredAll, Registered, IdName;
    if meters == [] {
      FirstStarted(s, device);
      assert [device] + Triples(derive, device.id, []) == [device];
    } else {
      var n := |meters| - 1;
      var before, t := [device] + Triples(derive, device.id, meters[..n]), Triple(derive, device.id, meters[n]);
      StartedByMeters(s, derive, device, meters[..n]);
      OnePostPerMeter(s, derive, device, meters, n);
      StartedByTriple(s, before, t);
      assert [device] + Triples(derive, device.id, meters) == before + t;
      EachVersionStep(derive, device, meters);
    }
  }

  lemma EachVersionStep(derive: string -> string, device: Resource, meters: seq<Meter>)
    requires device.Device? && meters != []
    ensures EachVersion(derive, device, meters) ==
            EachVersion(derive, device, meters[..|meters| - 1]) + [Version(derive, device, meters, |meters|)]
  {
    var n := |meters| - 1;
    forall k | 0 <= k < n
      ensures EachVersion(derive, device, meters)[k] == EachVersion(derive, device, meters[..n])[k]
    {
      assert meters[..n][..k + 1] == meters[..k + 1];
    }
  }

  lemma StartedByTriple(s: Store, before: seq<Resource>, t: seq<Resource>)
    requires |t| == 3
    requires var s0 := RegisteredAll(s, before);
             PostsOf(s0, t[0]).later == None && PostsOf(Registered(s0, t[0]), t[1]).later == None &&
             PostsOf(Registered(Registered(s0, t[0]), t[1]), t[2]).later.Some?
    ensures var s0 := RegisteredAll(s, before);
            Started(s, before + t) ==
            Started(s, before) + [PostsOf(Registered(Registered(s0, t[0]), t[1]), t[2]).later.value]
  {
    hide Started, PostsOf, RegisteredAll, Registered;
    StartedOne(s, before, t[0]);
    RegisteredOne(s, before, t[0]);
    StartedOne(s, before + [t[0]], t[1]);
    RegisteredOne(s, before + [t[0]], t[1]);
    StartedOne(s, before + [t[0]] + [t[1]], t[2]);
    assert before + t == before + [t[0]] + [t[1]] + [t[2]];
  }

  lemma LaterPost(s: Store, d: Resource, sender: Resource)
    requires HasDevice(s, d) && sender.Sender? && sender.device == d.id && sender.id !in d.senders
    ensures PostsOf(s, sender).later == Some(d.(senders := d.senders + [sender.id]))
  {
  }

  /** The versions the background posts of `n` meters can arrive as, in order of arrival: each post has its own
      version to start from, and holds that or a later one. */
  ghost predicate Schedule(n: nat, arrivals: seq<nat>) {
    && |arrivals| == n && (forall k :: 0 <= k < n ==> arrivals[k] <= n)
    && exists own: seq<nat> :: StartsFrom(own, arrivals)
  }

  predicate StartsFrom(own: seq<nat>, arrivals: seq<nat>) {
    |own| == |arrivals| && NoRepeat(own) && forall k :: 0 <= k < |own| ==> 1 <= own[k] <= arrivals[k]
  }

  /** How many of the posts are none of a device. */
  function Others(posts: seq<Resource>): nat {
    if posts == [] then 0
    else Others(posts[..|posts| - 1]) + (if posts[|posts| - 1].Device? then 0 else 1)
  }

  /** No post of the device comes before what it lists: a sender is listed once its source and flow are posted. */
  ghost predicate Timely(posts: seq<Resource>) {
    forall p :: 0 <= p < |posts| && posts[p].Device? ==> 3 * |posts[p].senders| <= Others(posts[..p]) + 1
  }

  /** However the posts of a new receiver fall, the registry's copy of its device ends as the node's. */
  ghost predicate AlwaysCurrent(reg: Registry, derive: string -> string, device: Resource, meters: seq<Meter>)
    requires device.Device?
  {
    forall arrivals, posts: seq<Resource> ::
      Schedule(|meters|, arrivals) && Timely(posts) &&
      Merge(Triples(derive, device.id, meters), Versions(derive, device, meters, arrivals), posts) ==>
        UpToDate(PostAll(reg, [device] + posts), derive, device, meters)
  }

  predicate UpToDate(reg: Registry, derive: string -> string, device: Resource, meters: seq<Meter>)
    requires device.Device?
  {
    device.Self() in reg && reg[device.Self()] == device.(senders := SenderIds(derive, device.id, meters))
  }

  lemma {:induction false} OthersOfSum(a: seq<Resource>, b: seq<Resource>)
    ensures Others(a + b) == Others(a) + Others(b)
  {
    if b == [] {
      assert a + b == a;
    } else {
      assert (a + b)[..|a + b| - 1] == a + b[..|b| - 1];
      OthersOfSum(a, b[..|b| - 1]);
    }
  }

  lemma {:induction false} AllOthers(posts: seq<Resource>)
    requires forall k :: 0 <= k < |posts| ==> !posts[k].Device?
    ensures Others(posts) == |posts|
  {
    if posts != [] {
      AllOthers(posts[..|posts| - 1]);
    }
  }

  lemma {:induction false} TriplesLength(derive: string -> string, device: string, meters: seq<Meter>)
    ensures |Triples(derive, device, meters)| == 3 * |meters|
  {
    if meters != [] {
      TriplesLength(derive, device, meters[..|meters| - 1]);
    }
  }

  lemma {:induction false} OneAfterTheOther(a: seq<Resource>, b: seq<Resource>)
    ensures Merge(a, b, a + b)
    decreases |a| + |b|
  {
    if b != [] {
      assert (a + b)[..|a + b| - 1] == a + b[..|b| - 1];
      OneAfterTheOther(a, b[..|b| - 1]);
    } else if a != [] {
      assert (a + b)[..|a + b| - 1] == a[..|a| - 1] + b;
      OneAfterTheOther(a[..|a| - 1], b);
    }
  }

  /** The background posts all arrive after the others, in the opposite order of their making, each with its own
      version: the registry is left with one sender. */
  lemma StaleSchedule(reg: Registry, derive: string -> string, device: Resource, meters: seq<Meter>)
    returns (arrivals: seq<nat>, posts: seq<Resource>)
    requires device.Device? && device.senders == [] && Ref(Nodes, device.node) in reg && |meters| >= 2
    ensures Schedule(|meters|, arrivals) && Timely(posts)
    ensures Merge(Triples(derive, device.id, meters), Versions(derive, device, meters, arrivals), posts)
    ensures var copies := PostAll(reg, [device] + posts);
            device.Self() in copies && copies[device.Self()] == Version(derive, device, meters, 1) &&
            !UpToDate(copies, derive, device, meters)
  {
    hide Merge, Triples, PostAll;
    var n, triples := |meters|, Triples(derive, device.id, meters);
    arrivals := seq(n, k requires 0 <= k < n => n - k);
    assert StartsFrom(arrivals, arrivals);
    var versions := Versions(derive, device, meters, arrivals);
    posts := triples + versions;
    OneAfterTheOther(triples, versions);
    TriplesAreNoDevice(derive, device.id, meters);
    AllOthers(triples);
    TriplesLength(derive, device.id, meters);
    forall p | 0 <= p < |posts| && posts[p].Device?
      ensures 3 * |posts[p].senders| <= Others(posts[..p]) + 1
    {
      assert p >= |triples|;
      assert posts[..p] == triples + versions[..p - |triples|];
      OthersOfSum(triples, versions[..p - |triples|]);
      assert posts[p] == versions[p - |triples|];
    }
    RegistryHasLastVersion(reg, derive, device, meters, arrivals, posts);
  }

  /** The registry's copy of a new receiver's device is sure to end as the node's exactly when the receiver has
      at most one meter. */
  lemma AlwaysCurrentIff(reg: Registry, derive: string -> string, device: Resource, meters: seq<Meter>)
    requires device.Device? && device.senders == [] && Ref(Nodes, device.node) in reg
    ensures AlwaysCurrent(reg, derive, device, meters) <==> |meters| <= 1
  {
    hide Merge, Triples, PostAll, Timely;
    if |meters| >= 2 {
      var arrivals, posts := StaleSchedule(reg, derive, device, meters);
    } else {
      forall arrivals, posts: seq<Resource> |
        Schedule(|meters|, arrivals) && Timely(posts) &&
        Merge(Triples(derive, device.id, meters), Versions(derive, device, meters, arrivals), posts)
        ensures UpToDate(PostAll(reg, [device] + posts), derive, device, meters)
      {
        var own: seq<nat> :| StartsFrom(own, arrivals);
        RegistryHasLastVersion(reg, derive, device, meters, arrivals, posts);
      }
    }
  }

  /** Every model has several meters, so of no receiver is it sure. */
  lemma NoReceiverIsSure(reg: Registry, derive: string -> string, node: string, address: string, model: string)
    requires Ref(Nodes, node) in reg
    ensures !AlwaysCurrent(reg, derive, DeviceFor(derive, node, address, model),
                           Firsts(Meters(DetectModelFamily(model), MaxChannelsFromModel(model))))
  {
    hide DetectModelFamily, MaxChannelsFromModel, AlwaysCurrent, Firsts, Meters;
    var meters := Meters(DetectModelFamily(model), MaxChannelsFromModel(model));
    SeveralMeters(DetectModelFamily(model), MaxChannelsFromModel(model));
    FirstsDistinct(meters);
    var m, n :| m in meters && n in meters && m != n;
    assert m in Firsts(meters) && n in Firsts(meters);
    AlwaysCurrentIff(reg, derive, DeviceFor(derive, node, address, model), Firsts(meters));
  }

  lemma {:induction false} SeveralMeters(family: Family, n: nat)
    requires n >= 1
    ensures exists m, k :: m in Meters(family, n) && k in Meters(family, n) && m != k
  {
    if n == 1 {
      FirstParams(family);
      var params := MeteredParams(family);
      assert Meters(family, 1) == Meters(family, 0) + ChannelMeters(1, params);
      assert ChannelMeters(1, params)[0] in Meters(family, 1) && ChannelMeters(1, params)[1] in Meters(family, 1);
    } else {
      hide MeteredParams;
      SeveralMeters(family, n - 1);
      var m, k :| m in Meters(family, n - 1) && k in Meters(family, n - 1) && m != k;
      assert m in Meters(family, n) && k in Meters(family, n);
    }
  }

  lemma FirstParams(family: Family)
    ensures |MeteredParams(family)| >= 2 && MeteredParams(family)[0] != MeteredParams(family)[1]
  {
    assert |"ANTENNA_A_ACTIVE"| == |"ANTENNA_B_ACTIVE"| && "ANTENNA_A_ACTIVE"[8] != "ANTENNA_B_ACTIVE"[8];
    assert |"CHAN_QUALITY"| != |"AUDIO_LED_BITMAP"| && |"AUDIO_LEVEL_PEAK"| != |"AUDIO_LEVEL_RMS"|;
  }
}
