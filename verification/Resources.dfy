/** The node's own list of its devices, sources, flows, senders and receivers, and the registry it is kept
    in step with. The registry files a resource only when everything it refers to is filed already. */
module Resources {
  import opened Text
  import opened RolePaths

  datatype Kind = Nodes | Devices | Sources | Flows | Senders | Receivers

  datatype Resource =
    | Node(id: string, body: string)
    | Device(id: string, node: string, senders: seq<string>, receivers: seq<string>, body: string)
    | Source(id: string, device: string, body: string)
    | Flow(id: string, source: string, device: string, body: string)
    | Sender(id: string, device: string, flow: string, body: string)
    | Receiver(id: string, device: string, body: string)
  {
    function Kind(): Kind {
      match this
      case Node(_, _) => Nodes
      case Device(_, _, _, _, _) => Devices
      case Source(_, _, _) => Sources
      case Flow(_, _, _, _) => Flows
      case Sender(_, _, _, _) => Senders
      case Receiver(_, _, _) => Receivers
    }

    function Self(): Ref {
      Ref(Kind(), id)
    }

    /** What a registry wants filed before this. */
    function Parents(): seq<Ref> {
      match this
      case Node(_, _) => []
      case Device(_, node, _, _, _) => [Ref(Nodes, node)]
      case Source(_, device, _) => [Ref(Devices, device)]
      case Flow(_, source, device, _) => [Ref(Sources, source), Ref(Devices, device)]
      case Sender(_, device, flow, _) => [Ref(Devices, device), Ref(Flows, flow)]
      case Receiver(_, device, _) => [Ref(Devices, device)]
    }
  }

  datatype Ref = Ref(kind: Kind, id: string)

  /** The local lists, by kind. */
  type Store = map<Kind, seq<Resource>>

  function List(s: Store, kind: Kind): seq<Resource> {
    if kind in s then s[kind] else []
  }

  // ---------------------------------------------------------------- registering locally

  /** The first place of an identifier. */
  function Place(list: seq<Resource>, id: string): (r: Option<nat>)
    ensures r.Some? ==> r.value < |list| && list[r.value].id == id && forall j :: 0 <= j < r.value ==> list[j].id != id
    ensures r.None? ==> forall j :: 0 <= j < |list| ==> list[j].id != id
  {
    if list == [] then None
    else if list[0].id == id then Some(0)
    else
      var deeper := Place(list[1..], id);
      assert forall j :: 1 <= j < |list| ==> list[j] == list[1..][j - 1];
      if deeper.None? then None else Some(deeper.value + 1)
  }

  /** Replaces in place what has the identifier, else appends. */
  function Upsert(list: seq<Resource>, r: Resource): seq<Resource> {
    match Place(list, r.id)
    case Some(i) => list[i := r]
    case None => list + [r]
  }

  /** The senders, or receivers, a device lists. */
  function Listed(d: Resource, senders: bool): seq<string>
    requires d.Device?
  {
    if senders then d.senders else d.receivers
  }

  /** The parent device with a sender or receiver newly listed, if there is a parent and it did not. */
  function Relisted(devices: seq<Resource>, r: Resource): Option<Resource>
    requires r.Sender? || r.Receiver?
  {
    match Place(devices, r.device)
    case None => None
    case Some(i) =>
      var d := devices[i];
      if !d.Device? || r.id in Listed(d, r.Sender?) then None
      else if r.Sender? then Some(d.(senders := d.senders + [r.id]))
      else Some(d.(receivers := d.receivers + [r.id]))
  }

  /** The devices once the parent of a sender or receiver lists it. */
  function Linked(devices: seq<Resource>, r: Resource): seq<Resource>
    requires r.Sender? || r.Receiver?
  {
    match Relisted(devices, r)
    case None => devices
    case Some(d) => devices[Place(devices, r.device).value := d]
  }

  /** The store after a resource is registered. */
  function Registered(s: Store, r: Resource): Store {
    var s1 := s[r.Kind() := Upsert(List(s, r.Kind()), r)];
    if r.Sender? || r.Receiver? then s1[Devices := Linked(List(s, Devices), r)] else s1
  }

  function RegisteredAll(s: Store, rs: seq<Resource>): Store {
    if rs == [] then s else Registered(RegisteredAll(s, rs[..|rs| - 1]), rs[|rs| - 1])
  }

  /** What a registration posts to the registry at once, and the device a goroutine posts some time later, as
      it is when the goroutine starts. */
  datatype Posts = Posts(now: Resource, later: Option<Resource>)

  function PostsOf(s: Store, r: Resource): Posts {
    Posts(r, if r.Sender? || r.Receiver? then Relisted(List(s, Devices), r) else None)
  }

  class ResourceStore {
    var resources: Store

    constructor ()
      ensures resources == map[]
    {
      resources := map[];
    }

    /** Registers a resource: replaces or appends it, lists a new sender or receiver in its device, posts
        it, and has the changed device posted in the background. Without an identifier it is refused. */
    method RegisterResource(resource: Option<Resource>) returns (posts: Option<Posts>)
      modifies this
      ensures resource.None? ==> posts.None? && resources == old(resources)
      ensures resource.Some? ==> resources == Registered(old(resources), resource.value)
      ensures resource.Some? ==> posts == Some(PostsOf(old(resources), resource.value))
    {
      if resource.None? {
        return None;
      }
      var r := resource.value;
      UpsertLocal(r);
      var later := None;
      if r.Sender? || r.Receiver? {
        later := LinkParent(r);
      }
      posts := Some(Posts(r, later));
    }

    method UpsertLocal(r: Resource)
      modifies this
      ensures resources == old(resources)[r.Kind() := Upsert(List(old(resources), r.Kind()), r)]
    {
      var list := List(resources, r.Kind());
      for i := 0 to |list|
        invariant forall j :: 0 <= j < i ==> list[j].id != r.id
      {
        if list[i].id == r.id {
          resources := resources[r.Kind() := list[i := r]];
          return;
        }
      }
      resources := resources[r.Kind() := list + [r]];
    }

    /** Lists a sender or receiver in its device, unless it is listed. */
    method LinkParent(r: Resource) returns (later: Option<Resource>)
      requires r.Sender? || r.Receiver?
      modifies this
      ensures resources == old(resources)[Devices := Linked(List(old(resources), Devices), r)]
      ensures later == Relisted(List(old(resources), Devices), r)
    {
      var devices := List(resources, Devices);
      for i := 0 to |devices|
        invariant forall j :: 0 <= j < i ==> devices[j].id != r.device
      {
        if devices[i].id == r.device {
          var d := devices[i];
          if d.Device? {
            var list := if r.Sender? then d.senders else d.receivers;
            var listed := false;
            for j := 0 to |list|
              invariant listed <==> r.id in list[..j]
            {
              listed := listed || list[j] == r.id;
            }
            assert list[..|list|] == list;
            if !listed {
              d := if r.Sender? then d.(senders := list + [r.id]) else d.(receivers := list + [r.id]);
              resources := resources[Devices := devices[i := d]];
              return Some(d);
            }
          }
          resources := resources[Devices := devices];
          return None;
        }
      }
      resources := resources[Devices := devices];
      return None;
    }
  }

  // ---------------------------------------------------------------- what registering keeps

  function Ids(list: seq<Resource>): seq<string> {
    seq(|list|, k requires 0 <= k < |list| => list[k].id)
  }

  /** Each list holds its own kind, every identifier once. */
  ghost predicate Tidy(s: Store) {
    forall kind :: kind in s ==> NoRepeat(Ids(s[kind])) && forall k :: 0 <= k < |s[kind]| ==> s[kind][k].Kind() == kind
  }

  /** What a list says of an identifier. */
  ghost function Stored(list: seq<Resource>, id: string): Option<Resource> {
    if Place(list, id).Some? then Some(list[Place(list, id).value]) else None
  }

  lemma PlaceIs(list: seq<Resource>, id: string, i: nat)
    requires i < |list| && list[i].id == id && forall j :: 0 <= j < i ==> list[j].id != id
    ensures Place(list, id) == Some(i)
  {
  }

  /** Upserting is a map update on what the list says, and moves nothing. */
  lemma UpsertIsMapUpdate(list: seq<Resource>, r: Resource, id: string)
    requires NoRepeat(Ids(list))
    ensures Stored(Upsert(list, r), id) == if id == r.id then Some(r) else Stored(list, id)
    ensures NoRepeat(Ids(Upsert(list, r)))
    ensures |list| <= |Upsert(list, r)|
    ensures forall k :: 0 <= k < |list| && list[k].id != r.id ==> Upsert(list, r)[k] == list[k]
    ensures Ids(list) <= Ids(Upsert(list, r))
  {
    var up := Upsert(list, r);
    assert Ids(list) <= Ids(up);
    forall i, j | 0 <= i < j < |up|
      ensures Ids(up)[i] != Ids(up)[j]
    {
      if j < |list| {
        assert Ids(list)[i] != Ids(list)[j];
      }
    }
    if id == r.id {
      PlaceIs(up, id, if Place(list, id).Some? then Place(list, id).value else |list|);
    } else if Place(list, id).Some? {
      PlaceIs(up, id, Place(list, id).value);
    }
  }

  // ---------------------------------------------------------------- runs of registrations

  lemma ListedKinds(s: Store, r: Resource)
    requires Tidy(s) && (r.Sender? || r.Receiver?)
    ensures var list := List(s, Devices);
            Ids(Linked(list, r)) == Ids(list) && forall k :: 0 <= k < |list| ==>
              Linked(list, r)[k].Kind() == Devices && Linked(list, r)[k].Parents() == list[k].Parents()
  {
  }

  lemma UpsertTidy(s: Store, r: Resource)
    requires Tidy(s)
    ensures Tidy(s[r.Kind() := Upsert(List(s, r.Kind()), r)])
  {
    UpsertIsMapUpdate(List(s, r.Kind()), r, r.id);
  }

  lemma RegisteredTidy(s: Store, r: Resource)
    requires Tidy(s)
    ensures Tidy(Registered(s, r))
  {
    hide Upsert, Linked;
    UpsertTidy(s, r);
    if r.Sender? || r.Receiver? {
      ListedKinds(s, r);
    }
  }

  lemma {:induction false} StaysTidy(s: Store, posts: seq<Resource>)
    requires Tidy(s)
    ensures Tidy(RegisteredAll(s, posts))
  {
    hide Tidy, Registered;
    if posts != [] {
      StaysTidy(s, posts[..|posts| - 1]);
      RegisteredTidy(RegisteredAll(s, posts[..|posts| - 1]), posts[|posts| - 1]);
    }
  }

  /** Registering changes what a list says of one identifier only. */
  lemma StoredAfter(s: Store, r: Resource, kind: Kind, id: string)
    requires Tidy(s) && kind != Devices
    ensures Stored(List(Registered(s, r), kind), id) ==
            if r.Kind() == kind && r.id == id then Some(r) else Stored(List(s, kind), id)
  {
    hide Linked, Upsert, Place;
    if r.Kind() == kind {
      UpsertIsMapUpdate(List(s, kind), r, id);
    }
  }

  /** The resource of a kind and identifier registered last. */
  function LastOf(rs: seq<Resource>, kind: Kind, id: string): Option<Resource> {
    if rs == [] then None
    else
      var r := rs[|rs| - 1];
      if r.Kind() == kind && r.id == id then Some(r) else LastOf(rs[..|rs| - 1], kind, id)
  }

  /** After any registrations each list but the devices' says of an identifier what was registered under it
      last. */
  lemma {:induction false} StoredIsLast(s: Store, rs: seq<Resource>, kind: Kind, id: string)
    requires Tidy(s) && kind != Devices
    ensures Stored(List(RegisteredAll(s, rs), kind), id) ==
            if LastOf(rs, kind, id).Some? then LastOf(rs, kind, id) else Stored(List(s, kind), id)
  {
    hide Registered, Stored, Tidy;
    if rs != [] {
      var n := |rs| - 1;
      StoredIsLast(s, rs[..n], kind, id);
      StaysTidy(s, rs[..n]);
      StoredAfter(RegisteredAll(s, rs[..n]), rs[n], kind, id);
    }
  }

  /** What one registration makes of a device: it is replaced, or lists a new sender or receiver of its own. */
  function DeviceStep(d: Option<Resource>, r: Resource, id: string): Option<Resource> {
    if r.Device? && r.id == id then Some(r)
    else if (r.Sender? || r.Receiver?) && r.device == id && d.Some? && d.value.Device? &&
            r.id !in Listed(d.value, r.Sender?) then
      Some(if r.Sender? then d.value.(senders := d.value.senders + [r.id])
           else d.value.(receivers := d.value.receivers + [r.id]))
    else d
  }

  function DeviceRun(d: Option<Resource>, rs: seq<Resource>, id: string): Option<Resource> {
    if rs == [] then d else DeviceStep(DeviceRun(d, rs[..|rs| - 1], id), rs[|rs| - 1], id)
  }

  lemma LinkedStored(list: seq<Resource>, r: Resource, id: string)
    requires NoRepeat(Ids(list)) && (r.Sender? || r.Receiver?)
    ensures Stored(Linked(list, r), id) == DeviceStep(Stored(list, id), r, id)
  {
    if Relisted(list, r).Some? {
      var i, d := Place(list, r.device).value, Relisted(list, r).value;
      var now := list[i := d];
      if id == r.device {
        PlaceIs(now, id, i);
      } else if Place(list, id).Some? {
        PlaceIs(now, id, Place(list, id).value);
      }
    }
  }

  lemma DeviceAfter(s: Store, r: Resource, id: string)
    requires Tidy(s)
    ensures Stored(List(Registered(s, r), Devices), id) == DeviceStep(Stored(List(s, Devices), id), r, id)
  {
    hide Place, Upsert, Linked, Stored;
    if r.Sender? || r.Receiver? {
      LinkedStored(List(s, Devices), r, id);
    } else if r.Device? {
      UpsertIsMapUpdate(List(s, Devices), r, id);
    }
  }

  /** And of a device the last registration of it, with the senders and receivers of its own registered since
      listed once each, in order. */
  lemma {:induction false} DeviceIsRun(s: Store, rs: seq<Resource>, id: string)
    requires Tidy(s)
    ensures Stored(List(RegisteredAll(s, rs), Devices), id) == DeviceRun(Stored(List(s, Devices), id), rs, id)
  {
    hide Registered, Stored, Tidy, DeviceStep;
    if rs != [] {
      var n := |rs| - 1;
      DeviceIsRun(s, rs[..n], id);
      StaysTidy(s, rs[..n]);
      DeviceAfter(RegisteredAll(s, rs[..n]), rs[n], id);
    }
  }

  /** A background post is started exactly when a registration changes its device otherwise than by replacing it,
      and it is of the device as it then is stored. */
  lemma LaterIsChange(s: Store, r: Resource)
    requires Tidy(s)
    ensures !r.Sender? && !r.Receiver? ==> PostsOf(s, r).later == None
    ensures r.Sender? || r.Receiver? ==>
              var was := Stored(List(s, Devices), r.device);
              var now := Stored(List(Registered(s, r), Devices), r.device);
              PostsOf(s, r).later == if was == now then None else now
  {
    if r.Sender? || r.Receiver? {
      DeviceAfter(s, r, r.device);
    }
  }

  /** A sender or a receiver of this device, as asked for, under this identifier, is among these. */
  predicate Joins(rs: seq<Resource>, device: string, senders: bool, id: string) {
    exists k :: 0 <= k < |rs| && (if senders then rs[k].Sender? else rs[k].Receiver?) && rs[k].device == device &&
                rs[k].id == id
  }

  predicate NoneOf(rs: seq<Resource>, device: string) {
    forall k :: 0 <= k < |rs| ==> !(rs[k].Device? && rs[k].id == device)
  }

  /** While a device is not registered again it lists what it listed, and each sender and receiver registered for it
      since, once each, whatever is registered again or for other devices. */
  lemma {:induction false} DeviceListsIff(d: Resource, rs: seq<Resource>, senders: bool, id: string)
    requires d.Device? && NoneOf(rs, d.id) && NoRepeat(d.senders) && NoRepeat(d.receivers)
    ensures var now := DeviceRun(Some(d), rs, d.id);
            now.Some? && now.value.Device? && now.value.(senders := d.senders, receivers := d.receivers) == d &&
            NoRepeat(now.value.senders) && NoRepeat(now.value.receivers) &&
            Listed(d, senders) <= Listed(now.value, senders) &&
            (id in Listed(now.value, senders) <==> id in Listed(d, senders) || Joins(rs, d.id, senders, id))
  {
    if rs != [] {
      var n := |rs| - 1;
      DeviceListsIff(d, rs[..n], senders, id);
      JoinsMore(rs, d.id, senders, id);
    }
  }

  lemma JoinsMore(rs: seq<Resource>, device: string, senders: bool, id: string)
    requires rs != []
    ensures var n := |rs| - 1;
            Joins(rs, device, senders, id) <==>
              Joins(rs[..n], device, senders, id) ||
              ((if senders then rs[n].Sender? else rs[n].Receiver?) && rs[n].device == device && rs[n].id == id)
  {
    var n := |rs| - 1;
    assert forall k :: 0 <= k < n ==> rs[..n][k] == rs[k];
    if Joins(rs[..n], device, senders, id) {
      var k :| 0 <= k < n && (if senders then rs[..n][k].Sender? else rs[..n][k].Receiver?) &&
               rs[..n][k].device == device && rs[..n][k].id == id;
      assert rs[k].id == id;
    }
  }
}
