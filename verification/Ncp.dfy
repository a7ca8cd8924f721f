/** The control protocol server: clients subscribe to objects and are notified when a property is set.
    Each handler is one atomic step; what a client can reconstruct from its notifications is compared
    with the server's own state over every run. */
module Ncp {
  import opened Text
  import opened BlockGraph
  import opened Nca

  /** A client, by its connection's number. */
  type Client = int

  /** An object as its clients see it: only a worker has a settable value, and one with a setter passes every
      set of it to the device first; the device manager has further texts. */
  datatype Cells = Cells(worker: bool, setter: Option<Setter>, value: Value, userLabel: string,
                         texts: map<PropertyId, string>) {
    function Get(id: PropertyId): Value {
      if id == WORKER_VALUE then value
      else if id == USER_LABEL then Str(userLabel)
      else if id in texts then Str(texts[id])
      else Null
    }
  }

  datatype Notification = Notification(oid: int, property: PropertyId, value: Value)

  /** The server between two steps: the registered objects, the connected clients, their subscriptions with
      identifiers, and what was written to each. */
  datatype State = State(objects: map<int, Cells>, clients: set<Client>,
                         subscriptions: map<Client, map<int, nat>>, nextId: nat,
                         received: map<Client, seq<Notification>>)

  datatype Action =
    | Register(oid: int, cells: Cells)
    | Connect(client: Client)
    | Disconnect(client: Client)
    | Subscribe(client: Client, oids: seq<int>)
    | Set(oid: int, property: PropertyId, value: Value, accepted: bool, failing: set<Client>)

  predicate Listens(subscriptions: map<Client, map<int, nat>>, c: Client, oid: int) {
    c in subscriptions && oid in subscriptions[c]
  }

  predicate Subscribed(s: State, c: Client, oid: int) {
    Listens(s.subscriptions, c, oid)
  }

  /** Whether a set works: a worker's value when the device accepts it, a label or other text when it is text. */
  predicate Works(w: Cells, property: PropertyId, v: Value, accepted: bool) {
    if property == WORKER_VALUE then w.worker && (w.setter.None? || accepted)
    else (property == USER_LABEL || property in w.texts) && v.Str?
  }

  /** The line a set sends to the device before anything else happens. */
  function LineSent(s: State, oid: int, property: PropertyId, v: Value): Option<string> {
    if oid in s.objects && s.objects[oid].setter.Some? && property == WORKER_VALUE
    then Some(SetLine(s.objects[oid].setter.value, v)) else None
  }

  function Put(w: Cells, property: PropertyId, v: Value): Cells {
    if property == WORKER_VALUE then w.(value := v)
    else if property == USER_LABEL && v.Str? then w.(userLabel := v.text)
    else if property in w.texts && v.Str? then w.(texts := w.texts[property := v.text])
    else w
  }

  function SubscriptionsOf(s: State, c: Client): map<int, nat> {
    if c in s.subscriptions then s.subscriptions[c] else map[]
  }

  function SubscribeOne(s: State, c: Client, oid: int): State {
    if oid in s.objects
    then s.(subscriptions := s.subscriptions[c := SubscriptionsOf(s, c)[oid := s.nextId]], nextId := s.nextId + 1)
    else s
  }

  function SubscribeAll(s: State, c: Client, oids: seq<int>): State {
    if oids == [] then s
    else SubscribeOne(SubscribeAll(s, c, oids[..|oids| - 1]), c, oids[|oids| - 1])
  }

  /** A notification written to every connected client subscribed to its object, but for failing writes. */
  function Broadcast(received: map<Client, seq<Notification>>, clients: set<Client>,
                     subscriptions: map<Client, map<int, nat>>, n: Notification, failing: set<Client>)
    : map<Client, seq<Notification>>
  {
    map c | c in received :: received[c] +
      (if c in clients && Listens(subscriptions, c, n.oid) && c !in failing then [n] else [])
  }

  predicate Enabled(s: State, a: Action) {
    match a
    case Connect(c) => c !in s.clients
    case Disconnect(c) => c in s.clients
    case Subscribe(c, _) => c in s.clients
    case _ => true
  }

  function Do(s: State, a: Action): State {
    match a
    case Register(oid, cells) => s.(objects := s.objects[oid := cells])
    case Connect(c) => s.(clients := s.clients + {c}, received := s.received[c := []])
    case Disconnect(c) =>
      s.(clients := s.clients - {c}, subscriptions := s.subscriptions - {c}, received := s.received - {c})
    case Subscribe(c, oids) => SubscribeAll(s, c, oids)
    case Set(oid, property, v, accepted, failing) =>
      if oid in s.objects && Works(s.objects[oid], property, v, accepted)
      then s.(objects := s.objects[oid := Put(s.objects[oid], property, v)],
              received := Broadcast(s.received, s.clients, s.subscriptions, Notification(oid, property, v), failing))
      else s
  }

  /** A subscription adds the registered ones among the objects to what its client listens to, and no more. */
  lemma {:induction false} SubscribesExactly(s: State, c: Client, oids: seq<int>, d: Client, o: int)
    ensures SubscribeAll(s, c, oids).objects == s.objects
    ensures Listens(SubscribeAll(s, c, oids).subscriptions, d, o) <==>
              Listens(s.subscriptions, d, o) || (d == c && o in oids && o in s.objects)
  {
    if oids != [] {
      SubscribesExactly(s, c, oids[..|oids| - 1], d, o);
    }
  }

  lemma NoneYet(s: State, c: Client)
    ensures SubscribeAll(s, c, []) == s
  {
  }

  lemma OneMore(s: State, c: Client, oids: seq<int>, i: nat)
    requires i < |oids|
    ensures SubscribeAll(s, c, oids[..i + 1]) == SubscribeOne(SubscribeAll(s, c, oids[..i]), c, oids[i])
  {
    assert oids[..i + 1][..i] == oids[..i];
  }

  // ---------------------------------------------------------------- the server as the source writes it

  class NmosController {
    const registry: Registry
    var ncpClients: set<Client>
    var ncpSubscriptions: map<Client, map<int, nat>>
    var nextSubscriptionId: nat
    ghost var received: map<Client, seq<Notification>>

    ghost predicate Valid()
      reads this, registry, registry.parts
    {
      registry.Valid() && this !in registry.parts && received.Keys == ncpClients
    }

    ghost function CellsOf(m: Member): Cells
      reads m.Part()
    {
      match m
      case BlockMember(b) => Cells(false, None, Null, b.userLabel, map[])
      case WorkerMember(w) => Cells(true, w.setter, w.value, w.userLabel, map[])
      case ManagerMember(m) => Cells(false, None, Null, m.userLabel, m.Texts())
    }

    ghost function Objects(): map<int, Cells>
      requires registry.Valid()
      reads registry, registry.parts
    {
      map o | o in registry.objects :: CellsOf(registry.objects[o])
    }

    ghost function View(): State
      requires Valid()
      reads this, registry, registry.parts
    {
      State(Objects(), ncpClients, ncpSubscriptions, nextSubscriptionId, received)
    }

    constructor (registry: Registry)
      requires registry.Valid()
      ensures Valid() && this.registry == registry
      ensures View().clients == {} && View().subscriptions == map[] && View().nextId == 1
    {
      this.registry := registry;
      ncpClients, ncpSubscriptions, nextSubscriptionId, received := {}, map[], 1, map[];
    }

    /** A client connects: it has no subscription yet. */
    method ConnectClient(c: Client)
      requires Valid() && c !in ncpClients
      modifies this
      ensures Valid() && View() == Do(old(View()), Connect(c))
      ensures ncpClients == old(ncpClients) + {c} && ncpSubscriptions == old(ncpSubscriptions)
    {
      ncpClients := ncpClients + {c};
      received := received[c := []];
    }

    /** A client is gone, and its subscriptions with it. */
    method DisconnectClient(c: Client)
      requires Valid() && c in ncpClients
      modifies this
      ensures Valid() && View() == Do(old(View()), Disconnect(c))
      ensures ncpClients == old(ncpClients) - {c} && forall o :: !Listens(ncpSubscriptions, c, o)
      ensures forall d, o :: d != c ==> (Listens(ncpSubscriptions, d, o) <==> Listens(old(ncpSubscriptions), d, o))
    {
      ncpClients := ncpClients - {c};
      ncpSubscriptions := ncpSubscriptions - {c};
      received := received - {c};
    }

    /** Subscribes a client to the registered ones among the objects, under fresh identifiers, and to nothing
        else, and no other client to anything. */
    method HandleSubscriptions(c: Client, oids: seq<int>) returns (subscribed: seq<nat>)
      requires Valid() && c in ncpClients
      modifies this`ncpSubscriptions, this`nextSubscriptionId
      ensures Valid() && View() == Do(old(View()), Subscribe(c, oids))
      ensures |subscribed| == nextSubscriptionId - old(nextSubscriptionId)
      ensures forall k :: 0 <= k < |subscribed| ==> subscribed[k] == old(nextSubscriptionId) + k
      ensures forall d, o :: Listens(ncpSubscriptions, d, o) <==>
                Listens(old(ncpSubscriptions), d, o) || (d == c && o in oids && o in registry.objects)
    {
      hide SubscribeAll;
      subscribed := [];
      ghost var s := View();
      NoneYet(s, c);
      for i := 0 to |oids|
        invariant Valid() && View() == SubscribeAll(s, c, oids[..i])
        invariant |subscribed| == nextSubscriptionId - old(nextSubscriptionId)
        invariant forall k :: 0 <= k < |subscribed| ==> subscribed[k] == old(nextSubscriptionId) + k
      {
        OneMore(s, c, oids, i);
        subscribed := SubscribeTo(c, oids[i], subscribed);
      }
      assert oids[..|oids|] == oids;
      forall d, o
        ensures Listens(ncpSubscriptions, d, o) <==>
                  Listens(old(ncpSubscriptions), d, o) || (d == c && o in oids && o in registry.objects)
      {
        SubscribesExactly(s, c, oids, d, o);
      }
    }

    /** One turn of that loop. */
    method SubscribeTo(c: Client, oid: int, before: seq<nat>) returns (subscribed: seq<nat>)
      requires Valid() && c in ncpClients
      modifies this`ncpSubscriptions, this`nextSubscriptionId
      ensures Valid() && View() == SubscribeOne(old(View()), c, oid)
      ensures subscribed == before + (if oid in registry.objects then [old(nextSubscriptionId)] else [])
      ensures nextSubscriptionId == old(nextSubscriptionId) + (if oid in registry.objects then 1 else 0)
    {
      subscribed := before;
      if oid in registry.objects {
        if c !in ncpSubscriptions {
          ncpSubscriptions := ncpSubscriptions[c := map[]];
        }
        var id := nextSubscriptionId;
        nextSubscriptionId := nextSubscriptionId + 1;
        ncpSubscriptions := ncpSubscriptions[c := ncpSubscriptions[c][oid := id]];
        subscribed := subscribed + [id];
      }
    }

    /** Writes a notification to the subscribed clients; a failed write is only logged. */
    method BroadcastNCPNotification(n: Notification, failing: set<Client>)
      requires Valid()
      modifies this`received
      ensures Valid() && received.Keys == ncpClients && Objects() == old(Objects())
      ensures forall c :: c in ncpClients ==>
                received[c] == old(received)[c] +
                  if c in ncpSubscriptions && n.oid in ncpSubscriptions[c] && c !in failing then [n] else []
    {
      var left := ncpClients;
      while left != {}
        invariant left <= ncpClients && received.Keys == ncpClients
        invariant forall c :: c in ncpClients ==>
                    received[c] == old(received)[c] +
                      if c !in left && c in ncpSubscriptions && n.oid in ncpSubscriptions[c] && c !in failing
                      then [n] else []
        decreases |left|
      {
        OccupiedInts(left);
        var client: Client :| client in left;
        left := left - {client};
        var subscribed := client in ncpSubscriptions && n.oid in ncpSubscriptions[client];
        if subscribed && client !in failing {
          received := received[client := received[client] + [n]];
        }
      }
    }

    /** Files an object, replacing what had its identifier; no client is told. */
    method RegisterNCPObject(m: Member)
      requires Valid() && registry !in m.Part() && this !in m.Part() && m.Sound()
      modifies registry, (if m.BlockMember? then {m.block} else {})`resolver
      ensures Valid() && View() == Do(old(View()), Register(m.Oid(), old(CellsOf(m))))
    {
      hide CellsOf, Member.Part, Member.Sound;
      FileObject(m);
    }

    method FileObject(m: Member)
      requires Valid() && registry !in m.Part() && this !in m.Part() && m.Sound()
      modifies registry, (if m.BlockMember? then {m.block} else {})`resolver
      ensures Valid() && Objects() == old(Objects())[m.Oid() := old(CellsOf(m))] && unchanged(this)
    {
      hide Member.AsNode, Member.Sound, Worker.GetDescriptor, Block.GetDescriptor;
      registry.Register(m);
      forall o | o in old(registry.objects) && o != m.Oid()
        ensures CellsOf(registry.objects[o]) == old(CellsOf(registry.objects[o]))
      {
      }
    }

    /** The object's part of a set. */
    method SetCells(oid: int, property: PropertyId, v: Value, accepted: bool) returns (ok: bool, line: Option<string>)
      requires registry.Valid() && oid in registry.objects
      modifies registry.objects[oid].Part()
      ensures registry.Valid()
      ensures var w := old(CellsOf(registry.objects[oid]));
              ok == Works(w, property, v, accepted) &&
              line == (if w.setter.Some? && property == WORKER_VALUE then Some(SetLine(w.setter.value, v)) else None) &&
              Objects() == if ok then old(Objects())[oid := Put(w, property, v)] else old(Objects())
    {
      hide SetLine;
      var m := registry.objects[oid];
      line := None;
      match m {
        case WorkerMember(worker) =>
          ok, line := worker.SetProperty(property, v, accepted);
        case BlockMember(block) =>
          ok := block.SetProperty(property, v);
        case ManagerMember(manager) =>
          ok := manager.SetProperty(property, v);
      }
      forall o | o in registry.objects && o != oid
        ensures CellsOf(registry.objects[o]) == old(CellsOf(registry.objects[o]))
      {
        assert registry.objects[o].Oid() == o && m.Oid() == oid;
      }
    }

    /** A client's set of a property: a worker with a setter sends its line; then the object takes the value,
        or refuses and nothing else happens. */
    method SetProperty(oid: int, property: PropertyId, v: Value, accepted: bool,
                       failing: set<Client>) returns (ok: bool, line: Option<string>)
      requires Valid()
      modifies registry.parts, this`received
      ensures Valid() && View() == Do(old(View()), Set(oid, property, v, accepted, failing))
      ensures ok <==> oid in old(View()).objects && Works(old(View()).objects[oid], property, v, accepted)
      ensures line == LineSent(old(View()), oid, property, v)
      ensures !ok ==> View() == old(View())
    {
      hide Works, Put, Registry.Valid, Broadcast, SetLine;
      ok, line := false, None;
      if oid in registry.objects {
        InParts(oid);
        ok, line := SetCells(oid, property, v, accepted);
        if ok {
          var n := Notification(oid, property, v);
          BroadcastNCPNotification(n, failing);
          WrittenToAll(old(received), received, n, failing);
        }
      }
    }

    lemma WrittenToAll(was: map<Client, seq<Notification>>, now: map<Client, seq<Notification>>, n: Notification,
                       failing: set<Client>)
      requires was.Keys == now.Keys == ncpClients
      requires forall c :: c in ncpClients ==>
                 now[c] == was[c] + if Listens(ncpSubscriptions, c, n.oid) && c !in failing then [n] else []
      ensures now == Broadcast(was, ncpClients, ncpSubscriptions, n, failing)
    {
    }

    lemma InParts(oid: int)
      requires registry.Valid() && oid in registry.objects
      ensures registry.objects[oid].Part() <= registry.parts
    {
    }
  }

  // ---------------------------------------------------------------- every run

  function Run(s: State, actions: seq<Action>): State {
    if actions == [] then s else Do(Run(s, actions[..|actions| - 1]), actions[|actions| - 1])
  }

  predicate Possible(s: State, actions: seq<Action>) {
    actions != [] ==>
      Possible(s, actions[..|actions| - 1]) && Enabled(Run(s, actions[..|actions| - 1]), actions[|actions| - 1])
  }

  /** What every step keeps: writes go to connected clients only, subscriptions belong to connected clients,
      and their identifiers were all given out and are pairwise distinct. */
  ghost predicate Inv(s: State) {
    && s.received.Keys == s.clients
    && (forall c :: c in s.subscriptions ==> c in s.clients)
    && (forall c, o :: Subscribed(s, c, o) ==> s.subscriptions[c][o] < s.nextId)
    && forall c, o, d, p ::
         Subscribed(s, c, o) && Subscribed(s, d, p) && s.subscriptions[c][o] == s.subscriptions[d][p] ==>
           c == d && o == p
  }

  lemma SubscribeKeepsInv(s: State, c: Client, oid: int)
    requires Inv(s) && c in s.clients
    ensures Inv(SubscribeOne(s, c, oid))
    ensures forall d, o :: Subscribed(s, d, o) ==> Subscribed(SubscribeOne(s, c, oid), d, o)
    ensures oid in s.objects ==> Subscribed(SubscribeOne(s, c, oid), c, oid)
    ensures SubscribeOne(s, c, oid).received == s.received && SubscribeOne(s, c, oid).objects == s.objects
    ensures SubscribeOne(s, c, oid).clients == s.clients
  {
    var s' := SubscribeOne(s, c, oid);
    assert forall d, o :: Subscribed(s', d, o) ==>
             (Subscribed(s, d, o) && s'.subscriptions[d][o] == s.subscriptions[d][o]) || (d == c && o == oid);
  }

  lemma {:induction false} SubscribeAllKeepsInv(s: State, c: Client, oids: seq<int>)
    requires Inv(s) && c in s.clients
    ensures var s' := SubscribeAll(s, c, oids);
            Inv(s') && s'.received == s.received && s'.objects == s.objects && s'.clients == s.clients &&
            (forall d, o :: Subscribed(s, d, o) ==> Subscribed(s', d, o)) &&
            (forall o :: o in oids && o in s.objects ==> Subscribed(s', c, o))
  {
    hide Inv, SubscribeOne, Subscribed;
    if oids != [] {
      var n := |oids| - 1;
      SubscribeAllKeepsInv(s, c, oids[..n]);
      SubscribeKeepsInv(SubscribeAll(s, c, oids[..n]), c, oids[n]);
    }
  }

  lemma StepKeepsInv(s: State, a: Action)
    requires Inv(s) && Enabled(s, a)
    ensures Inv(Do(s, a))
  {
    match a
    case Subscribe(c, oids) => SubscribeAllKeepsInv(s, c, oids);
    case Register(_, _) =>
    case Connect(_) =>
    case Disconnect(c) =>
      var s' := Do(s, a);
      assert forall d, o :: Subscribed(s', d, o) ==>
               Subscribed(s, d, o) && s'.subscriptions[d][o] == s.subscriptions[d][o];
    case Set(_, _, _, _, _) =>
      var s' := Do(s, a);
      assert forall d, o :: Subscribed(s', d, o) <==> Subscribed(s, d, o);
  }

  /** In every run live subscription identifiers stay pairwise distinct. */
  lemma {:induction false} RunKeepsInv(s: State, actions: seq<Action>)
    requires Inv(s) && Possible(s, actions)
    ensures Inv(Run(s, actions))
  {
    hide Inv, Do, Enabled;
    if actions != [] {
      var n := |actions| - 1;
      RunKeepsInv(s, actions[..n]);
      StepKeepsInv(Run(s, actions[..n]), actions[n]);
    }
  }

  // ---------------------------------------------------------------- nothing unasked for

  /** What a step writes to a client is one notification at most, and only of an object it is subscribed to,
      set by that very step to that very value. */
  lemma OnlySubscribed(s: State, a: Action, c: Client)
    requires Inv(s) && Enabled(s, a) && c in s.clients && c in Do(s, a).clients
    ensures var s' := Do(s, a);
            c in s'.received && s.received[c] <= s'.received[c] && |s'.received[c]| <= |s.received[c]| + 1 &&
            forall k :: |s.received[c]| <= k < |s'.received[c]| ==>
              a.Set? && s'.received[c][k] == Notification(a.oid, a.property, a.value) && Subscribed(s, c, a.oid)
  {
    match a
    case Subscribe(d, oids) => SubscribeAllKeepsInv(s, d, oids);
    case _ =>
  }

  /** In every run a client that never subscribes to an object is never notified of it, whatever others do. */
  lemma {:induction false} NothingUnasked(s: State, actions: seq<Action>, c: Client, oid: int)
    requires Inv(s) && Possible(s, actions) && c in s.clients && !Subscribed(s, c, oid)
    requires forall k :: 0 <= k < |actions| ==>
               !(actions[k].Subscribe? && actions[k].client == c && oid in actions[k].oids) &&
               actions[k] != Disconnect(c)
    ensures var s' := Run(s, actions);
            Inv(s') && c in s'.clients && !Subscribed(s', c, oid) && s.received[c] <= s'.received[c] &&
            forall k :: |s.received[c]| <= k < |s'.received[c]| ==> s'.received[c][k].oid != oid
  {
    hide Inv, Do, Enabled, Subscribed;
    if actions != [] {
      var n := |actions| - 1;
      var mid := Run(s, actions[..n]);
      NothingUnasked(s, actions[..n], c, oid);
      StaysUnsubscribed(mid, actions[n], c, oid);
      StepKeepsInv(mid, actions[n]);
      OnlySubscribed(mid, actions[n], c);
      InvReceived(s, c);
    } else {
      InvReceived(s, c);
    }
  }

  lemma InvReceived(s: State, c: Client)
    requires Inv(s) && c in s.clients
    ensures c in s.received
  {
  }

  lemma StaysUnsubscribed(s: State, a: Action, c: Client, oid: int)
    requires Inv(s) && Enabled(s, a) && c in s.clients && !Subscribed(s, c, oid) && a != Disconnect(c)
    requires !(a.Subscribe? && a.client == c && oid in a.oids)
    ensures c in Do(s, a).clients && !Subscribed(Do(s, a), c, oid)
  {
    match a
    case Subscribe(d, oids) =>
      SubscribeAllKeepsInv(s, d, oids);
      SubscribesExactly(s, d, oids, c, oid);
    case _ =>
  }

  // ---------------------------------------------------------------- a client's replica

  /** What a client takes a property to be, from a value it read and the notifications since. */
  function Replay(v: Value, since: seq<Notification>, oid: int, id: PropertyId): Value {
    if since == [] then v
    else
      var n := since[|since| - 1];
      if n.oid == oid && n.property == id then n.value else Replay(v, since[..|since| - 1], oid, id)
  }

  lemma {:induction false} ReplaySum(v: Value, a: seq<Notification>, b: seq<Notification>, oid: int, id: PropertyId)
    ensures Replay(v, a + b, oid, id) == Replay(Replay(v, a, oid, id), b, oid, id)
  {
    if b == [] {
      assert a + b == a;
    } else {
      assert (a + b)[..|a + b| - 1] == a + b[..|b| - 1];
      ReplaySum(v, a, b[..|b| - 1], oid, id);
    }
  }

  /** A client following an object. */
  predicate Follows(s: State, c: Client, oid: int) {
    c in s.clients && c in s.received && Subscribed(s, c, oid) && oid in s.objects
  }

  function Current(s: State, oid: int, id: PropertyId): Value
    requires oid in s.objects
  {
    s.objects[oid].Get(id)
  }

  /** Steps after which the client still follows the object. */
  predicate Keeps(a: Action, c: Client) {
    a != Disconnect(c)
  }

  /** A change the client is not told of: another object filed under the identifier with another value of
      the property, or a working set with another value whose write to the client fails. */
  predicate Silent(s: State, a: Action, c: Client, oid: int, id: PropertyId)
    requires oid in s.objects
  {
    || (a.Register? && a.oid == oid && a.cells.Get(id) != Current(s, oid, id))
    || (a.Set? && a.oid == oid && a.property == id && Works(s.objects[oid], id, a.value, a.accepted) &&
        c in a.failing && a.value != Current(s, oid, id))
  }

  lemma PutGet(w: Cells, property: PropertyId, v: Value, accepted: bool, id: PropertyId)
    requires Works(w, property, v, accepted)
    ensures Put(w, property, v).Get(id) == if property == id then v else w.Get(id)
  {
  }

  /** One step: the client's replica stays right exactly when the step is not a silent change. */
  lemma StepAgreesIff(s: State, a: Action, c: Client, oid: int, id: PropertyId)
    requires Inv(s) && Enabled(s, a) && Follows(s, c, oid) && Keeps(a, c)
    ensures var s' := Do(s, a);
            Follows(s', c, oid) && s.received[c] <= s'.received[c] &&
            (Replay(Current(s, oid, id), s'.received[c][|s.received[c]|..], oid, id) == Current(s', oid, id) <==>
             !Silent(s, a, c, oid, id))
  {
    var s', was := Do(s, a), s.received[c];
    match a
    case Subscribe(d, oids) =>
      SubscribeAllKeepsInv(s, d, oids);
      assert was[|was|..] == [];
    case Set(o, property, v, accepted, failing) =>
      if o in s.objects && Works(s.objects[o], property, v, accepted) {
        var w := s.objects[o];
        PutGet(w, property, v, accepted, id);
        var n := Notification(o, property, v);
        var news := if c in s.clients && Subscribed(s, c, o) && c !in failing then [n] else [];
        assert s'.received[c] == was + news;
        assert (was + news)[|was|..] == news;
        assert news == [] || (news[|news| - 1] == n && news[..|news| - 1] == []);
      } else {
        assert was[|was|..] == [];
      }
    case Register(_, _) => assert was[|was|..] == [];
    case Connect(_) => assert was[|was|..] == [];
    case Disconnect(_) => assert was[|was|..] == [];
  }

  /** No step of a run ends the following or is a silent change. */
  predicate AllTold(s: State, actions: seq<Action>, c: Client, oid: int, id: PropertyId) {
    actions != [] ==>
      var n := |actions| - 1;
      var mid := Run(s, actions[..n]);
      AllTold(s, actions[..n], c, oid, id) && Keeps(actions[n], c) &&
      (oid in mid.objects ==> !Silent(mid, actions[n], c, oid, id))
  }

  /** Replicas agree in every run: from what a client read when it followed the object, its notifications
      give the object's current value and label, as long as no step was a silent change. */
  lemma {:induction false} ReplicaAgrees(s: State, actions: seq<Action>, c: Client, oid: int, id: PropertyId)
    requires Inv(s) && Possible(s, actions) && Follows(s, c, oid)
    requires AllTold(s, actions, c, oid, id)
    ensures var s' := Run(s, actions);
            Follows(s', c, oid) && s.received[c] <= s'.received[c] &&
            Replay(Current(s, oid, id), s'.received[c][|s.received[c]|..], oid, id) == Current(s', oid, id)
  {
    hide Inv, Do, Enabled, Silent, Keeps;
    if actions != [] {
      var n := |actions| - 1;
      var mid := Run(s, actions[..n]);
      ReplicaAgrees(s, actions[..n], c, oid, id);
      RunKeepsInv(s, actions[..n]);
      StepAgreesIff(mid, actions[n], c, oid, id);
      var s', was := Run(s, actions), s.received[c];
      ReplaySum(Current(s, oid, id), mid.received[c][|was|..], s'.received[c][|mid.received[c]|..], oid, id);
      assert s'.received[c][|was|..] == mid.received[c][|was|..] + s'.received[c][|mid.received[c]|..];
    } else {
      assert s.received[c][|s.received[c]|..] == [];
    }
  }
}
