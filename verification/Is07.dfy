/** Event subscriptions over websockets: a subscription replaces the client's set of sources and is answered
    with the cached events, and a broadcast reaches the clients subscribed at that moment. Each handler is
    one atomic step. */
module Is07 {
  import opened Text

  datatype Event = Event(source: string, flow: string, kind: string, payload: string, timestamp: string)

  /** A client, by its connection's number. */
  type Client = int

  /** Connected clients with their sources, the last event cached for each source, and what was written to
      each client. */
  datatype State = State(clients: map<Client, set<string>>, lastEvents: map<string, Event>,
                         received: map<Client, seq<Event>>)

  const INITIAL: State := State(map[], map[], map[])

  /** `lost` are the positions in the answer whose writes fail; `failing` are the clients a broadcast cannot
      reach. */
  datatype Action =
    | Connect(client: Client)
    | Disconnect(client: Client)
    | Subscribe(client: Client, sources: seq<string>, lost: set<nat>)
    | Broadcast(event: Event, failing: set<Client>)

  predicate Listens(s: State, c: Client, source: string) {
    c in s.clients && source in s.clients[c]
  }

  ghost predicate Audience(s: State, source: string) {
    exists c :: Listens(s, c, source)
  }

  /** The cached events of the sources listed, in order. */
  function Cached(lastEvents: map<string, Event>, sources: seq<string>): seq<Event> {
    if sources == [] then []
    else Cached(lastEvents, sources[..|sources| - 1]) +
         (if sources[|sources| - 1] in lastEvents then [lastEvents[sources[|sources| - 1]]] else [])
  }

  /** The events whose writes work. */
  function Written(events: seq<Event>, lost: set<nat>): seq<Event> {
    if events == [] then []
    else
      var n := |events| - 1;
      Written(events[..n], lost) + if n in lost then [] else [events[n]]
  }

  function SourceSet(sources: seq<string>): set<string> {
    set x | x in sources
  }

  /** The cached events written to a client are those of the listed sources that have one, in the order listed. */
  lemma {:induction false} CachedExactly(lastEvents: map<string, Event>, sources: seq<string>) returns (at: seq<nat>)
    ensures Choice(at, 0, |sources|) && |Cached(lastEvents, sources)| == |at|
    ensures forall k :: 0 <= k < |at| ==>
              sources[at[k]] in lastEvents && Cached(lastEvents, sources)[k] == lastEvents[sources[at[k]]]
    ensures forall j :: 0 <= j < |sources| ==> (j in at <==> sources[j] in lastEvents)
  {
    at := [];
    if sources != [] {
      var n := |sources| - 1;
      at := CachedExactly(lastEvents, sources[..n]);
      assert forall k :: 0 <= k < |at| ==> sources[..n][at[k]] == sources[at[k]];
      if sources[n] in lastEvents {
        at := at + [n];
      }
    }
  }

  /** Of the events to write exactly those whose write works arrive, once each and in order. */
  lemma {:induction false} WrittenExactly(events: seq<Event>, lost: set<nat>) returns (at: seq<nat>)
    ensures Choice(at, 0, |events|) && |Written(events, lost)| == |at|
    ensures forall k :: 0 <= k < |at| ==> Written(events, lost)[k] == events[at[k]]
    ensures forall j: nat :: j < |events| ==> (j in at <==> j !in lost)
  {
    at := [];
    if events != [] {
      var n := |events| - 1;
      at := WrittenExactly(events[..n], lost);
      assert forall k :: 0 <= k < |at| ==> events[..n][at[k]] == events[at[k]];
      if n !in lost {
        at := at + [n];
      }
    }
  }

  predicate Enabled(s: State, a: Action) {
    match a
    case Connect(c) => c !in s.clients
    case _ => true
  }

  ghost function Do(s: State, a: Action): State {
    match a
    case Connect(c) => s.(clients := s.clients[c := {}], received := s.received[c := []])
    case Disconnect(c) => s.(clients := s.clients - {c}, received := s.received - {c})
    case Subscribe(c, sources, lost) =>
      if c !in s.clients || c !in s.received then s
      else s.(clients := s.clients[c := SourceSet(sources)],
              received := s.received[c := s.received[c] + Written(Cached(s.lastEvents, sources), lost)])
    case Broadcast(e, failing) =>
      if !Audience(s, e.source) then s
      else
        var gone := set c | c in s.clients && e.source in s.clients[c] && c in failing;
        s.(lastEvents := s.lastEvents[e.source := e],
           clients := s.clients - gone,
           received := map c | c in s.received && c !in gone ::
                         s.received[c] + if Listens(s, c, e.source) then [e] else [])
  }

  // ---------------------------------------------------------------- the handlers as the source writes them

  class EventServer {
    var clients: map<Client, set<string>>
    var lastEvents: map<string, Event>
    ghost var received: map<Client, seq<Event>>

    ghost predicate Valid()
      reads this
    {
      received.Keys == clients.Keys
    }

    ghost function View(): State
      reads this
    {
      State(clients, lastEvents, received)
    }

    constructor ()
      ensures Valid() && View() == INITIAL
    {
      clients, lastEvents, received := map[], map[], map[];
    }

    /** A client connects, with no source yet. */
    method ConnectClient(c: Client)
      requires Valid() && c !in clients
      modifies this`clients, this`received
      ensures Valid() && View() == Do(old(View()), Connect(c))
      ensures clients == old(clients)[c := {}] && received == old(received)[c := []]
    {
      clients, received := clients[c := {}], received[c := []];
    }

    /** A client is gone. */
    method DisconnectClient(c: Client)
      requires Valid()
      modifies this`clients, this`received
      ensures Valid() && View() == Do(old(View()), Disconnect(c))
      ensures clients == old(clients) - {c} && received == old(received) - {c}
    {
      clients, received := clients - {c}, received - {c};
    }

    /** A client's subscription command. */
    method HandleSubscription(c: Client, sources: seq<string>, lost: set<nat>)
      requires Valid()
      modifies this`clients, this`received
      ensures Valid() && View() == Do(old(View()), Subscribe(c, sources, lost))
      ensures clients.Keys == old(clients).Keys && lastEvents == old(lastEvents)
      ensures forall d :: d in clients && d != c ==> clients[d] == old(clients)[d] && received[d] == old(received)[d]
      ensures c in clients ==> (forall x :: x in clients[c] <==> x in sources)
    {
      var subs, eventsToSend := {}, [];
      for k := 0 to |sources|
        invariant subs == SourceSet(sources[..k]) && eventsToSend == Cached(lastEvents, sources[..k])
      {
        assert sources[..k + 1][..k] == sources[..k];
        subs := subs + {sources[k]};
        if sources[k] in lastEvents {
          eventsToSend := eventsToSend + [lastEvents[sources[k]]];
        }
      }
      assert sources[..|sources|] == sources;
      if c in clients {
        clients := clients[c := subs];
      }
      SendStates(c, eventsToSend, lost);
    }

    /** Writes events to a client, if it is still connected; a failed write is passed over. */
    method SendStates(c: Client, events: seq<Event>, lost: set<nat>)
      requires Valid()
      modifies this`received
      ensures received == if c in clients then old(received)[c := old(received)[c] + Written(events, lost)]
                          else old(received)
    {
      hide Written;
      ghost var written: seq<Event> := [];
      NoneWritten(lost);
      if c in clients {
        assert old(received)[c] + [] == old(received)[c];
        assert old(received)[c := old(received)[c]] == old(received);
      }
      for k := 0 to |events|
        invariant written == Written(events[..k], lost) && Valid()
        invariant received == if c in clients then old(received)[c := old(received)[c] + written] else old(received)
      {
        WriteNext(events, lost, k);
        if c in clients && k !in lost {
          received := received[c := received[c] + [events[k]]];
          assert old(received)[c] + written + [events[k]] == old(received)[c] + (written + [events[k]]);
        }
        written := if k in lost then written else written + [events[k]];
      }
      assert events[..|events|] == events;
    }

    /** Sends an event to the clients subscribed to its source; without any it is not even cached. A client
        that cannot be written to is dropped. */
    method BroadcastEvent(e: Event, failing: set<Client>)
      requires Valid()
      modifies this
      ensures Valid() && View() == Do(old(View()), Broadcast(e, failing))
      ensures forall c :: c in clients <==> c in old(clients) && !(e.source in old(clients)[c] && c in failing)
      ensures forall c :: c in clients ==> clients[c] == old(clients)[c]
      ensures forall c :: c in clients ==>
                received[c] == old(received)[c] + if e.source in clients[c] then [e] else []
      ensures lastEvents == if exists c :: c in old(clients) && e.source in old(clients)[c]
                            then old(lastEvents)[e.source := e] else old(lastEvents)
    {
      hide Do;
      var subscribed := set c | c in clients && e.source in clients[c];
      assert forall c :: c in subscribed <==> Listens(View(), c, e.source);
      assert forall c :: c in clients && e.source in clients[c] ==> c in subscribed;
      if subscribed == {} {
        NoAudience(View(), e, failing);
        return;
      }
      OccupiedInts(subscribed);
      lastEvents := lastEvents[e.source := e];
      WriteToAll(subscribed, e, failing);
      BroadcastDone(old(View()), View(), e, failing);
    }

    method WriteToAll(subscribed: set<Client>, e: Event, failing: set<Client>)
      requires Valid() && subscribed <= clients.Keys
      modifies this`clients, this`received
      ensures Valid() && clients.Keys == old(clients.Keys) - subscribed * failing
      ensures forall c :: c in clients ==> clients[c] == old(clients)[c]
      ensures forall c :: c in clients ==>
                received[c] == if c in subscribed then old(received)[c] + [e] else old(received)[c]
    {
      var left := subscribed;
      while left != {}
        invariant left <= subscribed && Valid()
        invariant clients.Keys == old(clients.Keys) - (subscribed - left) * failing
        invariant forall c :: c in clients ==> clients[c] == old(clients)[c]
        invariant forall c :: c in clients ==>
                    received[c] == if c in subscribed && c !in left then old(received)[c] + [e] else old(received)[c]
        decreases |left|
      {
        OccupiedInts(left);
        var client: Client :| client in left;
        left := left - {client};
        if client in failing {
          clients, received := clients - {client}, received - {client};
        } else {
          received := received[client := received[client] + [e]];
        }
      }
    }
  }

  lemma NoneWritten(lost: set<nat>)
    ensures Written([], lost) == []
  {
  }

  lemma WriteNext(events: seq<Event>, lost: set<nat>, k: nat)
    requires k < |events|
    ensures Written(events[..k + 1], lost) ==
            if k in lost then Written(events[..k], lost) else Written(events[..k], lost) + [events[k]]
  {
    assert events[..k + 1][..k] == events[..k];
    assert Written(events[..k], lost) + [] == Written(events[..k], lost);
  }

  lemma NoAudience(s: State, e: Event, failing: set<Client>)
    requires forall c :: !Listens(s, c, e.source)
    ensures Do(s, Broadcast(e, failing)) == s
  {
  }

  lemma BroadcastDone(s: State, s': State, e: Event, failing: set<Client>)
    requires s.received.Keys == s.clients.Keys && s'.received.Keys == s'.clients.Keys && Audience(s, e.source)
    requires s'.lastEvents == s.lastEvents[e.source := e]
    requires s'.clients.Keys == s.clients.Keys - (set c | c in s.clients && e.source in s.clients[c]) * failing
    requires forall c :: c in s'.clients ==> s'.clients[c] == s.clients[c]
    requires forall c :: c in s'.clients ==>
               s'.received[c] == if e.source in s.clients[c] then s.received[c] + [e] else s.received[c]
    ensures s' == Do(s, Broadcast(e, failing))
  {
    var t := Do(s, Broadcast(e, failing));
    var gone := set c | c in s.clients && e.source in s.clients[c] && c in failing;
    assert gone == (set c | c in s.clients && e.source in s.clients[c]) * failing;
    assert t.clients == s.clients - gone;
    assert t.clients.Keys == s'.clients.Keys;
    assert forall c :: c in t.clients ==> c in s'.clients && t.clients[c] == s'.clients[c];
    assert t.clients == s'.clients;
    forall c | c in t.received
      ensures c in s'.received && s'.received[c] == t.received[c]
    {
      assert s.received[c] + [] == s.received[c];
    }
    assert t.received == s'.received;
  }

  // ---------------------------------------------------------------- every run

  ghost function Run(s: State, actions: seq<Action>): State {
    if actions == [] then s else Do(Run(s, actions[..|actions| - 1]), actions[|actions| - 1])
  }

  ghost predicate Possible(s: State, actions: seq<Action>) {
    actions != [] ==>
      Possible(s, actions[..|actions| - 1]) && Enabled(Run(s, actions[..|actions| - 1]), actions[|actions| - 1])
  }

  /** The last event of a source in a history. */
  function Last(history: seq<Event>, source: string): Option<Event> {
    if history == [] then None
    else if history[|history| - 1].source == source then Some(history[|history| - 1])
    else Last(history[..|history| - 1], source)
  }

  lemma {:induction false} LastOfSum(a: seq<Event>, b: seq<Event>, source: string)
    ensures Last(a + b, source) == if Last(b, source).Some? then Last(b, source) else Last(a, source)
  {
    if b == [] {
      assert a + b == a;
    } else {
      assert (a + b)[..|a + b| - 1] == a + b[..|b| - 1];
      LastOfSum(a, b[..|b| - 1], source);
    }
  }

  /** Cached events are filed under their own source. */
  ghost predicate OwnSources(lastEvents: map<string, Event>) {
    forall x :: x in lastEvents ==> lastEvents[x].source == x
  }

  /** The answer holds cached events of the listed sources, and of each that is cached. */
  lemma {:induction false} CachedEvents(lastEvents: map<string, Event>, sources: seq<string>)
    requires OwnSources(lastEvents)
    ensures forall e :: e in Cached(lastEvents, sources) ==>
              e.source in sources && e.source in lastEvents && e == lastEvents[e.source]
    ensures forall x :: x in sources && x in lastEvents ==> lastEvents[x] in Cached(lastEvents, sources)
  {
    if sources != [] {
      CachedEvents(lastEvents, sources[..|sources| - 1]);
      assert sources == sources[..|sources| - 1] + [sources[|sources| - 1]];
    }
  }

  /** Some event of the source is written. */
  ghost predicate Arrives(events: seq<Event>, lost: set<nat>, source: string) {
    exists k: nat :: k < |events| && k !in lost && events[k].source == source
  }

  lemma ArrivesNext(events: seq<Event>, lost: set<nat>, k: nat, source: string)
    requires k < |events|
    ensures Arrives(events[..k + 1], lost, source) <==>
              Arrives(events[..k], lost, source) || (k !in lost && events[k].source == source)
  {
    if i: nat :| i < k + 1 && i !in lost && events[..k + 1][i].source == source {
      assert i < k ==> events[..k][i] == events[i];
    }
    if i: nat :| i < k && i !in lost && events[..k][i].source == source {
      assert events[..k + 1][i] == events[i];
    }
    if k !in lost && events[k].source == source {
      assert events[..k + 1][k] == events[k];
    }
  }

  /** The last event written of a source is its cached one, if any is. */
  lemma {:induction false} LastOfWritten(events: seq<Event>, lost: set<nat>, lastEvents: map<string, Event>,
                                         source: string, n: nat)
    requires n <= |events| && forall e :: e in events ==> e.source in lastEvents && e == lastEvents[e.source]
    ensures forall e :: e in Written(events[..n], lost) ==> e in events
    ensures Arrives(events[..n], lost, source) ==>
              source in lastEvents && Last(Written(events[..n], lost), source) == Some(lastEvents[source])
    ensures !Arrives(events[..n], lost, source) ==> Last(Written(events[..n], lost), source) == None
  {
    if n > 0 {
      hide Written, Arrives;
      var k := n - 1;
      LastOfWritten(events, lost, lastEvents, source, k);
      ArrivesNext(events, lost, k, source);
      WriteNext(events, lost, k);
      if k !in lost {
        assert (Written(events[..k], lost) + [events[k]])[..|Written(events[..k], lost)|] == Written(events[..k], lost);
      }
    } else {
      NoneWritten(lost);
    }
  }

  /** A client's view of a source it hears is the cached event, if there is one. */
  ghost predicate Sees(s: State, c: Client, source: string) {
    c in s.received && (source in s.lastEvents ==> Last(s.received[c], source) == Some(s.lastEvents[source]))
  }

  /** What every step keeps: a record of writes for exactly the connected clients, and cached events under their
      own source. */
  ghost predicate Orderly(s: State) {
    s.received.Keys == s.clients.Keys && OwnSources(s.lastEvents)
  }

  lemma StepKeepsOrder(s: State, a: Action)
    requires Orderly(s) && Enabled(s, a)
    ensures Orderly(Do(s, a))
  {
    match a
    case Subscribe(_, _, _) =>
    case Broadcast(_, _) =>
    case Connect(_) =>
    case Disconnect(_) =>
  }

  ghost predicate Coherent(s: State) {
    && Orderly(s)
    && forall c, source :: Listens(s, c, source) ==> Sees(s, c, source)
  }

  /** A subscription with a source all of whose events in the answer are lost, while the client has not seen
      the cached one. */
  ghost predicate Lost(s: State, a: Action) {
    && a.Subscribe? && a.client in s.clients && a.client in s.received
    && exists source :: Missed(s, a.client, a.sources, a.lost, source)
  }

  ghost predicate Missed(s: State, c: Client, sources: seq<string>, lost: set<nat>, source: string)
    requires c in s.received
  {
    && source in sources && source in s.lastEvents
    && !Arrives(Cached(s.lastEvents, sources), lost, source)
    && Last(s.received[c], source) != Some(s.lastEvents[source])
  }

  /** What the answer does to the client's view of one source. */
  lemma AnswerSeen(s: State, a: Action, source: string)
    requires Coherent(s) && a.Subscribe? && a.client in s.clients && a.client in s.received
    ensures Listens(Do(s, a), a.client, source) <==> source in a.sources
    ensures source in a.sources ==>
              (Sees(Do(s, a), a.client, source) <==> !Missed(s, a.client, a.sources, a.lost, source))
  {
    hide Arrives;
    var events := Cached(s.lastEvents, a.sources);
    CachedEvents(s.lastEvents, a.sources);
    LastOfWritten(events, a.lost, s.lastEvents, source, |events|);
    assert events[..|events|] == events;
    LastOfSum(s.received[a.client], Written(events, a.lost), source);
  }

  lemma SubscribeCoherentIff(s: State, a: Action)
    requires Coherent(s) && a.Subscribe?
    ensures Coherent(Do(s, a)) <==> !Lost(s, a)
  {
    hide Missed, Cached, Written;
    var s', c := Do(s, a), a.client;
    if c in s.clients {
      forall source
        ensures Listens(s', c, source) ==> (Sees(s', c, source) <==> !Missed(s, c, a.sources, a.lost, source))
        ensures Missed(s, c, a.sources, a.lost, source) ==> Listens(s', c, source)
      {
        AnswerSeen(s, a, source);
        MissedListed(s, c, a.sources, a.lost, source);
      }
      forall d, source | d != c && Listens(s', d, source)
        ensures Sees(s', d, source)
      {
        assert Listens(s, d, source);
      }
    }
  }

  lemma MissedListed(s: State, c: Client, sources: seq<string>, lost: set<nat>, source: string)
    requires c in s.received
    ensures Missed(s, c, sources, lost, source) ==> source in sources
  {
  }

  lemma OtherStepCoherent(s: State, a: Action)
    requires Coherent(s) && Enabled(s, a) && !a.Subscribe?
    ensures Coherent(Do(s, a))
  {
    var s' := Do(s, a);
    forall c, source | Listens(s', c, source)
      ensures Sees(s', c, source)
    {
      assert Listens(s, c, source);
      match a
      case Broadcast(e, failing) =>
        if Audience(s, e.source) {
          var news := if Listens(s, c, e.source) then [e] else [];
          assert s'.received[c] == s.received[c] + news;
          LastOfSum(s.received[c], news, source);
          assert news != [] ==> news[..0] == [];
        }
      case Connect(_) =>
      case Disconnect(_) =>
    }
  }

  /** Every step keeps the views right but a subscription in whose answer a source is lost. */
  lemma StepCoherentIff(s: State, a: Action)
    requires Coherent(s) && Enabled(s, a)
    ensures Coherent(Do(s, a)) <==> !Lost(s, a)
  {
    if a.Subscribe? {
      SubscribeCoherentIff(s, a);
    } else {
      OtherStepCoherent(s, a);
    }
  }

  /** In every run in which no answer is lost, each client subscribed to a source has last received exactly
      the cached event of that source. */
  lemma {:induction false} RunCoherent(actions: seq<Action>)
    requires Possible(INITIAL, actions)
    requires forall k :: 0 <= k < |actions| ==> !Lost(Run(INITIAL, actions[..k]), actions[k])
    ensures Coherent(Run(INITIAL, actions))
  {
    hide Coherent, Do, Enabled, Lost;
    if actions == [] {
      InitialCoherent();
    } else {
      var n := |actions| - 1;
      forall k | 0 <= k < n
        ensures !Lost(Run(INITIAL, actions[..n][..k]), actions[..n][k])
      {
        assert actions[..n][..k] == actions[..k];
      }
      RunCoherent(actions[..n]);
      StepCoherentIff(Run(INITIAL, actions[..n]), actions[n]);
    }
  }

  lemma InitialCoherent()
    ensures Coherent(INITIAL)
  {
  }

  /** An answer holds events of the listed sources only. */
  lemma AnswerIsOwn(lastEvents: map<string, Event>, sources: seq<string>, lost: set<nat>) returns (news: seq<Event>)
    requires OwnSources(lastEvents)
    ensures news == Written(Cached(lastEvents, sources), lost)
    ensures forall k :: 0 <= k < |news| ==> news[k].source in SourceSet(sources)
  {
    var events := Cached(lastEvents, sources);
    var at := CachedExactly(lastEvents, sources);
    var picked := WrittenExactly(events, lost);
    news := Written(events, lost);
    forall k | 0 <= k < |news|
      ensures news[k].source in SourceSet(sources)
    {
      assert news[k] == events[picked[k]] && events[picked[k]] == lastEvents[sources[at[picked[k]]]];
    }
  }

  lemma OwnAnswer(s: State, c: Client, sources: seq<string>, lost: set<nat>)
    requires Orderly(s) && c in s.clients
    ensures var s' := Do(s, Subscribe(c, sources, lost));
            c in s'.clients && c in s'.received && s.received[c] <= s'.received[c] &&
            forall k :: |s.received[c]| <= k < |s'.received[c]| ==> Listens(s', c, s'.received[c][k].source)
  {
    hide Cached, Written, SourceSet;
    var news := AnswerIsOwn(s.lastEvents, sources, lost);
    var s', was := Do(s, Subscribe(c, sources, lost)), s.received[c];
    assert s'.received[c] == was + news;
    assert forall k :: |was| <= k < |was + news| ==> (was + news)[k] == news[k - |was|];
  }

  /** What a step writes to a client is for sources it is subscribed to after the step. */
  lemma OnlySubscribed(s: State, a: Action, c: Client)
    requires Orderly(s) && Enabled(s, a) && c in s.clients && c in Do(s, a).clients
    ensures var s' := Do(s, a);
            c in s'.received && s.received[c] <= s'.received[c] &&
            forall k :: |s.received[c]| <= k < |s'.received[c]| ==> Listens(s', c, s'.received[c][k].source)
  {
    var s' := Do(s, a);
    match a
    case Subscribe(d, sources, lost) =>
      if d == c {
        OwnAnswer(s, c, sources, lost);
      }
    case Broadcast(_, _) =>
    case Connect(_) =>
    case Disconnect(_) =>
  }

  lemma {:induction false} RunKeepsOrder(s: State, actions: seq<Action>)
    requires Orderly(s) && Possible(s, actions)
    ensures Orderly(Run(s, actions))
  {
    if actions != [] {
      hide Orderly;
      var n := |actions| - 1;
      RunKeepsOrder(s, actions[..n]);
      StepKeepsOrder(Run(s, actions[..n]), actions[n]);
    }
  }

  /** In every run, between two subscriptions of a client all it receives is for the sources of the first,
      whatever answers are lost. */
  lemma NothingOutside(before: seq<Action>, after: seq<Action>, c: Client)
    requires Possible(INITIAL, before) && Possible(Run(INITIAL, before), after)
    requires c in Run(INITIAL, before).clients
    requires forall k :: 0 <= k < |after| ==> !(after[k].Subscribe? && after[k].client == c)
    requires forall k :: 0 <= k < |after| ==> !(after[k].Connect? && after[k].client == c)
    ensures var s, s' := Run(INITIAL, before), Run(Run(INITIAL, before), after);
            c in s'.clients ==>
              c in s.received && c in s'.received &&
              s'.clients[c] == s.clients[c] && s.received[c] <= s'.received[c] &&
              forall k :: |s.received[c]| <= k < |s'.received[c]| ==> s'.received[c][k].source in s.clients[c]
  {
    RunKeepsOrder(INITIAL, before);
    NothingOutsideFrom(Run(INITIAL, before), after, c);
  }

  lemma {:induction false} NothingOutsideFrom(s: State, actions: seq<Action>, c: Client)
    requires Orderly(s) && Possible(s, actions) && c in s.clients
    requires forall k :: 0 <= k < |actions| ==> !(actions[k].Subscribe? && actions[k].client == c)
    requires forall k :: 0 <= k < |actions| ==> !(actions[k].Connect? && actions[k].client == c)
    ensures var s' := Run(s, actions);
            Orderly(s') &&
            (c in s'.clients ==>
               s'.clients[c] == s.clients[c] && s.received[c] <= s'.received[c] &&
               forall k :: |s.received[c]| <= k < |s'.received[c]| ==> s'.received[c][k].source in s.clients[c])
  {
    if actions != [] {
      var n := |actions| - 1;
      var mid, s' := Run(s, actions[..n]), Run(s, actions);
      NothingOutsideFrom(s, actions[..n], c);
      StepKeepsOrder(mid, actions[n]);
      if c in s'.clients {
        assert c in mid.clients;
        OnlySubscribed(mid, actions[n], c);
      }
    }
  }

  // ---------------------------------------------------------------- the cache and what was broadcast

  /** Step `k` broadcasts an event of the source and somebody is subscribed. */
  ghost predicate HeardAt(actions: seq<Action>, k: int, source: string) {
    && 0 <= k < |actions| && actions[k].Broadcast? && actions[k].event.source == source
    && Audience(Run(INITIAL, actions[..k]), source)
  }

  lemma HeardEarlier(actions: seq<Action>, n: nat, k: int, source: string)
    requires n < |actions|
    ensures HeardAt(actions[..n], k, source) <==> HeardAt(actions, k, source) && k < n
  {
    if 0 <= k < n {
      assert actions[..n][..k] == actions[..k];
    }
  }

  lemma CacheStep(s: State, a: Action)
    ensures Do(s, a).lastEvents ==
              if a.Broadcast? && Audience(s, a.event.source) then s.lastEvents[a.event.source := a.event]
              else s.lastEvents
  {
  }

  /** The last broadcast of a source that had an audience. */
  ghost predicate LastHeardAt(actions: seq<Action>, k: int, source: string) {
    HeardAt(actions, k, source) && forall j :: HeardAt(actions, j, source) ==> j <= k
  }

  /** A broadcast is cached exactly when somebody is subscribed, so the cache is the last event that had an
      audience, not the last one broadcast. */
  lemma {:induction false} CacheIsLastHeard(actions: seq<Action>, source: string)
    ensures source in Run(INITIAL, actions).lastEvents <==> exists k :: HeardAt(actions, k, source)
    ensures forall k :: LastHeardAt(actions, k, source) ==>
              source in Run(INITIAL, actions).lastEvents && Run(INITIAL, actions).lastEvents[source] == actions[k].event
    ensures source in Run(INITIAL, actions).lastEvents ==> exists k :: LastHeardAt(actions, k, source)
  {
    hide Do, Audience;
    if k :| HeardAt(actions, k, source) {
      var last := LastExists(actions, source, k);
    }
    if actions != [] {
      var n := |actions| - 1;
      CacheIsLastHeard(actions[..n], source);
      CacheStep(Run(INITIAL, actions[..n]), actions[n]);
      CacheGrows(actions, n, source);
    }
  }

  lemma {:induction false} LastExists(actions: seq<Action>, source: string, k: int) returns (last: int)
    requires HeardAt(actions, k, source)
    ensures LastHeardAt(actions, last, source)
    decreases |actions| - k
  {
    hide Audience;
    last := k;
    if j :| HeardAt(actions, j, source) && j > k {
      last := LastExists(actions, source, j);
    }
  }

  lemma CacheGrows(actions: seq<Action>, n: nat, source: string)
    requires n == |actions| - 1
    ensures HeardAt(actions, n, source) <==>
              actions[n].Broadcast? && actions[n].event.source == source && Audience(Run(INITIAL, actions[..n]), source)
    ensures HeardAt(actions, n, source) ==> forall k :: LastHeardAt(actions, k, source) ==> k == n
    ensures (exists k :: HeardAt(actions, k, source)) <==>
              HeardAt(actions, n, source) || exists k :: HeardAt(actions[..n], k, source)
    ensures !HeardAt(actions, n, source) ==>
              forall k :: LastHeardAt(actions, k, source) ==> LastHeardAt(actions[..n], k, source)
  {
    hide Audience, Run;
    forall k
      ensures HeardAt(actions[..n], k, source) <==> HeardAt(actions, k, source) && k < n
    {
      HeardEarlier(actions, n, k, source);
    }
    hide HeardAt;
    assert forall k :: HeardAt(actions, k, source) ==> k <= n by { InRange(actions, source); }
  }

  lemma InRange(actions: seq<Action>, source: string)
    ensures forall k :: HeardAt(actions, k, source) ==> 0 <= k < |actions|
  {
  }

  /** So a subscription can be answered with an outdated event: here the second of two events is broadcast
      while nobody listens, and the client that subscribes again is left with the first. */
  lemma OutdatedAnswer(c: Client, first: Event, second: Event)
    requires first.source == second.source
    ensures var x := first.source;
            var s := Run(INITIAL, [Connect(c), Subscribe(c, [x], {}), Broadcast(first, {}), Subscribe(c, [], {}),
                                   Broadcast(second, {}), Subscribe(c, [x], {})]);
            Listens(s, c, x) && c in s.received && Last(s.received[c], x) == Some(first)
  {
    var x := first.source;
    var a := [Connect(c), Subscribe(c, [x], {}), Broadcast(first, {}), Subscribe(c, [], {}),
              Broadcast(second, {}), Subscribe(c, [x], {})];
    var s1 := Do(INITIAL, a[0]);
    var s2 := Do(s1, a[1]);
    assert Cached(map[], [x]) == [] by { assert [x][..0] == []; }
    NoneWritten({});
    assert s2.clients[c] == {x};
    var s3 := Do(s2, a[2]);
    assert Listens(s2, c, x);
    var s4 := Do(s3, a[3]);
    assert forall d :: !Listens(s4, d, x);
    var s5 := Do(s4, a[4]);
    var s6 := Do(s5, a[5]);
    RunSteps(a, s1, s2, s3, s4, s5, s6);
    AnswerIsCached(s5, c, x);
  }

  /** A subscription answered in full leaves the client with the cached event. */
  lemma AnswerIsCached(s: State, c: Client, x: string)
    requires OwnSources(s.lastEvents) && x in s.lastEvents && c in s.clients && c in s.received
    ensures var s' := Do(s, Subscribe(c, [x], {}));
            Listens(s', c, x) && c in s'.received && Last(s'.received[c], x) == Some(s.lastEvents[x])
  {
    var events := Cached(s.lastEvents, [x]);
    CachedEvents(s.lastEvents, [x]);
    LastOfWritten(events, {}, s.lastEvents, x, |events|);
    assert events[..|events|] == events;
    LastOfSum(s.received[c], Written(events, {}), x);
  }

  lemma RunSteps(a: seq<Action>, s1: State, s2: State, s3: State, s4: State, s5: State, s6: State)
    requires |a| == 6 && s1 == Do(INITIAL, a[0]) && s2 == Do(s1, a[1]) && s3 == Do(s2, a[2]) && s4 == Do(s3, a[3])
    requires s5 == Do(s4, a[4]) && s6 == Do(s5, a[5])
    ensures Run(INITIAL, a) == s6
  {
    hide Do;
    assert a[..1][..0] == [] && a[..2][..1] == a[..1] && a[..3][..2] == a[..2] && a[..4][..3] == a[..3];
    assert a[..5][..4] == a[..4];
    assert Run(INITIAL, a[..1]) == s1;
    assert Run(INITIAL, a[..2]) == s2;
    assert Run(INITIAL, a[..3]) == s3;
    assert Run(INITIAL, a[..4]) == s4;
    assert Run(INITIAL, a[..5]) == s5;
  }
}
