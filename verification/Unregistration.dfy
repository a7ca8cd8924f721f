/** Controlled unregistration: devices in sorted order, each after all of its children, children deleted
    concurrently through four slots, the node last. */
module Unregistration {
  import opened Text
  import opened RolePaths

  /** A resource as the collecting loop reads it: kind, and the fields it finds to be text. */
  datatype Entry = Entry(kind: string, id: Option<string>, device: Option<string>)

  /** A deletion request. */
  datatype Deletion = Deletion(kind: string, id: string)

  /** A child to delete. */
  datatype Child = Child(kind: string, id: string, device: string) {
    function Delete(): Deletion {
      Deletion(kind, id)
    }
  }

  /** The entries that have an identifier and a device, as children. */
  function Children(entries: seq<Entry>): seq<Child> {
    if entries == [] then []
    else
      var e := entries[|entries| - 1];
      Children(entries[..|entries| - 1]) +
      (if e.id.Some? && e.device.Some? then [Child(e.kind, e.id.value, e.device.value)] else [])
  }

  /** The children are exactly the entries with both fields. */
  lemma {:induction false} ChildrenIff(entries: seq<Entry>, c: Child)
    ensures c in Children(entries) <==>
              exists k :: 0 <= k < |entries| && entries[k] == Entry(c.kind, Some(c.id), Some(c.device))
    ensures |Children(entries)| <= |entries|
  {
    if entries != [] {
      var n := |entries| - 1;
      ChildrenIff(entries[..n], c);
      assert forall k :: 0 <= k < n ==> entries[..n][k] == entries[k];
      if c in Children(entries[..n]) {
        var k :| 0 <= k < n && entries[..n][k] == Entry(c.kind, Some(c.id), Some(c.device));
        assert entries[k] == Entry(c.kind, Some(c.id), Some(c.device));
      }
    }
  }

  function Of(children: seq<Child>, device: string): seq<Child> {
    if children == [] then []
    else
      var c := children[|children| - 1];
      Of(children[..|children| - 1], device) + (if c.device == device then [c] else [])
  }

  function DevicesOf(children: seq<Child>): set<string> {
    set c | c in children :: c.device
  }

  // ---------------------------------------------------------------- sorted order

  predicate Less(a: string, b: string) {
    b != "" && (a == "" || a[0] < b[0] || (a[0] == b[0] && Less(a[1..], b[1..])))
  }

  /** Where two texts part: up to there they agree, and there the first ends, or has the smaller character. */
  predicate PartsAt(a: string, b: string, p: int) {
    && 0 <= p <= |a| && p <= |b| && a[..p] == b[..p]
    && ((p == |a| && p < |b|) || (p < |a| && p < |b| && a[p] < b[p]))
  }

  ghost predicate Precedes(a: string, b: string) {
    exists p :: PartsAt(a, b, p)
  }

  /** The order of texts: by the first character that differs, a text before what extends it. */
  lemma {:induction false} LessIff(a: string, b: string)
    ensures Less(a, b) <==> Precedes(a, b)
  {
    if a == "" {
      assert b != "" ==> PartsAt(a, b, 0);
    } else if b != "" {
      LessIff(a[1..], b[1..]);
      if Less(a, b) {
        if a[0] == b[0] {
          var p :| PartsAt(a[1..], b[1..], p);
          PartsLater(a, b, p + 1);
        } else {
          assert PartsAt(a, b, 0);
        }
      }
      if p :| PartsAt(a, b, p) && p > 0 {
        assert a[0] == a[..p][0] && b[0] == b[..p][0];
        PartsLater(a, b, p);
      }
    }
  }

  lemma PartsLater(a: string, b: string, p: int)
    requires a != "" && b != "" && a[0] == b[0] && p > 0
    ensures PartsAt(a, b, p) <==> PartsAt(a[1..], b[1..], p - 1)
  {
    if p <= |a| && p <= |b| {
      assert a[..p] == [a[0]] + a[1..][..p - 1] && b[..p] == [b[0]] + b[1..][..p - 1];
      assert a[..p][1..] == a[1..][..p - 1] && b[..p][1..] == b[1..][..p - 1];
    }
  }

  lemma {:induction false} LessTotal(a: string, b: string)
    ensures Less(a, b) || Less(b, a) || a == b
  {
    if a != "" && b != "" && a[0] == b[0] {
      LessTotal(a[1..], b[1..]);
      assert a == [a[0]] + a[1..] && b == [b[0]] + b[1..];
    }
  }

  lemma {:induction false} LessTransitive(a: string, b: string, c: string)
    requires Less(a, b) && Less(b, c)
    ensures Less(a, c)
  {
    if a != "" && a[0] == b[0] && b[0] == c[0] {
      LessTransitive(a[1..], b[1..], c[1..]);
    }
  }

  predicate Sorted(s: seq<string>) {
    forall i, j :: 0 <= i < j < |s| ==> Less(s[i], s[j])
  }

  lemma {:induction false} LessIrreflexive(a: string)
    ensures !Less(a, a)
  {
    if a != "" {
      LessIrreflexive(a[1..]);
    }
  }

  /** A least element. */
  method Least(s: set<string>) returns (m: string)
    requires s != {}
    ensures m in s && forall x :: x in s && x != m ==> Less(m, x)
  {
    Occupied(s);
    m :| m in s;
    var left := s - {m};
    while left != {}
      invariant m in s && left <= s - {m} && forall x :: x in s && x !in left && x != m ==> Less(m, x)
      decreases |left|
    {
      Occupied(left);
      var x: string :| x in left;
      left := left - {x};
      LessTotal(m, x);
      if Less(x, m) {
        forall y | y in s && y !in left && y != x
          ensures Less(x, y)
        {
          if y != m {
            LessTransitive(x, m, y);
          }
        }
        m := x;
      }
    }
  }

  /** The elements of a set in increasing order. */
  method SortStrings(s: set<string>) returns (r: seq<string>)
    ensures forall i, j :: 0 <= i < j < |r| ==> Precedes(r[i], r[j])
    ensures Sorted(r) && (forall x :: x in r <==> x in s) && NoRepeat(r)
  {
    r := [];
    var left := s;
    while left != {}
      invariant left <= s && Sorted(r)
      invariant forall x :: x in r <==> x in s && x !in left
      invariant forall x, y :: x in r && y in left ==> Less(x, y)
      decreases |left|
    {
      var m := Least(left);
      left := left - {m};
      r := r + [m];
    }
    SortedMeans(r);
  }

  lemma SortedMeans(r: seq<string>)
    requires Sorted(r)
    ensures forall i, j :: 0 <= i < j < |r| ==> Precedes(r[i], r[j])
    ensures NoRepeat(r)
  {
    hide Less, Precedes;
    forall i, j | 0 <= i < j < |r|
      ensures r[i] != r[j] && Precedes(r[i], r[j])
    {
      assert Less(r[i], r[j]);
      LessIff(r[i], r[j]);
      LessIrreflexive(r[i]);
    }
  }

  // ---------------------------------------------------------------- the plan

  /** A device with its children. */
  datatype Group = Group(device: string, children: seq<Child>)

  ghost predicate IsPlan(groups: seq<Group>, children: seq<Child>) {
    && Sorted(seq(|groups|, k requires 0 <= k < |groups| => groups[k].device))
    && (forall k :: 0 <= k < |groups| ==>
          groups[k].children == Of(children, groups[k].device) && groups[k].children != [])
    && forall d :: d in DevicesOf(children) <==> exists k :: 0 <= k < |groups| && groups[k].device == d
  }

  lemma {:induction false} OfMembers(children: seq<Child>, device: string, c: Child)
    ensures c in Of(children, device) <==> c in children && c.device == device
  {
    if children != [] {
      var n := |children| - 1;
      OfMembers(children[..n], device, c);
      assert children == children[..n] + [children[n]];
    }
  }

  /** The collecting loops: the children of all kinds, then one group for each device that has any. */
  method Plan(entries: seq<Entry>) returns (children: seq<Child>, groups: seq<Group>)
    ensures children == Children(entries) && IsPlan(groups, children)
    ensures forall j, k :: 0 <= j < k < |groups| ==> Precedes(groups[j].device, groups[k].device)
  {
    hide Precedes;
    var deviceIds: set<string>;
    children, deviceIds := Collect(entries);
    var devices := SortStrings(deviceIds);
    groups := [];
    for d := 0 to |devices|
      invariant |groups| == d
      invariant forall k :: 0 <= k < d ==>
                  groups[k] == Group(devices[k], Of(children, devices[k])) && groups[k].children != []
    {
      var mine := Select(children, devices[d]);
      HasChild(children, devices[d]);
      groups := groups + [Group(devices[d], mine)];
    }
    PlanSound(groups, children, devices);
  }

  method Collect(entries: seq<Entry>) returns (children: seq<Child>, deviceIds: set<string>)
    ensures children == Children(entries) && deviceIds == DevicesOf(children)
  {
    children, deviceIds := [], {};
    for i := 0 to |entries|
      invariant children == Children(entries[..i]) && deviceIds == DevicesOf(children)
    {
      assert entries[..i + 1][..i] == entries[..i];
      var e := entries[i];
      if e.id.Some? && e.device.Some? {
        deviceIds := deviceIds + {e.device.value};
        children := children + [Child(e.kind, e.id.value, e.device.value)];
      }
    }
    assert entries[..|entries|] == entries;
  }

  method Select(children: seq<Child>, device: string) returns (mine: seq<Child>)
    ensures mine == Of(children, device)
  {
    mine := [];
    for i := 0 to |children|
      invariant mine == Of(children[..i], device)
    {
      assert children[..i + 1][..i] == children[..i];
      if children[i].device == device {
        mine := mine + [children[i]];
      }
    }
    assert children[..|children|] == children;
  }

  lemma PlanSound(groups: seq<Group>, children: seq<Child>, devices: seq<string>)
    requires Sorted(devices) && |groups| == |devices| && forall x :: x in devices <==> x in DevicesOf(children)
    requires forall k :: 0 <= k < |groups| ==>
               groups[k] == Group(devices[k], Of(children, devices[k])) && groups[k].children != []
    ensures IsPlan(groups, children)
  {
    hide Of, Less, DevicesOf;
    assert seq(|groups|, k requires 0 <= k < |groups| => groups[k].device) == devices;
    forall x
      ensures x in DevicesOf(children) <==> exists k :: 0 <= k < |groups| && groups[k].device == x
    {
      if x in DevicesOf(children) {
        assert x in devices;
        var k :| 0 <= k < |devices| && devices[k] == x;
        assert groups[k].device == x;
      }
      if k :| 0 <= k < |groups| && groups[k].device == x {
        assert devices[k] in devices;
      }
    }
  }

  lemma HasChild(children: seq<Child>, device: string)
    requires device in DevicesOf(children)
    ensures Of(children, device) != []
  {
    var c :| c in children && c.device == device;
    OfMembers(children, device, c);
  }

  // ---------------------------------------------------------------- the machine

  /** How far a child's goroutine is: started, holding a slot, its request sent, finished. */
  datatype Status = Started | Holding | Sent | Finished {
    predicate Busy() {
      Holding? || Sent?
    }

    predicate Requested() {
      Sent? || Finished?
    }
  }

  const SLOTS: nat := 4

  /** Between two steps: what was requested, in order; where in it the devices of the finished groups are;
      whether the next group is under way, and how far its goroutines are. */
  datatype State = State(log: seq<Deletion>, ends: seq<nat>, forked: bool, status: seq<Status>, nodeDeleted: bool) {
    function Group(): nat {
      |ends|
    }

    function Start(k: nat): nat
      requires k <= |ends|
    {
      if k == 0 then 0 else ends[k - 1] + 1
    }
  }

  const INITIAL: State := State([], [], false, [], false)

  datatype Action = Fork | Acquire(i: nat) | Send(i: nat) | Release(i: nat) | JoinAndDeleteDevice | DeleteNode

  function InFlight(status: seq<Status>): nat {
    if status == [] then 0
    else InFlight(status[..|status| - 1]) + (if status[|status| - 1].Busy() then 1 else 0)
  }

  predicate AllFinished(status: seq<Status>) {
    forall k :: 0 <= k < |status| ==> status[k].Finished?
  }

  predicate Enabled(groups: seq<Group>, s: State, a: Action) {
    match a
    case Fork => !s.forked && s.Group() < |groups|
    case Acquire(i) => s.forked && i < |s.status| && s.status[i].Started? && InFlight(s.status) < SLOTS
    case Send(i) =>
      s.forked && s.Group() < |groups| && i < |s.status| && i < |groups[s.Group()].children| && s.status[i].Holding?
    case Release(i) => s.forked && i < |s.status| && s.status[i].Sent?
    case JoinAndDeleteDevice => s.forked && s.Group() < |groups| && AllFinished(s.status)
    case DeleteNode => !s.forked && s.Group() == |groups| && !s.nodeDeleted
  }

  function Do(groups: seq<Group>, node: string, s: State, a: Action): State
    requires Enabled(groups, s, a)
  {
    match a
    case Fork => s.(forked := true, status := seq(|groups[s.Group()].children|, _ => Started))
    case Acquire(i) => s.(status := s.status[i := Holding])
    case Send(i) => s.(status := s.status[i := Sent], log := s.log + [groups[s.Group()].children[i].Delete()])
    case Release(i) => s.(status := s.status[i := Finished])
    case JoinAndDeleteDevice =>
      s.(forked := false, status := [], ends := s.ends + [|s.log|],
         log := s.log + [Deletion("devices", groups[s.Group()].device)])
    case DeleteNode => s.(nodeDeleted := true, log := s.log + [Deletion("node", node)])
  }

  ghost predicate Runs(groups: seq<Group>, node: string, actions: seq<Action>, s: State)
    decreases |actions|
  {
    if actions == [] then s == INITIAL
    else
      var n := |actions| - 1;
      exists mid :: Runs(groups, node, actions[..n], mid) && Enabled(groups, mid, actions[n]) &&
                    s == Do(groups, node, mid, actions[n])
  }

  // ---------------------------------------------------------------- what every step keeps

  function Deletes(children: seq<Child>): seq<Deletion> {
    seq(|children|, k requires 0 <= k < |children| => children[k].Delete())
  }

  /** The requests of the goroutines that have sent theirs. */
  function SentOnes(children: seq<Child>, status: seq<Status>): multiset<Deletion>
    requires |children| == |status|
  {
    if children == [] then multiset{}
    else
      var n := |children| - 1;
      SentOnes(children[..n], status[..n]) +
      (if status[n].Requested() then multiset{children[n].Delete()} else multiset{})
  }

  /** A finished group in the log: its children in some order, then its device. */
  ghost predicate GroupDone(g: Group, log: seq<Deletion>, a: nat, b: nat) {
    a <= b < |log| && log[b] == Deletion("devices", g.device) && multiset(log[a..b]) == multiset(Deletes(g.children))
  }

  lemma {:induction false} InFlightUpdate(status: seq<Status>, i: nat, st: Status)
    requires i < |status|
    ensures InFlight(status[i := st])
         == InFlight(status) - (if status[i].Busy() then 1 else 0) + (if st.Busy() then 1 else 0)
  {
    var n := |status| - 1;
    if i < n {
      InFlightUpdate(status[..n], i, st);
      assert status[i := st][..n] == status[..n][i := st];
    } else {
      assert status[i := st][..n] == status[..n];
    }
  }

  lemma {:induction false} NoneInFlight(status: seq<Status>)
    requires forall k :: 0 <= k < |status| ==> !status[k].Busy()
    ensures InFlight(status) == 0
  {
    if status != [] {
      NoneInFlight(status[..|status| - 1]);
    }
  }

  lemma SentLast(children: seq<Child>, status: seq<Status>)
    requires |children| == |status| && children != []
    ensures var n := |children| - 1;
            SentOnes(children, status) ==
            SentOnes(children[..n], status[..n]) +
              if status[n].Requested() then multiset{children[n].Delete()} else multiset{}
  {
    hide Child.Delete, Status.Requested;
  }

  lemma {:induction false} SentUpdate(children: seq<Child>, status: seq<Status>, i: nat, st: Status)
    requires |children| == |status| && i < |status|
    requires status[i].Requested() ==> st.Requested()
    ensures SentOnes(children, status[i := st])
         == SentOnes(children, status) +
            (if !status[i].Requested() && st.Requested() then multiset{children[i].Delete()} else multiset{})
  {
    hide SentOnes, Child.Delete, Status.Requested;
    var n := |status| - 1;
    SentLast(children, status);
    SentLast(children, status[i := st]);
    if i < n {
      SentUpdate(children[..n], status[..n], i, st);
      assert status[i := st][..n] == status[..n][i := st];
    } else {
      assert status[i := st][..n] == status[..n];
    }
  }

  lemma {:induction false} SentNone(children: seq<Child>, status: seq<Status>)
    requires |children| == |status| && forall k :: 0 <= k < |status| ==> status[k].Started?
    ensures SentOnes(children, status) == multiset{}
  {
    if children != [] {
      SentNone(children[..|children| - 1], status[..|status| - 1]);
    }
  }

  lemma {:induction false} SentAll(children: seq<Child>, status: seq<Status>)
    requires |children| == |status| && AllFinished(status)
    ensures SentOnes(children, status) == multiset(Deletes(children))
  {
    if children != [] {
      var n := |children| - 1;
      SentAll(children[..n], status[..n]);
      assert Deletes(children) == Deletes(children[..n]) + [children[n].Delete()];
    }
  }

  lemma BlocksStay(groups: seq<Group>, s: State, log: seq<Deletion>, k: nat)
    requires k < s.Group() && s.Group() <= |groups| && s.log <= log
    requires GroupDone(groups[k], s.log, s.Start(k), s.ends[k])
    ensures GroupDone(groups[k], log, s.Start(k), s.ends[k])
  {
    assert log[s.Start(k)..s.ends[k]] == s.log[s.Start(k)..s.ends[k]];
  }

  /** The part of the invariant about the group under way. */
  ghost predicate Underway(groups: seq<Group>, node: string, s: State) {
    && s.Group() <= |groups| && s.Start(s.Group()) <= |s.log|
    && (if s.forked then s.Group() < |groups| && |s.status| == |groups[s.Group()].children| else s.status == [])
    && (s.forked ==>
          multiset(s.log[s.Start(s.Group())..]) == SentOnes(groups[s.Group()].children, s.status) && !s.nodeDeleted)
    && (!s.forked ==> s.log[s.Start(s.Group())..] == if s.nodeDeleted then [Deletion("node", node)] else [])
    && (s.nodeDeleted ==> s.Group() == |groups|)
  }

  ghost predicate GroupsDone(groups: seq<Group>, s: State) {
    s.Group() <= |groups| && forall k :: 0 <= k < s.Group() ==> GroupDone(groups[k], s.log, s.Start(k), s.ends[k])
  }

  ghost predicate Inv(groups: seq<Group>, node: string, s: State) {
    InFlight(s.status) <= SLOTS && GroupsDone(groups, s) && Underway(groups, node, s)
  }

  lemma SlotsKept(groups: seq<Group>, node: string, s: State, a: Action)
    requires InFlight(s.status) <= SLOTS && Enabled(groups, s, a)
    ensures InFlight(Do(groups, node, s, a).status) <= SLOTS
  {
    match a
    case Fork => NoneInFlight(Do(groups, node, s, a).status);
    case Acquire(i) => InFlightUpdate(s.status, i, Holding);
    case Send(i) => InFlightUpdate(s.status, i, Sent);
    case Release(i) => InFlightUpdate(s.status, i, Finished);
    case JoinAndDeleteDevice => NoneInFlight([]);
    case DeleteNode =>
  }

  /** A step of one goroutine: at most one request more. */
  lemma GoroutineStep(groups: seq<Group>, node: string, s: State, i: nat, st: Status, more: seq<Deletion>)
    requires Underway(groups, node, s) && s.forked && i < |s.status| && (s.status[i].Requested() ==> st.Requested())
    requires more == if !s.status[i].Requested() && st.Requested() then [groups[s.Group()].children[i].Delete()] else []
    ensures Underway(groups, node, s.(status := s.status[i := st], log := s.log + more))
  {
    hide SentOnes, InFlight;
    SentUpdate(groups[s.Group()].children, s.status, i, st);
    assert (s.log + more)[s.Start(s.Group())..] == s.log[s.Start(s.Group())..] + more;
  }

  lemma CurrentKept(groups: seq<Group>, node: string, s: State, a: Action)
    requires Underway(groups, node, s) && Enabled(groups, s, a)
    ensures Underway(groups, node, Do(groups, node, s, a))
  {
    hide InFlight, Child.Delete, SentOnes;
    var s' := Do(groups, node, s, a);
    assert s.log + [] == s.log;
    match a
    case Fork =>
      SentNone(groups[s.Group()].children, s'.status);
    case Acquire(i) =>
      hide Underway;
      GoroutineStep(groups, node, s, i, Holding, []);
    case Send(i) =>
      hide Underway;
      GoroutineStep(groups, node, s, i, Sent, [groups[s.Group()].children[i].Delete()]);
    case Release(i) =>
      hide Underway;
      GoroutineStep(groups, node, s, i, Finished, []);
    case JoinAndDeleteDevice =>
    case DeleteNode =>
  }

  lemma BlocksKept(groups: seq<Group>, node: string, s: State, a: Action)
    requires GroupsDone(groups, s) && Underway(groups, node, s) && Enabled(groups, s, a)
    ensures GroupsDone(groups, Do(groups, node, s, a))
  {
    hide GroupDone, SentOnes, InFlight;
    var s' := Do(groups, node, s, a);
    forall k | 0 <= k < s.Group()
      ensures GroupDone(groups[k], s'.log, s.Start(k), s.ends[k])
    {
      BlocksStay(groups, s, s'.log, k);
    }
    if a.JoinAndDeleteDevice? {
      JoinMakesBlock(groups, s, s'.log);
    }
  }

  lemma StepKeepsInv(groups: seq<Group>, node: string, s: State, a: Action)
    requires Inv(groups, node, s) && Enabled(groups, s, a)
    ensures Inv(groups, node, Do(groups, node, s, a))
  {
    hide GroupsDone, Underway, Do, InFlight;
    SlotsKept(groups, node, s, a);
    CurrentKept(groups, node, s, a);
    BlocksKept(groups, node, s, a);
  }

  lemma JoinMakesBlock(groups: seq<Group>, s: State, log: seq<Deletion>)
    requires s.Group() < |groups| && |s.status| == |groups[s.Group()].children| && AllFinished(s.status)
    requires s.Start(s.Group()) <= |s.log|
    requires multiset(s.log[s.Start(s.Group())..]) == SentOnes(groups[s.Group()].children, s.status)
    requires log == s.log + [Deletion("devices", groups[s.Group()].device)]
    ensures GroupDone(groups[s.Group()], log, s.Start(s.Group()), |s.log|)
  {
    SentAll(groups[s.Group()].children, s.status);
    assert log[s.Start(s.Group())..|s.log|] == s.log[s.Start(s.Group())..];
  }

  /** In every interleaving at most four requests are in flight, and the log so far is, group after group,
      the children in some order and then their device. */
  lemma {:induction false} RunKeepsInv(groups: seq<Group>, node: string, actions: seq<Action>, s: State)
    requires Runs(groups, node, actions, s)
    ensures Inv(groups, node, s)
  {
    hide Inv, Do, Enabled;
    if actions == [] {
      InitialInv(groups, node);
    } else {
      var n := |actions| - 1;
      var mid :| Runs(groups, node, actions[..n], mid) && Enabled(groups, mid, actions[n]) &&
                 s == Do(groups, node, mid, actions[n]);
      RunKeepsInv(groups, node, actions[..n], mid);
      StepKeepsInv(groups, node, mid, actions[n]);
    }
  }

  lemma InitialInv(groups: seq<Group>, node: string)
    ensures Inv(groups, node, INITIAL)
  {
  }

  // ---------------------------------------------------------------- every run ends, in order

  function Progress(status: seq<Status>): nat {
    if status == [] then 0
    else
      Progress(status[..|status| - 1]) +
      (match status[|status| - 1] case Started => 0 case Holding => 1 case Sent => 2 case Finished => 3)
  }

  lemma {:induction false} ProgressUpdate(status: seq<Status>, i: nat, st: Status)
    requires i < |status|
    ensures Progress(status[i := st]) == Progress(status) - Progress([status[i]]) + Progress([st])
  {
    var n := |status| - 1;
    assert [st][..0] == [] && [status[i]][..0] == [];
    if i < n {
      ProgressUpdate(status[..n], i, st);
      assert status[i := st][..n] == status[..n][i := st];
    } else {
      assert status[i := st][..n] == status[..n];
    }
  }

  lemma {:induction false} ProgressAll(status: seq<Status>)
    ensures (forall k :: 0 <= k < |status| ==> status[k].Started?) ==> Progress(status) == 0
    ensures AllFinished(status) ==> Progress(status) == 3 * |status|
  {
    if status != [] {
      ProgressAll(status[..|status| - 1]);
    }
  }

  /** The steps the first `k` groups take: fork and join, and three for each child. */
  function Steps(groups: seq<Group>, k: nat): nat
    requires k <= |groups|
  {
    if k == 0 then 0 else Steps(groups, k - 1) + 2 + 3 * |groups[k - 1].children|
  }

  function Taken(groups: seq<Group>, s: State): nat
    requires s.Group() <= |groups|
  {
    Steps(groups, s.Group()) + (if s.forked then 1 + Progress(s.status) else 0) + (if s.nodeDeleted then 1 else 0)
  }

  lemma StepCounts(groups: seq<Group>, node: string, s: State, a: Action)
    requires Underway(groups, node, s) && Enabled(groups, s, a)
    ensures Do(groups, node, s, a).Group() <= |groups|
    ensures Taken(groups, Do(groups, node, s, a)) == Taken(groups, s) + 1
  {
    hide SentOnes, InFlight;
    var s' := Do(groups, node, s, a);
    match a
    case Fork => ProgressAll(s'.status);
    case Acquire(i) => ProgressUpdate(s.status, i, Holding); OneProgress();
    case Send(i) => ProgressUpdate(s.status, i, Sent); OneProgress();
    case Release(i) => ProgressUpdate(s.status, i, Finished); OneProgress();
    case JoinAndDeleteDevice => ProgressAll(s.status);
    case DeleteNode =>
  }

  lemma OneProgress()
    ensures Progress([Started]) == 0 && Progress([Holding]) == 1 && Progress([Sent]) == 2 && Progress([Finished]) == 3
  {
    assert [Started][..0] == [] && [Holding][..0] == [] && [Sent][..0] == [] && [Finished][..0] == [];
  }

  /** A run has as many steps as it has made progress; it is never stuck before the node is deleted, so
      every interleaving ends, after the same number of steps. */
  lemma {:induction false} RunCounts(groups: seq<Group>, node: string, actions: seq<Action>, s: State)
    requires Runs(groups, node, actions, s)
    ensures s.Group() <= |groups| && |actions| == Taken(groups, s)
  {
    hide Inv, Underway, Do, Enabled, Taken;
    if actions == [] {
      NothingTaken(groups);
    } else {
      var n := |actions| - 1;
      var mid :| Runs(groups, node, actions[..n], mid) && Enabled(groups, mid, actions[n]) &&
                 s == Do(groups, node, mid, actions[n]);
      RunCounts(groups, node, actions[..n], mid);
      RunKeepsInv(groups, node, actions[..n], mid);
      assert Underway(groups, node, mid) by { InvCurrent(groups, node, mid); }
      StepCounts(groups, node, mid, actions[n]);
    }
  }

  lemma NothingTaken(groups: seq<Group>)
    ensures Taken(groups, INITIAL) == 0
  {
  }

  lemma InvCurrent(groups: seq<Group>, node: string, s: State)
    requires Inv(groups, node, s)
    ensures Underway(groups, node, s)
  {
  }

  lemma NeverStuck(groups: seq<Group>, node: string, actions: seq<Action>, s: State)
    requires Runs(groups, node, actions, s)
    ensures (forall a :: !Enabled(groups, s, a)) <==> s.nodeDeleted
    ensures s.nodeDeleted ==> |actions| == Steps(groups, |groups|) + 1
  {
    RunKeepsInv(groups, node, actions, s);
    RunCounts(groups, node, actions, s);
    if !s.nodeDeleted {
      if !s.forked {
        assert Enabled(groups, s, if s.Group() < |groups| then Fork else DeleteNode);
      } else if AllFinished(s.status) {
        assert Enabled(groups, s, JoinAndDeleteDevice);
      } else if k :| 0 <= k < |s.status| && s.status[k].Sent? {
        assert Enabled(groups, s, Release(k));
      } else if k :| 0 <= k < |s.status| && s.status[k].Holding? {
        assert Enabled(groups, s, Send(k));
      } else {
        NoneInFlight(s.status);
        var k :| 0 <= k < |s.status| && !s.status[k].Finished?;
        assert Enabled(groups, s, Acquire(k));
      }
    }
  }

  /** When a run has ended the log is, for each device in order, all its children in some order and then
      the device, and at the very end the node. */
  lemma UnregisteredInOrder(groups: seq<Group>, node: string, actions: seq<Action>, s: State)
    requires Runs(groups, node, actions, s) && s.nodeDeleted
    ensures |s.ends| == |groups| && |s.log| == s.Start(|groups|) + 1 && s.log[|s.log| - 1] == Deletion("node", node)
    ensures forall k :: 0 <= k < |groups| ==> GroupDone(groups[k], s.log, s.Start(k), s.ends[k])
  {
    RunKeepsInv(groups, node, actions, s);
    var tail := s.log[s.Start(|groups|)..];
    assert tail == [Deletion("node", node)];
    assert s.log[s.Start(|groups|)] == tail[0];
  }

  /** The goroutines between acquiring and releasing a slot. */
  function Holders(status: seq<Status>): set<int> {
    set i | 0 <= i < |status| && (status[i] == Holding || status[i] == Sent)
  }

  lemma {:induction false} InFlightCounts(status: seq<Status>)
    ensures InFlight(status) == |Holders(status)|
  {
    if status != [] {
      var n := |status| - 1;
      InFlightCounts(status[..n]);
      assert Holders(status) == Holders(status[..n]) + if status[n] == Holding || status[n] == Sent then {n} else {};
    }
  }

  /** In every interleaving at most four goroutines hold a slot at any moment, and only they have a request under
      way. */
  lemma AtMostFour(groups: seq<Group>, node: string, actions: seq<Action>, s: State)
    requires Runs(groups, node, actions, s)
    ensures |Holders(s.status)| <= 4
  {
    RunKeepsInv(groups, node, actions, s);
    InFlightCounts(s.status);
  }

  /** A device, the next group and the node wait for the children before them: when one of these steps can be made
      every goroutine of the group has come to its end, none holding a slot. */
  lemma WaitsForChildren(groups: seq<Group>, node: string, actions: seq<Action>, s: State, a: Action)
    requires Runs(groups, node, actions, s) && Enabled(groups, s, a)
    requires a == JoinAndDeleteDevice || a == Fork || a == DeleteNode
    ensures (forall i :: 0 <= i < |s.status| ==> s.status[i] == Finished) && Holders(s.status) == {}
  {
    RunKeepsInv(groups, node, actions, s);
  }

  // ---------------------------------------------------------------- each child once, before its device

  predicate ChildKind(kind: string) {
    kind in ["receivers", "senders", "flows", "sources"]
  }

  /** Children of the four kinds, no two under one kind and identifier. */
  predicate ProperChildren(children: seq<Child>) {
    && NoRepeat(Deletes(children))
    && forall k :: 0 <= k < |children| ==> ChildKind(children[k].kind)
  }

  lemma KindsDiffer(kind: string)
    requires ChildKind(kind)
    ensures kind != "devices" && kind != "node"
  {
    assert |"receivers"| == 9 && |"senders"| == 7 && |"flows"| == 5 && |"sources"| == 7;
    assert |"devices"| == 7 && |"node"| == 4;
    assert "senders"[0] == 's' && "sources"[0] == 's' && "devices"[0] == 'd';
  }

  /** Where the log is at a position: in one of the groups' children, at a device, or at the node. */
  lemma {:induction false} Located(groups: seq<Group>, s: State, i: nat, m: nat) returns (k: nat)
    requires m <= |s.ends| == |groups| && i < s.Start(m)
    requires forall k :: 0 <= k < |groups| ==> GroupDone(groups[k], s.log, s.Start(k), s.ends[k])
    ensures k < m && s.Start(k) <= i <= s.ends[k]
  {
    hide GroupDone;
    if m > 0 && i >= s.Start(m - 1) {
      k := m - 1;
    } else {
      k := Located(groups, s, i, m - 1);
    }
  }

  lemma {:induction false} CountInPart(log: seq<Deletion>, x: Deletion)
    ensures multiset(log)[x] > 0 ==> exists i :: 0 <= i < |log| && log[i] == x
    ensures multiset(log)[x] <= 1 ==> forall i, j :: 0 <= i < j < |log| && log[i] == x ==> log[j] != x
  {
    if log != [] {
      var n := |log| - 1;
      CountInPart(log[..n], x);
      assert log == log[..n] + [log[n]];
      if log[n] == x {
        assert multiset(log[..n])[x] == multiset(log)[x] - 1;
      }
      if multiset(log)[x] <= 1 {
        forall i, j | 0 <= i < j < |log| && log[i] == x
          ensures log[j] != x
        {
          if j == n {
            assert log[..n][i] == x;
            assert x in log[..n];
          }
        }
      }
    }
  }

  lemma {:induction false} DistinctCount(s: seq<Deletion>, x: Deletion)
    requires NoRepeat(s)
    ensures multiset(s)[x] <= 1
  {
    if s != [] {
      var n := |s| - 1;
      DistinctCount(s[..n], x);
      assert s == s[..n] + [s[n]];
      if s[n] == x {
        assert x !in s[..n];
      }
    }
  }

  lemma {:induction false} OfDistinct(children: seq<Child>, device: string)
    requires NoRepeat(Deletes(children))
    ensures NoRepeat(Deletes(Of(children, device)))
  {
    if children != [] {
      var n := |children| - 1;
      var before := Of(children[..n], device);
      assert forall i :: 0 <= i < n ==> Deletes(children[..n])[i] == Deletes(children)[i];
      OfDistinct(children[..n], device);
      forall i | 0 <= i < |before|
        ensures before[i].Delete() != children[n].Delete()
      {
        OfMembers(children[..n], device, before[i]);
        var k :| 0 <= k < n && children[..n][k] == before[i];
        assert Deletes(children)[k] != Deletes(children)[n];
      }
      if children[n].device == device {
        assert Deletes(before + [children[n]]) == Deletes(before) + [children[n].Delete()];
        assert forall i :: 0 <= i < |before| ==> Deletes(before)[i] == before[i].Delete();
      } else {
        assert Of(children, device) == before;
      }
    }
  }

  /** In every run that has ended, each child was requested exactly once, and before its device. */
  lemma ChildOnceBeforeDevice(groups: seq<Group>, children: seq<Child>, node: string, actions: seq<Action>,
                              s: State, c: Child)
    returns (at: nat, k: nat)
    requires Runs(groups, node, actions, s) && s.nodeDeleted
    requires IsPlan(groups, children) && ProperChildren(children) && c in children
    ensures |s.ends| == |groups| && k < |groups| && groups[k].device == c.device
    ensures at < s.ends[k] < |s.log| && s.log[at] == c.Delete() && s.log[s.ends[k]] == Deletion("devices", c.device)
    ensures forall i :: 0 <= i < |s.log| && s.log[i] == c.Delete() ==> i == at
  {
    hide Runs, Less, Of;
    UnregisteredInOrder(groups, node, actions, s);
    assert c.device in DevicesOf(children);
    k :| 0 <= k < |groups| && groups[k].device == c.device;
    at := RequestedIn(groups, children, s, c, k);
    forall i | 0 <= i < |s.log| && s.log[i] == c.Delete()
      ensures i == at
    {
      OnlyThere(groups, children, node, s, c, k, at, i);
    }
  }

  lemma RequestedIn(groups: seq<Group>, children: seq<Child>, s: State, c: Child, k: nat) returns (at: nat)
    requires IsPlan(groups, children) && ProperChildren(children) && c in children
    requires |s.ends| == |groups| && k < |groups| && groups[k].device == c.device
    requires GroupDone(groups[k], s.log, s.Start(k), s.ends[k])
    ensures s.Start(k) <= at < s.ends[k] && s.log[at] == c.Delete()
    ensures forall i :: s.Start(k) <= i < s.ends[k] && s.log[i] == c.Delete() ==> i == at
  {
    var mine, part := groups[k].children, s.log[s.Start(k)..s.ends[k]];
    OfMembers(children, c.device, c);
    assert c in mine;
    var m :| 0 <= m < |mine| && mine[m] == c;
    assert Deletes(mine)[m] == c.Delete();
    assert c.Delete() in multiset(Deletes(mine));
    CountInPart(part, c.Delete());
    var i :| 0 <= i < |part| && part[i] == c.Delete();
    at := s.Start(k) + i;
    OfDistinct(children, c.device);
    DistinctCount(Deletes(mine), c.Delete());
    forall j | s.Start(k) <= j < s.ends[k] && s.log[j] == c.Delete()
      ensures j == at
    {
      assert part[j - s.Start(k)] == c.Delete();
    }
  }

  lemma OnlyThere(groups: seq<Group>, children: seq<Child>, node: string, s: State, c: Child, k: nat, at: nat, i: nat)
    requires IsPlan(groups, children) && ProperChildren(children) && c in children
    requires |s.ends| == |groups| && k < |groups| && groups[k].device == c.device
    requires forall k :: 0 <= k < |groups| ==> GroupDone(groups[k], s.log, s.Start(k), s.ends[k])
    requires |s.log| == s.Start(|groups|) + 1 && s.log[|s.log| - 1] == Deletion("node", node)
    requires forall i :: s.Start(k) <= i < s.ends[k] < |s.log| && s.log[i] == c.Delete() ==> i == at
    requires i < |s.log| && s.log[i] == c.Delete()
    ensures i == at
  {
    hide Less, Of, IsPlan, NoRepeat, GroupDone;
    var n :| 0 <= n < |children| && children[n] == c;
    KindsDiffer(children[n].kind);
    var l := Located(groups, s, i, |groups|);
    DeviceAtEnd(groups, s, l);
    if i < s.ends[l] {
      InSegment(groups, children, s, c, l, i);
      SameGroup(groups, children, k, l);
    }
  }

  lemma DeviceAtEnd(groups: seq<Group>, s: State, l: nat)
    requires l < |groups| == |s.ends| && GroupDone(groups[l], s.log, s.Start(l), s.ends[l])
    ensures s.ends[l] < |s.log| && s.log[s.ends[l]].kind == "devices"
  {
  }

  lemma InSegment(groups: seq<Group>, children: seq<Child>, s: State, c: Child, l: nat, i: nat)
    requires IsPlan(groups, children) && NoRepeat(Deletes(children)) && c in children && l < |groups| == |s.ends|
    requires GroupDone(groups[l], s.log, s.Start(l), s.ends[l]) && s.Start(l) <= i < s.ends[l] && s.log[i] == c.Delete()
    ensures groups[l].device == c.device
  {
    hide Less, Of;
    var part := s.log[s.Start(l)..s.ends[l]];
    assert part[i - s.Start(l)] == c.Delete();
    assert c.Delete() in multiset(part);
    assert c.Delete() in Deletes(groups[l].children);
    var m :| 0 <= m < |groups[l].children| && Deletes(groups[l].children)[m] == c.Delete();
    SameChild(children, groups[l].device, groups[l].children[m], c);
  }

  lemma SameChild(children: seq<Child>, device: string, b: Child, c: Child)
    requires NoRepeat(Deletes(children)) && c in children && b in Of(children, device) && b.Delete() == c.Delete()
    ensures c.device == device
  {
    OfMembers(children, device, b);
    var m :| 0 <= m < |children| && children[m] == b;
    var n :| 0 <= n < |children| && children[n] == c;
    assert Deletes(children)[m] == Deletes(children)[n];
  }

  lemma SameGroup(groups: seq<Group>, children: seq<Child>, k: nat, l: nat)
    requires IsPlan(groups, children) && k < |groups| && l < |groups| && groups[k].device == groups[l].device
    ensures k == l
  {
    var devices := seq(|groups|, k requires 0 <= k < |groups| => groups[k].device);
    if k != l {
      SortedDistinct(devices, if k < l then k else l, if k < l then l else k);
    }
  }

  lemma SortedDistinct(s: seq<string>, i: nat, j: nat)
    requires Sorted(s) && i < j < |s|
    ensures s[i] != s[j]
  {
    LessIrreflexive(s[i]);
    assert Less(s[i], s[j]);
  }

  /** A device is unregistered exactly when some child names it: one without senders, flows or sources of
      its own never is. */
  lemma DeviceRequestedIffChild(groups: seq<Group>, children: seq<Child>, node: string, actions: seq<Action>,
                                s: State, device: string)
    requires Runs(groups, node, actions, s) && s.nodeDeleted && IsPlan(groups, children) && ProperChildren(children)
    ensures Deletion("devices", device) in s.log <==> device in DevicesOf(children)
  {
    hide Runs, Less, Of, IsPlan, ProperChildren, DevicesOf, Deletes;
    UnregisteredInOrder(groups, node, actions, s);
    var x := Deletion("devices", device);
    PlanDevices(groups, children);
    assert |"devices"| == 7 && |"node"| == 4;
    if x in s.log {
      var i :| 0 <= i < |s.log| && s.log[i] == x;
      var k := Located(groups, s, i, |groups|);
      if i < s.ends[k] {
        DeviceNotAmongChildren(groups, children, s, k, i);
        assert false;
      }
      assert groups[k].device == device;
    }
    if device in DevicesOf(children) {
      var k :| 0 <= k < |groups| && groups[k].device == device;
      assert s.log[s.ends[k]] == x;
    }
  }

  lemma PlanDevices(groups: seq<Group>, children: seq<Child>)
    requires IsPlan(groups, children)
    ensures forall d :: d in DevicesOf(children) <==> exists k :: 0 <= k < |groups| && groups[k].device == d
    ensures forall k :: 0 <= k < |groups| ==> groups[k].children == Of(children, groups[k].device)
  {
  }

  lemma DeviceNotAmongChildren(groups: seq<Group>, children: seq<Child>, s: State, k: nat, i: nat)
    requires k < |groups| == |s.ends| && groups[k].children == Of(children, groups[k].device)
    requires ProperChildren(children)
    requires GroupDone(groups[k], s.log, s.Start(k), s.ends[k]) && s.Start(k) <= i < s.ends[k]
    ensures s.log[i].kind != "devices"
  {
    hide Of;
    var part := s.log[s.Start(k)..s.ends[k]];
    assert part[i - s.Start(k)] == s.log[i];
    assert s.log[i] in multiset(part);
    assert s.log[i] in Deletes(groups[k].children);
    var m :| 0 <= m < |groups[k].children| && Deletes(groups[k].children)[m] == s.log[i];
    OfMembers(children, groups[k].device, groups[k].children[m]);
    var n :| 0 <= n < |children| && children[n] == groups[k].children[m];
    KindsDiffer(children[n].kind);
  }
}
