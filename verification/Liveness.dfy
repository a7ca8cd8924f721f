/** Announcements, the throttle that thins them out, and the reaper that forgets receivers not seen lately.
    Times are in nanoseconds. */
module Liveness {
  import opened Text
  import opened Discovery

  const SECOND: nat := 1_000_000_000

  /** The least time between two announcements let through for one address. */
  const THROTTLE: nat := 30 * SECOND

  /** How long a receiver may go unseen. */
  const PATIENCE: nat := 120 * SECOND

  // ---------------------------------------------------------------- the throttle

  datatype Passed = Passed(time: nat, address: string, port: int)

  class ShureDiscoverer {
    var lastSent: map<string, nat>
    /** Every announcement let through, in order. */
    ghost var passed: seq<Passed>

    /** Announcements let through for one address are far enough apart, and the last one is remembered. */
    ghost predicate Valid()
      reads this
    {
      && (forall i, j :: 0 <= i < j < |passed| && passed[i].address == passed[j].address ==>
            passed[i].time + THROTTLE <= passed[j].time)
      && (forall i :: 0 <= i < |passed| ==>
            passed[i].address in lastSent && passed[i].time <= lastSent[passed[i].address])
    }

    constructor ()
      ensures Valid() && lastSent == map[] && passed == []
    {
      lastSent, passed := map[], [];
    }

    /** One announcement, received at `now`. It is let through unless one of the same address was lately,
        whatever the port; even if the channel then has no room it counts as let through. */
    method SendDevice(now: nat, address: string, port: int, room: bool) returns (sent: bool)
      requires Valid() && (address in lastSent ==> lastSent[address] <= now)
      modifies this
      ensures Valid()
      ensures var pass := address !in old(lastSent) || now - old(lastSent)[address] >= 30 * SECOND;
              sent == (pass && room) &&
              lastSent == (if pass then old(lastSent)[address := now] else old(lastSent)) &&
              passed == (if pass then old(passed) + [Passed(now, address, port)] else old(passed))
    {
      if address in lastSent && now - lastSent[address] < THROTTLE {
        return false;
      }
      lastSent := lastSent[address := now];
      passed := passed + [Passed(now, address, port)];
      return room;
    }
  }

  // ---------------------------------------------------------------- one address

  predicate Rising(times: seq<nat>) {
    forall i, j :: 0 <= i < j < |times| ==> times[i] <= times[j]
  }

  /** The index of the last announcement let through among the first `i + 1`. */
  function LastThrough(times: seq<nat>, i: nat): (j: nat)
    requires i < |times|
    ensures j <= i
  {
    if i == 0 then 0
    else
      var before := LastThrough(times, i - 1);
      if times[i] - times[before] >= THROTTLE then i else before
  }

  predicate Through(times: seq<nat>, i: nat)
    requires i < |times|
  {
    LastThrough(times, i) == i
  }

  lemma {:induction false} LastIsThrough(times: seq<nat>, i: nat)
    requires i < |times| && Rising(times)
    ensures Through(times, LastThrough(times, i))
    ensures times[i] < times[LastThrough(times, i)] + THROTTLE
  {
    if i > 0 {
      LastIsThrough(times, i - 1);
    }
  }

  lemma FirstThrough(times: seq<nat>)
    requires times != []
    ensures LastThrough(times, 0) == 0
  {
  }

  lemma NextThrough(times: seq<nat>, i: nat)
    requires 0 < i < |times|
    ensures var before := LastThrough(times, i - 1);
            LastThrough(times, i) == if times[i] - times[before] >= THROTTLE then i else before
  {
  }

  /** The port of receivers found by the proprietary protocol. */
  const SHURE_PORT: int := 2202

  /** A packet received, and whether the channel of announcements has room then. */
  datatype Packet = Packet(time: nat, payload: string, room: bool) {
    /** The address in it as the parsed address is written. */
    function Address(written: string -> string): string {
      written(AddressIn(payload))
    }

    predicate Announces(written: string -> string, a: string) {
      Index(payload, MARK) >= 0 && AddressIn(payload) != "" && Address(written) == a
    }
  }

  function TimesOf(written: string -> string, packets: seq<Packet>, address: string): seq<nat> {
    if packets == [] then []
    else
      var last := packets[|packets| - 1];
      TimesOf(written, packets[..|packets| - 1], address) +
      (if last.Announces(written, address) then [last.time] else [])
  }

  /** Whether the last of an address's announcements is let through. */
  predicate LastPasses(times: seq<nat>) {
    times != [] && Through(times, |times| - 1)
  }

  /** After the last one let through none is. */
  lemma {:induction false} NoneAfterLast(times: seq<nat>, i: nat)
    requires i < |times|
    ensures forall j: nat :: LastThrough(times, i) < j <= i ==> !Through(times, j)
  {
    if i > 0 {
      NoneAfterLast(times, i - 1);
    }
  }

  /** What the throttle lets through, without following it: an announcement passes exactly when every earlier one
      that passed is at least thirty seconds before it. */
  lemma ThroughIff(times: seq<nat>, i: nat)
    requires Rising(times) && i < |times|
    ensures Through(times, i) <==> forall j: nat :: j < i && Through(times, j) ==> times[i] - times[j] >= 30 * SECOND
  {
    if i > 0 {
      hide Through;
      var before := LastThrough(times, i - 1);
      LastIsThrough(times, i - 1);
      NoneAfterLast(times, i - 1);
      ThroughStep(times, i);
      assert THROTTLE == 30 * SECOND;
      forall j: nat | j < i && Through(times, j)
        ensures times[j] <= times[before]
      {
        assert j <= before;
      }
    }
  }

  lemma ThroughStep(times: seq<nat>, i: nat)
    requires 0 < i < |times|
    ensures Through(times, i) <==> times[i] - times[LastThrough(times, i - 1)] >= THROTTLE
  {
  }

  /** The throttle remembers, for each address, the last announcement let through. */
  ghost predicate Remembers(written: string -> string, lastSent: map<string, nat>, packets: seq<Packet>) {
    forall a: string :: var times := TimesOf(written, packets, a);
      (a in lastSent <==> times != []) &&
      (a in lastSent ==> lastSent[a] == times[LastThrough(times, |times| - 1)])
  }

  lemma {:induction false} PrefixDecides(times: seq<nat>, t: nat, i: nat)
    requires i < |times|
    ensures LastThrough(times + [t], i) == LastThrough(times, i)
  {
    if i > 0 {
      PrefixDecides(times, t, i - 1);
    }
  }

  /** One more announcement of an address: what it does to the last one let through. */
  lemma NextAnnouncement(times: seq<nat>, t: nat)
    ensures times == [] ==> LastThrough(times + [t], |times|) == 0
    ensures times != [] ==>
              var before := LastThrough(times, |times| - 1);
              LastThrough(times + [t], |times|) == if t - times[before] >= THROTTLE then |times| else before
  {
    if times != [] {
      PrefixDecides(times, t, |times| - 1);
    }
  }

  lemma TimesOfNext(written: string -> string, packets: seq<Packet>, i: nat, address: string)
    requires i < |packets|
    ensures TimesOf(written, packets[..i + 1], address) ==
            TimesOf(written, packets[..i], address) +
            if packets[i].Announces(written, address) then [packets[i].time] else []
    ensures forall k :: 0 <= k < |TimesOf(written, packets[..i], address)| ==>
              exists j :: 0 <= j < i && TimesOf(written, packets[..i], address)[k] == packets[j].time
    decreases i
  {
    assert packets[..i + 1][..i] == packets[..i];
    if i > 0 {
      TimesOfNext(written, packets, i - 1, address);
    }
  }

  /** What the listening loop owes a packet: it is sent on if it announces an address, the throttle lets that
      address's announcements so far end with this one, and the channel has room. */
  predicate Due(written: string -> string, packets: seq<Packet>, i: nat)
    requires i < |packets|
  {
    packets[i].room && packets[i].Announces(written, packets[i].Address(written)) &&
    LastPasses(TimesOf(written, packets[..i + 1], packets[i].Address(written)))
  }

  /** An announcement is a packet with the protocol's mark and an address, and what is due is one. */
  lemma DueMeans(written: string -> string, packets: seq<Packet>, i: nat)
    requires i < |packets|
    ensures (exists a :: packets[i].Announces(written, a)) <==>
              Occurs(packets[i].payload, "acn-fctn") && AddressIn(packets[i].payload) != ""
    ensures Due(written, packets, i) ==>
              packets[i].room && Occurs(packets[i].payload, "acn-fctn") && AddressIn(packets[i].payload) != ""
  {
    hide LastPasses, AddressIn;
    assert MARK == "acn-fctn";
    assert packets[i].Announces(written, packets[i].Address(written)) <==>
             Occurs(packets[i].payload, "acn-fctn") && AddressIn(packets[i].payload) != "";
  }

  /** One packet of the loop. */
  method ListenOnce(d: ShureDiscoverer, written: string -> string, packets: seq<Packet>, i: nat)
    returns (sent: bool)
    requires i < |packets| && d.Valid() && Remembers(written, d.lastSent, packets[..i])
    requires forall i, j :: 0 <= i < j < |packets| ==> packets[i].time <= packets[j].time
    modifies d
    ensures d.Valid() && Remembers(written, d.lastSent, packets[..i + 1])
    ensures sent <==> Due(written, packets, i)
  {
    hide ShureDiscoverer.Valid, LastThrough, TimesOf, Remembers, LastPasses, AddressIn, Index;
    RemembersPast(written, d.lastSent, packets, i);
    ghost var before, now, a := d.lastSent, packets[i].time, packets[i].Address(written);
    ghost var pass := packets[i].Announces(written, a) && (a !in before || now - before[a] >= THROTTLE);
    sent := false;
    if Index(packets[i].payload, MARK) >= 0 {
      var ip := ExtractIPFromPayload(packets[i].payload);
      if ip != "" {
        sent := d.SendDevice(packets[i].time, written(ip), SHURE_PORT, packets[i].room);
      }
    }
    RemembersNext(written, before, d.lastSent, packets, i, pass);
  }

  /** The listening loop, fed with any packets and whatever way parsed addresses are written, sends exactly those
      announcements on that their own address's earlier ones allow and the channel has room for. */
  method ListenShureDiscovery(d: ShureDiscoverer, written: string -> string, packets: seq<Packet>)
    returns (through: seq<bool>)
    requires d.Valid() && d.lastSent == map[]
    requires forall i, j :: 0 <= i < j < |packets| ==> packets[i].time <= packets[j].time
    modifies d
    ensures d.Valid() && |through| == |packets|
    ensures forall i :: 0 <= i < |packets| ==> (through[i] <==> Due(written, packets, i))
    ensures forall i :: 0 <= i < |packets| && through[i] ==>
              packets[i].room && Occurs(packets[i].payload, "acn-fctn") && AddressIn(packets[i].payload) != ""
  {
    hide ShureDiscoverer.Valid, Remembers, Due;
    through := [];
    NothingRemembered(written);
    assert packets[..0] == [];
    for i := 0 to |packets|
      invariant d.Valid() && |through| == i && Remembers(written, d.lastSent, packets[..i])
      invariant forall k :: 0 <= k < i ==> (through[k] <==> Due(written, packets, k))
    {
      var sent := ListenOnce(d, written, packets, i);
      through := through + [sent];
    }
    forall i | 0 <= i < |packets| && through[i]
      ensures packets[i].room && Occurs(packets[i].payload, "acn-fctn") && AddressIn(packets[i].payload) != ""
    {
      DueMeans(written, packets, i);
    }
  }

  lemma NothingRemembered(written: string -> string)
    ensures Remembers(written, map[], [])
  {
  }

  lemma RemembersPast(written: string -> string, lastSent: map<string, nat>, packets: seq<Packet>, i: nat)
    requires i < |packets| && Remembers(written, lastSent, packets[..i])
    requires forall i, j :: 0 <= i < j < |packets| ==> packets[i].time <= packets[j].time
    ensures packets[i].Address(written) in lastSent ==> lastSent[packets[i].Address(written)] <= packets[i].time
  {
    TimesOfNext(written, packets, i, packets[i].Address(written));
  }

  lemma RemembersNext(written: string -> string, before: map<string, nat>, after: map<string, nat>,
                      packets: seq<Packet>, i: nat, pass: bool)
    requires i < |packets| && Remembers(written, before, packets[..i])
    requires var now, a := packets[i].time, packets[i].Address(written);
             pass == (packets[i].Announces(written, a) && (a !in before || now - before[a] >= THROTTLE)) &&
             after == if pass then before[a := now] else before
    ensures Remembers(written, after, packets[..i + 1])
    ensures pass <==>
              packets[i].Announces(written, packets[i].Address(written)) &&
              LastPasses(TimesOf(written, packets[..i + 1], packets[i].Address(written)))
  {
    hide TimesOf, LastThrough, AddressIn;
    forall a: string
      ensures var times := TimesOf(written, packets[..i + 1], a);
              (a in after <==> times != []) &&
              (a in after ==> after[a] == times[LastThrough(times, |times| - 1)])
    {
      TimesOfNext(written, packets, i, a);
      NextAnnouncement(TimesOf(written, packets[..i], a), packets[i].time);
      assert TimesOf(written, packets[..i], a) + [] == TimesOf(written, packets[..i], a);
    }
    TimesOfNext(written, packets, i, packets[i].Address(written));
    NextAnnouncement(TimesOf(written, packets[..i], packets[i].Address(written)), packets[i].time);
  }

  // ---------------------------------------------------------------- the reaper

  /** The receivers not seen within the reaper's patience. */
  method CollectStale(lastSeen: map<string, nat>, now: nat) returns (stale: set<string>)
    ensures forall a :: a in stale <==> a in lastSeen && now - lastSeen[a] > 120 * SECOND
  {
    stale := {};
    var left := lastSeen.Keys;
    while left != {}
      invariant left <= lastSeen.Keys
      invariant forall a :: a in stale <==> a in lastSeen && a !in left && now - lastSeen[a] > PATIENCE
      decreases |left|
    {
      Occupied(left);
      var addr: string :| addr in left;
      left := left - {addr};
      if now - lastSeen[addr] > PATIENCE {
        stale := stale + {addr};
      }
    }
  }

  // ---------------------------------------------------------------- throttle and reaper together

  /** Announcements of one receiver with gaps of at most `gap`, each handled within `delay` if let through. */
  ghost predicate Steady(times: seq<nat>, handled: seq<nat>, gap: nat, delay: nat) {
    && times != [] && Rising(times) && |handled| == |times|
    && (forall i :: 0 <= i < |times| - 1 ==> times[i + 1] <= times[i] + gap)
    && forall i :: 0 <= i < |times| ==> times[i] <= handled[i] <= times[i] + delay
  }

  /** Some announcement let through was handled before the tick, so the receiver was added. */
  ghost predicate Added(times: seq<nat>, handled: seq<nat>, tick: nat)
  {
    |handled| == |times| && exists i: nat :: i < |times| && Through(times, i) && handled[i] < tick
  }

  /** At a tick some announcement already handled is recent enough. */
  ghost predicate Fresh(times: seq<nat>, handled: seq<nat>, tick: nat)
  {
    |handled| == |times| &&
    exists i: nat :: i < |times| && Through(times, i) && handled[i] < tick && tick - handled[i] <= PATIENCE
  }

  /** Whatever the announcements and the handling within these bounds, no tick while they go on finds the
      receiver, once added, stale. */
  ghost predicate Safe(gap: nat, delay: nat) {
    forall times, handled, tick: nat ::
      Steady(times, handled, gap, delay) && Added(times, handled, tick) && tick <= times[|times| - 1] + delay ==>
        Fresh(times, handled, tick)
  }

  /** The last announcement sure to be handled before the tick, if there is one. */
  lemma {:induction false} LastBefore(times: seq<nat>, bound: nat, n: nat) returns (i: nat)
    requires 0 < n <= |times| && Rising(times) && times[0] < bound
    ensures i < n && times[i] < bound && (i + 1 < n ==> times[i + 1] >= bound)
  {
    if times[n - 1] < bound {
      i := n - 1;
    } else {
      i := LastBefore(times, bound, n - 1);
    }
  }

  lemma SteadyIsFresh(times: seq<nat>, handled: seq<nat>, gap: nat, delay: nat, tick: nat)
    requires gap + delay <= 90 * SECOND + 1
    requires Steady(times, handled, gap, delay)
    requires Added(times, handled, tick) && tick <= times[|times| - 1] + delay
    ensures Fresh(times, handled, tick)
  {
    hide Through, LastThrough;
    if tick <= times[0] + delay {
      var i: nat :| i < |times| && Through(times, i) && handled[i] < tick;
      assert times[0] <= times[i];
    } else {
      var i := LastBefore(times, tick - delay, |times|);
      assert i < |times| - 1;
      LastIsThrough(times, i);
      var j := LastThrough(times, i);
      assert times[j] <= times[i] by {
        if j < i {
          assert Rising(times);
        }
      }
      assert handled[j] < tick && tick - handled[j] <= PATIENCE;
    }
  }

  function Least(a: nat, b: nat): nat {
    if a < b then a else b
  }

  /** Announcements that keep just short of the throttle, and one more. */
  function Teasing(gap: nat): seq<nat> {
    seq(THROTTLE, i requires 0 <= i < THROTTLE => Least(i * gap, THROTTLE - 1)) + [THROTTLE - 1 + gap]
  }

  lemma Multiples(i: nat, j: nat, gap: nat)
    requires i <= j
    ensures i * gap <= j * gap && (i + 1) * gap == i * gap + gap && (gap >= 1 ==> j * gap >= j)
  {
  }

  lemma TeasingShape(gap: nat)
    requires gap >= 1
    ensures var times := Teasing(gap);
            times[0] == 0 && times[THROTTLE - 1] == THROTTLE - 1 && Rising(times) &&
            (forall i :: 0 <= i < |times| - 1 ==> times[i + 1] <= times[i] + gap) &&
            (forall i :: 0 <= i < THROTTLE ==> times[i] < THROTTLE)
  {
    var times := Teasing(gap);
    forall i, j | 0 <= i < j < |times|
      ensures times[i] <= times[j]
    {
      Multiples(i, j, gap);
    }
    forall i | 0 <= i < |times| - 1
      ensures times[i + 1] <= times[i] + gap
    {
      Multiples(i, i, gap);
      Multiples(THROTTLE - 1, THROTTLE - 1, gap);
    }
    Multiples(THROTTLE - 1, THROTTLE - 1, gap);
  }

  /** Before the throttle's time is over only the first is let through. */
  lemma {:induction false} OnlyFirstThrough(times: seq<nat>, i: nat)
    requires i < |times| && times[0] == 0 && forall k :: 0 <= k <= i ==> times[k] < THROTTLE
    ensures LastThrough(times, i) == 0
  {
    if i > 0 {
      OnlyFirstThrough(times, i - 1);
    }
  }

  lemma TooSlowIsStale(gap: nat, delay: nat)
    requires gap >= 1 && gap + delay > 90 * SECOND + 1
    ensures !Safe(gap, delay)
  {
    var times := Teasing(gap);
    TeasingShape(gap);
    var handled := seq(|times|, i requires 0 <= i < |times| => if i == 0 then 0 else times[i] + delay);
    var tick := THROTTLE - 1 + gap + delay;
    assert Steady(times, handled, gap, delay);
    assert Through(times, 0) && Added(times, handled, tick);
    forall i: nat | i < |times| && Through(times, i) && handled[i] < tick
      ensures tick - handled[i] > PATIENCE
    {
      if 0 < i < THROTTLE {
        OnlyFirstThrough(times, i);
      }
    }
    assert !Fresh(times, handled, tick);
  }

  lemma {:induction false} SameTime(times: seq<nat>, i: nat)
    requires i < |times| && Rising(times) && forall i :: 0 <= i < |times| - 1 ==> times[i + 1] <= times[i]
    ensures times[i] == times[0]
  {
    if i > 0 {
      SameTime(times, i - 1);
    }
  }

  lemma AtOnceIsFresh(times: seq<nat>, handled: seq<nat>, delay: nat, tick: nat)
    requires Steady(times, handled, 0, delay) && delay <= PATIENCE
    requires Added(times, handled, tick) && tick <= times[|times| - 1] + delay
    ensures Fresh(times, handled, tick)
  {
    hide Through;
    var i: nat :| i < |times| && Through(times, i) && handled[i] < tick;
    SameTime(times, |times| - 1);
    SameTime(times, i);
  }

  lemma AtOnceTooSlow(delay: nat)
    requires delay > PATIENCE
    ensures !Safe(0, delay)
  {
    var times, handled := [0], [0];
    assert Steady(times, handled, 0, delay);
    assert Through(times, 0) && Added(times, handled, delay);
    assert !Fresh(times, handled, delay);
  }

  /** All announcements at one moment: only the first is let through, and only its handling can be late. */
  lemma AtOnce(delay: nat)
    ensures Safe(0, delay) <==> delay <= PATIENCE
  {
    if delay <= PATIENCE {
      forall times, handled, tick: nat |
        Steady(times, handled, 0, delay) && Added(times, handled, tick) && tick <= times[|times| - 1] + delay
        ensures Fresh(times, handled, tick)
      {
        AtOnceIsFresh(times, handled, delay, tick);
      }
    } else {
      AtOnceTooSlow(delay);
    }
  }

  /** The reaper never takes a receiver that keeps announcing itself exactly when announcement gap and
      handling delay together are at most 90 seconds and a nanosecond; if all announcements come at one
      moment, when the delay is at most the reaper's patience. */
  lemma SafeIff(gap: nat, delay: nat)
    ensures Safe(gap, delay) <==> if gap == 0 then delay <= PATIENCE else gap + delay <= 90 * SECOND + 1
  {
    if gap == 0 {
      AtOnce(delay);
    } else if gap + delay <= 90 * SECOND + 1 {
      forall times, handled, tick: nat | Steady(times, handled, gap, delay) && Added(times, handled, tick) &&
                                    tick <= times[|times| - 1] + delay
        ensures Fresh(times, handled, tick)
      {
        SteadyIsFresh(times, handled, gap, delay, tick);
      }
    } else {
      TooSlowIsStale(gap, delay);
    }
  }

  // ---------------------------------------------------------------- several receivers at one address

  /** One announcement of an address: when, and for which port. */
  datatype Announcement = Announcement(time: nat, port: int)

  function Times(traffic: seq<Announcement>): (times: seq<nat>)
    ensures |times| == |traffic| && forall i :: 0 <= i < |traffic| ==> times[i] == traffic[i].time
  {
    seq(|traffic|, i requires 0 <= i < |traffic| => traffic[i].time)
  }

  predicate Own(traffic: seq<Announcement>, port: int, i: nat) {
    i < |traffic| && traffic[i].port == port
  }

  /** The port announces itself again soon enough. */
  ghost predicate Again(traffic: seq<Announcement>, port: int, gap: nat, i: nat)
    requires i < |traffic|
  {
    exists j: nat :: i < j && Own(traffic, port, j) && traffic[j].time <= traffic[i].time + gap
  }

  /** Announcements of any ports, in which one port keeps the bounds. */
  ghost predicate PortSteady(traffic: seq<Announcement>, handled: seq<nat>, port: int, gap: nat, delay: nat) {
    && Rising(Times(traffic)) && |handled| == |traffic|
    && (forall i: nat, k: nat :: i < k && Own(traffic, port, i) && Own(traffic, port, k) ==>
          Again(traffic, port, gap, i))
    && forall i: nat :: Own(traffic, port, i) ==> traffic[i].time <= handled[i] <= traffic[i].time + delay
  }

  /** An announcement of the port's own was let through and handled before the tick. */
  ghost predicate PortAdded(traffic: seq<Announcement>, handled: seq<nat>, port: int, tick: nat)
  {
    |handled| == |traffic| && exists i: nat :: Own(traffic, port, i) && Through(Times(traffic), i) && handled[i] < tick
  }

  ghost predicate PortFresh(traffic: seq<Announcement>, handled: seq<nat>, port: int, tick: nat)
  {
    |handled| == |traffic| &&
    exists i: nat :: Own(traffic, port, i) && Through(Times(traffic), i) && handled[i] < tick <= handled[i] + PATIENCE
  }

  /** Its own announcements go on until the tick. */
  ghost predicate PortGoesOn(traffic: seq<Announcement>, port: int, tick: nat, delay: nat) {
    exists k: nat :: Own(traffic, port, k) && tick <= traffic[k].time + delay
  }

  /** Whatever the announcements of these ports, one of them, once added and while it keeps announcing itself
      within the bounds, is never found stale. */
  ghost predicate PortSafe(ports: set<int>, port: int, gap: nat, delay: nat) {
    forall traffic: seq<Announcement>, handled: seq<nat>, tick: nat ::
      (forall i :: 0 <= i < |traffic| ==> traffic[i].port in ports) && PortSteady(traffic, handled, port, gap, delay) &&
      PortAdded(traffic, handled, port, tick) && PortGoesOn(traffic, port, tick, delay) ==>
        PortFresh(traffic, handled, port, tick)
  }

  /** Alone at its address a port has the bounds of a single receiver. */
  lemma AloneIsSteady(traffic: seq<Announcement>, handled: seq<nat>, port: int, gap: nat, delay: nat)
    requires traffic != [] && forall i: nat :: i < |traffic| ==> Own(traffic, port, i)
    ensures PortSteady(traffic, handled, port, gap, delay) <==> Steady(Times(traffic), handled, gap, delay)
  {
    if PortSteady(traffic, handled, port, gap, delay) {
      forall i: nat | i < |traffic| - 1
        ensures traffic[i + 1].time <= traffic[i].time + gap
      {
        assert Own(traffic, port, i + 1) && Again(traffic, port, gap, i);
      }
      assert forall i: nat :: i < |traffic| ==> Own(traffic, port, i) && traffic[i].time <= handled[i];
    }
    if Steady(Times(traffic), handled, gap, delay) {
      forall i: nat, k: nat | i < k && Own(traffic, port, i) && Own(traffic, port, k)
        ensures Again(traffic, port, gap, i)
      {
        assert Own(traffic, port, i + 1);
      }
    }
  }

  lemma AloneIsSafe(traffic: seq<Announcement>, handled: seq<nat>, port: int, gap: nat, delay: nat, tick: nat)
    requires forall i: nat :: i < |traffic| ==> Own(traffic, port, i)
    requires gap + delay <= 90 * SECOND + 1 && PortSteady(traffic, handled, port, gap, delay)
    requires PortAdded(traffic, handled, port, tick) && PortGoesOn(traffic, port, tick, delay)
    ensures PortFresh(traffic, handled, port, tick)
  {
    hide Through, Steady, PortSteady;
    AloneIsSteady(traffic, handled, port, gap, delay);
    var times := Times(traffic);
    SteadyRises(times, handled, gap, delay);
    assert Added(times, handled, tick);
    assert times[|times| - 1] + delay >= tick by {
      var k: nat :| Own(traffic, port, k) && tick <= traffic[k].time + delay;
    }
    SteadyIsFresh(times, handled, gap, delay, tick);
    var i: nat :| i < |times| && Through(times, i) && handled[i] < tick && tick - handled[i] <= PATIENCE;
    assert Own(traffic, port, i);
  }

  lemma SteadyRises(times: seq<nat>, handled: seq<nat>, gap: nat, delay: nat)
    requires Steady(times, handled, gap, delay)
    ensures Rising(times) && |handled| == |times|
  {
  }

  /** A single receiver's stale run is one of a port alone at its address. */
  lemma SlowPortIsStale(ports: set<int>, port: int, gap: nat, delay: nat)
    requires port in ports && !Safe(gap, delay)
    ensures !PortSafe(ports, port, gap, delay)
  {
    hide Through, PortSteady;
    var times, handled, tick: nat :| Steady(times, handled, gap, delay) && Added(times, handled, tick) &&
                                tick <= times[|times| - 1] + delay && !Fresh(times, handled, tick);
    SteadyRises(times, handled, gap, delay);
    var traffic := seq(|times|, i requires 0 <= i < |times| => Announcement(times[i], port));
    assert Times(traffic) == times;
    AloneIsSteady(traffic, handled, port, gap, delay);
    assert PortAdded(traffic, handled, port, tick) by {
      var i: nat :| i < |times| && Through(times, i) && handled[i] < tick;
      assert Own(traffic, port, i);
    }
    assert PortGoesOn(traffic, port, tick, delay) by {
      assert Own(traffic, port, |times| - 1);
    }
    assert !PortFresh(traffic, handled, port, tick);
  }

  /** A port announced just before another one, moment after moment, after the other was added. */
  function Shadowed(port: int, other: int, n: nat): seq<Announcement> {
    seq(2 * n + 1, i requires 0 <= i < 2 * n + 1 => Announcement((i + 1) / 2, if i % 2 == 1 then other else port))
  }

  /** The throttle does not tell ports apart: what is announced just before keeps the port's own out. */
  lemma ShadowedIsOut(port: int, other: int, n: nat, i: nat)
    requires 0 < i <= 2 * n && i % 2 == 0
    ensures !Through(Times(Shadowed(port, other, n)), i)
  {
    var times := Times(Shadowed(port, other, n));
    assert times[i] == times[i - 1];
    LastIsThrough(times, i - 1);
    NextThrough(times, i);
  }

  lemma ShadowedIsSteady(port: int, other: int, n: nat, gap: nat, delay: nat)
    requires port != other && gap >= 1
    ensures var traffic := Shadowed(port, other, n);
            PortSteady(traffic, Times(traffic), port, gap, delay)
  {
    var traffic := Shadowed(port, other, n);
    forall i: nat, k: nat | i < k && Own(traffic, port, i) && Own(traffic, port, k)
      ensures Again(traffic, port, gap, i)
    {
      assert Own(traffic, port, i + 2);
    }
  }

  /** A second port of the address can take all the throttle's turns, so that a receiver that was added and
      keeps announcing itself is found stale. */
  lemma SecondPortStarves(ports: set<int>, port: int, other: int, gap: nat, delay: nat)
    requires port in ports && other in ports && port != other && gap >= 1
    ensures !PortSafe(ports, port, gap, delay)
  {
    hide Through, PortSteady;
    var n := PATIENCE + 1;
    var traffic := Shadowed(port, other, n);
    var handled := Times(traffic);
    ShadowedIsSteady(port, other, n, gap, delay);
    assert PortAdded(traffic, handled, port, n) by {
      FirstIsThrough(handled);
      assert Own(traffic, port, 0);
    }
    assert PortGoesOn(traffic, port, n, delay) by {
      assert Own(traffic, port, 2 * n);
    }
    forall i: nat | Own(traffic, port, i) && Through(handled, i)
      ensures i == 0
    {
      if i > 0 {
        ShadowedIsOut(port, other, n, i);
      }
    }
    assert !PortFresh(traffic, handled, port, n);
  }

  lemma FirstIsThrough(times: seq<nat>)
    requires times != []
    ensures Through(times, 0)
  {
  }

  /** Own announcements no gap apart are all at one moment. */
  lemma {:induction false} OneMoment(traffic: seq<Announcement>, handled: seq<nat>, port: int, delay: nat, i: nat,
                                     k: nat)
    requires PortSteady(traffic, handled, port, 0, delay) && i <= k && Own(traffic, port, i) && Own(traffic, port, k)
    ensures traffic[i].time == traffic[k].time
    decreases k - i
  {
    assert Times(traffic)[i] <= Times(traffic)[k];
    if i < k {
      assert Again(traffic, port, 0, i);
      var j: nat :| i < j && Own(traffic, port, j) && traffic[j].time <= traffic[i].time + 0;
      if j < k {
        assert Times(traffic)[i] <= Times(traffic)[j];
        OneMoment(traffic, handled, port, delay, j, k);
      } else {
        assert Times(traffic)[k] <= Times(traffic)[j];
      }
    }
  }

  lemma MomentIsFresh(traffic: seq<Announcement>, handled: seq<nat>, port: int, delay: nat, tick: nat)
    requires delay <= PATIENCE && PortSteady(traffic, handled, port, 0, delay)
    requires PortAdded(traffic, handled, port, tick) && PortGoesOn(traffic, port, tick, delay)
    ensures PortFresh(traffic, handled, port, tick)
  {
    hide Through;
    var i: nat :| Own(traffic, port, i) && Through(Times(traffic), i) && handled[i] < tick;
    var k: nat :| Own(traffic, port, k) && tick <= traffic[k].time + delay;
    if i <= k {
      OneMoment(traffic, handled, port, delay, i, k);
    } else {
      OneMoment(traffic, handled, port, delay, k, i);
    }
  }

  /** Of the receivers at one address each is safe whatever the others announce exactly when it keeps the
      bounds of a single receiver and there is no other port; or when it announces itself at one moment only,
      and the delay is at most the reaper's patience. */
  lemma PortSafeIff(ports: set<int>, port: int, gap: nat, delay: nat)
    requires port in ports
    ensures PortSafe(ports, port, gap, delay) <==>
              if gap == 0 then delay <= 120 * SECOND
              else gap + delay <= 90 * SECOND + 1 && forall other :: other in ports ==> other == port
  {
    hide PortSteady, PortAdded, PortGoesOn, PortFresh, Safe;
    SafeIff(gap, delay);
    if gap == 0 && delay <= PATIENCE {
      forall traffic: seq<Announcement>, handled: seq<nat>, tick: nat |
        PortSteady(traffic, handled, port, gap, delay) && PortAdded(traffic, handled, port, tick) &&
        PortGoesOn(traffic, port, tick, delay)
        ensures PortFresh(traffic, handled, port, tick)
      {
        MomentIsFresh(traffic, handled, port, delay, tick);
      }
    } else if gap == 0 || gap + delay > 90 * SECOND + 1 {
      SlowPortIsStale(ports, port, gap, delay);
    } else if exists other :: other in ports && other != port {
      var other :| other in ports && other != port;
      SecondPortStarves(ports, port, other, gap, delay);
    } else {
      forall traffic: seq<Announcement>, handled: seq<nat>, tick: nat |
        (forall i :: 0 <= i < |traffic| ==> traffic[i].port in ports) &&
        PortSteady(traffic, handled, port, gap, delay) &&
        PortAdded(traffic, handled, port, tick) && PortGoesOn(traffic, port, tick, delay)
        ensures PortFresh(traffic, handled, port, tick)
      {
        AloneIsSafe(traffic, handled, port, gap, delay, tick);
      }
    }
  }

  /** Two ports of one address announced in turn, the second one second after the first, `n` rounds of
      thirty seconds. */
  function InTurn(n: nat): seq<nat> {
    seq(2 * n, i requires 0 <= i < 2 * n => (i / 2) * THROTTLE + (i % 2) * SECOND)
  }

  /** The throttle does not tell the ports apart: only the first one's announcements are let through, so
      the second receiver is never added. */
  lemma {:induction false} SecondPortNeverPasses(n: nat, i: nat)
    requires i < 2 * n
    ensures Through(InTurn(n), i) <==> i % 2 == 0
    ensures LastThrough(InTurn(n), i) == i - i % 2
  {
    hide LastThrough;
    if i == 0 {
      FirstThrough(InTurn(n));
    } else {
      NextThrough(InTurn(n), i);
      SecondPortNeverPasses(n, i - 1);
      var j := LastThrough(InTurn(n), i - 1);
      if i % 2 == 0 {
        assert i / 2 == j / 2 + 1;
        assert InTurn(n)[i] - InTurn(n)[j] == THROTTLE;
      } else {
        assert i / 2 == j / 2;
      }
    }
  }
}
