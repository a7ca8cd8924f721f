/** Which worker a device report reaches, and what a set of that worker sends back. */
module Routing {
  import opened Text
  import opened BlockGraph
  import opened RolePaths
  import opened Forests
  import opened ShureModels
  import opened DeviceLayout
  import opened Nca

  /** The routing table for these ties. */
  function Routes(ties: seq<Tie>): map<string, int> {
    if ties == [] then map[]
    else Routes(ties[..|ties| - 1])[ties[|ties| - 1].Key() := ties[|ties| - 1].oid]
  }

  lemma NoRoutes()
    ensures Routes([]) == map[]
  {
  }

  lemma {:induction false} RoutesSum(a: seq<Tie>, b: seq<Tie>)
    ensures Routes(a + b) == Routes(a) + Routes(b)
  {
    if b == [] {
      assert a + b == a;
      assert Routes(a) + map[] == Routes(a);
    } else {
      var n := |b| - 1;
      assert (a + b)[..|a + b| - 1] == a + b[..n];
      RoutesSum(a, b[..n]);
    }
  }

  lemma {:induction false} RoutesExact(ties: seq<Tie>)
    requires forall i, j :: 0 <= i < |ties| && 0 <= j < |ties| && ties[i].Key() == ties[j].Key() ==>
               ties[i].oid == ties[j].oid
    ensures forall k :: 0 <= k < |ties| ==> ties[k].Key() in Routes(ties) && Routes(ties)[ties[k].Key()] == ties[k].oid
    ensures forall key :: key in Routes(ties) ==> exists k :: 0 <= k < |ties| && ties[k].Key() == key
  {
    hide Tie.Key;
    if ties != [] {
      var n := |ties| - 1;
      RoutesExact(ties[..n]);
      forall key | key in Routes(ties)
        ensures exists k :: 0 <= k < |ties| && ties[k].Key() == key
      {
        if key == ties[n].Key() {
          assert ties[n].Key() == key;
        } else {
          var k :| 0 <= k < n && ties[..n][k].Key() == key;
          assert ties[k].Key() == key;
        }
      }
      forall k | 0 <= k < n
        ensures ties[k].Key() in Routes(ties) && Routes(ties)[ties[k].Key()] == ties[k].oid
      {
        assert ties[..n][k] == ties[k];
      }
    }
  }

  // ---------------------------------------------------------------- the ties of a receiver, by place

  /** The ties of one level: the device's own, or those of a channel. */
  function LevelTies(family: Family, device: int, c: nat): seq<Tie> {
    if c == 0 then DeviceTies(family, device) else AllChannelTies(family, device, c)
  }

  function LevelConfigs(family: Family, c: nat): seq<WorkerConfig> {
    if c == 0 then if family.QLXD? then DEVICE_WORKERS else [] else PerChannel(family)
  }

  /** Ties of one table, place by place, all of the whole device or of one channel. */
  predicate Tabled(ties: seq<Tie>, configs: seq<WorkerConfig>, c: nat) {
    |ties| == |configs| && forall k :: 0 <= k < |ties| ==>
      ties[k].config == configs[k] &&
      if c == 0 then ties[k].scope.WholeDevice? else !ties[k].scope.WholeDevice? && ties[k].scope.channel == c
  }

  lemma TabledSum(a: seq<Tie>, first: seq<WorkerConfig>, b: seq<Tie>, second: seq<WorkerConfig>, c: nat)
    requires Tabled(a, first, c) && Tabled(b, second, c)
    ensures Tabled(a + b, first + second, c)
  {
  }

  lemma NestedTabled(device: int, c: nat)
    requires c > 0
    ensures Tabled(GainTies(device, c) + BatteryTies(device, c) + TransmitterTies(device, c),
                   GAIN_WORKERS + BATTERY_WORKERS + TRANSMITTER_WORKERS, c)
  {
    TabledSum(GainTies(device, c), GAIN_WORKERS, BatteryTies(device, c), BATTERY_WORKERS, c);
    TabledSum(GainTies(device, c) + BatteryTies(device, c), GAIN_WORKERS + BATTERY_WORKERS,
              TransmitterTies(device, c), TRANSMITTER_WORKERS, c);
  }

  /** The tie at one place of a level. */
  lemma LevelPlaces(family: Family, device: int, c: nat)
    ensures |LevelTies(family, device, c)| == |LevelConfigs(family, c)|
    ensures forall k :: 0 <= k < |LevelTies(family, device, c)| ==>
              LevelTies(family, device, c)[k].config == LevelConfigs(family, c)[k] &&
              (c == 0 ==> LevelTies(family, device, c)[k].scope.WholeDevice?) &&
              (c > 0 ==> !LevelTies(family, device, c)[k].scope.WholeDevice? &&
                         LevelTies(family, device, c)[k].scope.channel == c)
  {
    hide ChannelWorkersConfig, GainTies, BatteryTies, TransmitterTies;
    if c > 0 {
      if family.QLXD? {
        NestedTabled(device, c);
        TabledSum(ChannelTies(family, device, c), ChannelWorkersConfig(family),
                  GainTies(device, c) + BatteryTies(device, c) + TransmitterTies(device, c),
                  GAIN_WORKERS + BATTERY_WORKERS + TRANSMITTER_WORKERS, c);
      }
      assert Tabled(LevelTies(family, device, c), LevelConfigs(family, c), c);
    }
  }

  lemma {:induction false} TiePlace(family: Family, device: int, n: nat, tie: Tie) returns (c: nat, k: nat)
    requires tie in AllTies(family, device, n)
    ensures c <= n && k < |LevelTies(family, device, c)| && tie == LevelTies(family, device, c)[k]
  {
    hide AllChannelTies, DeviceTies;
    if n == 0 {
      c := 0;
      k :| 0 <= k < |AllTies(family, device, 0)| && AllTies(family, device, 0)[k] == tie;
    } else if tie in AllTies(family, device, n - 1) {
      c, k := TiePlace(family, device, n - 1, tie);
    } else {
      c := n;
      var level := AllChannelTies(family, device, n);
      assert tie in level;
      k :| 0 <= k < |level| && level[k] == tie;
    }
  }

  /** What is known of each tie: its place, its plain parameter name and its key. */
  lemma TieFacts(family: Family, device: int, n: nat, tie: Tie) returns (c: nat, k: nat)
    requires tie in AllTies(family, device, n)
    ensures c <= n && k < |LevelTies(family, device, c)| && tie == LevelTies(family, device, c)[k]
    ensures k < |LevelConfigs(family, c)| && tie.config == LevelConfigs(family, c)[k] && Plain(tie.config.param)
    ensures if c == 0 then tie.scope.WholeDevice? && family.QLXD? && tie.Key() == tie.config.param
            else !tie.scope.WholeDevice? && tie.scope.channel == c && tie.Key() == Itoa(c) + "_" + tie.config.param
  {
    hide Plain, AllTies, LevelTies, PerChannel;
    c, k := TiePlace(family, device, n, tie);
    LevelPlaces(family, device, c);
    ParamsPlain(family);
    if c == 0 {
      assert Params(DEVICE_WORKERS)[k] == tie.config.param;
    } else {
      assert Params(PerChannel(family))[k] == tie.config.param;
    }
  }

  /** A channel number, an underscore and a name can be told apart again, and are never a plain name. */
  lemma KeysDiffer(c: int, p: string, d: int, q: string)
    ensures Itoa(c) + "_" + p == Itoa(d) + "_" + q <==> c == d && p == q
    ensures Plain(q) ==> Itoa(c) + "_" + p != q
  {
    ItoaChars(c);
    ItoaChars(d);
    assert FreeOf(Itoa(c), Only('_')) && FreeOf(Itoa(d), Only('_'));
    if Itoa(c) + "_" + p == Itoa(d) + "_" + q {
      SplitAtSeparator(Itoa(c), p, Itoa(d), q, '_');
      ItoaInjective(c, d);
    }
    assert (Itoa(c) + "_" + p)[0] == Itoa(c)[0];
  }

  /** Within a receiver the parameter name and the level determine the tie. */
  lemma SameParamSameTie(family: Family, device: int, n: nat, t: Tie, u: Tie)
    requires t in AllTies(family, device, n) && u in AllTies(family, device, n) && t.config.param == u.config.param
    requires t.scope.WholeDevice? == u.scope.WholeDevice?
    requires !t.scope.WholeDevice? ==> t.scope.channel == u.scope.channel
    ensures t == u
  {
    hide AllTies, LevelTies, PerChannel, Plain;
    var c, k := TieFacts(family, device, n, t);
    var d, l := TieFacts(family, device, n, u);
    ChannelDistinct(family);
    TableDistinct();
    if c == 0 {
      assert Params(DEVICE_WORKERS)[k] == Params(DEVICE_WORKERS)[l];
    } else {
      assert Params(PerChannel(family))[k] == Params(PerChannel(family))[l];
    }
  }

  /** The routing table is injective on the workers of any receiver. */
  lemma SameKeySameTie(family: Family, device: int, n: nat, t: Tie, u: Tie)
    requires t in AllTies(family, device, n) && u in AllTies(family, device, n) && t.Key() == u.Key()
    ensures t == u
  {
    hide AllTies, LevelTies, LevelConfigs, Plain, Tie.Key;
    var c, k := TieFacts(family, device, n, t);
    var d, l := TieFacts(family, device, n, u);
    KeysDiffer(c, t.config.param, d, u.config.param);
    KeysDiffer(d, u.config.param, c, t.config.param);
    SameParamSameTie(family, device, n, t, u);
  }

  // ---------------------------------------------------------------- routing a report

  /** A string without its blanks. */
  function NoBlanks(s: string): (r: string)
    ensures FreeOf(r, Only(' '))
  {
    if s == "" then "" else (if s[0] == ' ' then "" else [s[0]]) + NoBlanks(s[1..])
  }

  lemma {:induction false} NoBlanksSame(s: string)
    ensures NoBlanks(s) == s <==> FreeOf(s, Only(' '))
  {
    if s != "" {
      NoBlanksSame(s[1..]);
      NoBlanksShorter(s[1..]);
      if FreeOf(s, Only(' ')) {
        assert forall k :: 0 <= k < |s[1..]| ==> s[1..][k] == s[k + 1];
        assert s == [s[0]] + s[1..];
      }
    }
  }

  lemma {:induction false} NoBlanksShorter(s: string)
    ensures |NoBlanks(s)| <= |s|
  {
    if s != "" {
      NoBlanksShorter(s[1..]);
    }
  }

  /** Which reports a worker hears, given the family the gateway now takes the receiver for: those of its
      parameter, blanks aside, on its channel. While the receiver is taken for a QLX-D also those of a worker
      of the whole device, and those whose parameter name spells a worker's whole routing key, on whatever
      channel they come. */
  predicate Hears(family: Family, tie: Tie, channel: int, param: string) {
    || (NoBlanks(param) == tie.config.param &&
        if tie.scope.WholeDevice? then family.QLXD? else tie.scope.channel == channel)
    || (family.QLXD? && !tie.scope.WholeDevice? && NoBlanks(param) == tie.Key())
  }

  /** No report is heard by two workers. */
  lemma OneHears(built: Family, family: Family, device: int, n: nat, t: Tie, u: Tie, channel: int, param: string)
    requires t in AllTies(built, device, n) && u in AllTies(built, device, n)
    requires Hears(family, t, channel, param) && Hears(family, u, channel, param)
    ensures t == u
  {
    hide AllTies, LevelTies, LevelConfigs, PerChannel, Plain, NoBlanks, Params;
    var c, k := TieFacts(built, device, n, t);
    var d, l := TieFacts(built, device, n, u);
    KeysDiffer(c, t.config.param, d, u.config.param);
    KeysDiffer(d, u.config.param, c, t.config.param);
    if c == 0 && d > 0 && t.config.param == u.config.param {
      LevelsMeet(built, c, k, d, l);
    }
    if d == 0 && c > 0 && t.config.param == u.config.param {
      LevelsMeet(built, d, l, c, k);
    }
    SameParamSameTie(built, device, n, t, u);
  }

  /** A device parameter is not a channel parameter. */
  lemma LevelsMeet(family: Family, c: nat, k: nat, d: nat, l: nat)
    requires family.QLXD? && c == 0 && d > 0 && k < |LevelConfigs(family, c)| && l < |LevelConfigs(family, d)|
    ensures LevelConfigs(family, c)[k].param != LevelConfigs(family, d)[l].param
  {
    hide PerChannel;
    assert Params(DEVICE_WORKERS)[k] in Params(DEVICE_WORKERS);
    assert Params(PerChannel(QLXD))[l] in Params(PerChannel(QLXD));
    DeviceParamsElsewhere(Params(DEVICE_WORKERS)[k], Params(PerChannel(QLXD))[l]);
  }

  /** The table holds exactly the workers' keys. */
  lemma TableExact(family: Family, device: int, n: nat)
    ensures forall t :: t in AllTies(family, device, n) ==>
              t.Key() in Routes(AllTies(family, device, n)) && Routes(AllTies(family, device, n))[t.Key()] == t.oid
    ensures forall key :: key in Routes(AllTies(family, device, n)) ==>
              exists t :: t in AllTies(family, device, n) && t.Key() == key
  {
    hide AllTies, Tie.Key, Routes;
    var ties := AllTies(family, device, n);
    forall i, j | 0 <= i < |ties| && 0 <= j < |ties| && ties[i].Key() == ties[j].Key()
      ensures ties[i].oid == ties[j].oid
    {
      SameKeySameTie(family, device, n, ties[i], ties[j]);
    }
    RoutesExact(ties);
    forall key | key in Routes(ties)
      ensures exists t :: t in ties && t.Key() == key
    {
      var k :| 0 <= k < |ties| && ties[k].Key() == key;
      assert ties[k] in ties;
    }
  }

  /** A worker whose key is one of the keys tried hears the report. */
  lemma KeyMeansHears(built: Family, family: Family, device: int, n: nat, tie: Tie, channel: int, param: string)
    requires tie in AllTies(built, device, n)
    requires tie.Key() in {Itoa(channel) + "_" + param, Itoa(channel) + "_" + NoBlanks(param)} ||
             (family.QLXD? && tie.Key() in {param, NoBlanks(param)})
    ensures Hears(family, tie, channel, param)
  {
    hide AllTies, LevelTies, LevelConfigs, NoBlanks;
    var c, k := TieFacts(built, device, n, tie);
    KeysDiffer(channel, param, c, tie.config.param);
    KeysDiffer(channel, NoBlanks(param), c, tie.config.param);
    NoBlanksSame(param);
    ItoaChars(c);
    assert FreeOf(Itoa(c) + "_" + tie.config.param, Only(' '));
  }

  lemma HearsMeansKey(built: Family, family: Family, device: int, n: nat, tie: Tie, channel: int, param: string)
    requires tie in AllTies(built, device, n) && Hears(family, tie, channel, param)
    ensures tie.Key() == Itoa(channel) + "_" + NoBlanks(param) || (family.QLXD? && tie.Key() == NoBlanks(param))
  {
    hide AllTies, LevelTies, LevelConfigs, NoBlanks;
    var c, k := TieFacts(built, device, n, tie);
  }

  /** The first key tried that is in the table decides, and any worker that hears the report is its worker. */
  lemma KeyDecides(built: Family, family: Family, device: int, n: nat, channel: int, param: string, key: string)
    requires key in Routes(AllTies(built, device, n))
    requires key in {Itoa(channel) + "_" + param, Itoa(channel) + "_" + NoBlanks(param)} ||
             (family.QLXD? && key in {param, NoBlanks(param)})
    ensures exists tie :: tie in AllTies(built, device, n) && Hears(family, tie, channel, param)
    ensures forall tie :: tie in AllTies(built, device, n) && Hears(family, tie, channel, param) ==>
              Routes(AllTies(built, device, n))[key] == tie.oid
  {
    hide AllTies, Tie.Key, Routes, Hears, NoBlanks;
    TableExact(built, device, n);
    var t :| t in AllTies(built, device, n) && t.Key() == key;
    KeyMeansHears(built, family, device, n, t, channel, param);
    forall tie | tie in AllTies(built, device, n) && Hears(family, tie, channel, param)
      ensures Routes(AllTies(built, device, n))[key] == tie.oid
    {
      OneHears(built, family, device, n, t, tie, channel, param);
    }
  }

  /** The object a report is for: exactly the one worker that hears it, if there is one. */
  method RouteReport(parameterOids: map<string, int>, family: Family, channel: int, param: string,
                     ghost built: Family, ghost device: int, ghost n: nat)
    returns (oid: Option<int>)
    requires parameterOids == Routes(AllTies(built, device, n))
    ensures oid.Some? <==> exists tie :: tie in AllTies(built, device, n) && Hears(family, tie, channel, param)
    ensures forall tie :: tie in AllTies(built, device, n) && Hears(family, tie, channel, param) ==>
              oid == Some(tie.oid)
  {
    hide Routes, AllTies, NoBlanks, Tie.Key, Hears;
    var key, normalized := Itoa(channel) + "_" + param, NoBlanks(param);
    if key in parameterOids {
      KeyDecides(built, family, device, n, channel, param, key);
      return Some(parameterOids[key]);
    }
    key := Itoa(channel) + "_" + normalized;
    if key in parameterOids {
      KeyDecides(built, family, device, n, channel, param, key);
      return Some(parameterOids[key]);
    }
    if family.QLXD? {
      if param in parameterOids {
        KeyDecides(built, family, device, n, channel, param, param);
        return Some(parameterOids[param]);
      }
      if normalized in parameterOids {
        KeyDecides(built, family, device, n, channel, param, normalized);
        return Some(parameterOids[normalized]);
      }
    }
    forall tie | tie in AllTies(built, device, n) && Hears(family, tie, channel, param)
      ensures false
    {
      HearsMeansKey(built, family, device, n, tie, channel, param);
      TableExact(built, device, n);
    }
    return None;
  }

  /** A metered parameter's own worker, under its channel's key, is never settable. */
  lemma MeteredNoSetter(built: Family, device: int, n: nat, tie: Tie, channel: int, param: string)
    requires tie in AllTies(built, device, n) && tie.Key() == Itoa(channel) + "_" + param && IsMeteredParam(param)
    ensures tie.Setter().None?
  {
    hide AllTies, LevelTies, Plain, PerChannel, IsMeteredParam;
    var c, k := TieFacts(built, device, n, tie);
    KeysDiffer(channel, param, c, tie.config.param);
    MeteredReadOnly(built, LevelConfigs(built, c), k);
  }

  /** What a set sends back on behalf of a report that names this channel and parameter. */
  function Named(tie: Tie, channel: int, param: string): Setter {
    Setter(if tie.scope.WholeDevice? then None else Some(channel), NoBlanks(param))
  }

  /** A worker sends for the very channel and parameter of the report it hears exactly when it is the whole
      device's or was not reached by its routing key. */
  lemma SendsWhatItHears(built: Family, family: Family, device: int, n: nat, tie: Tie, channel: int, param: string)
    requires tie in AllTies(built, device, n) && Hears(family, tie, channel, param) && tie.Setter().Some?
    ensures tie.Setter() == Some(Named(tie, channel, param)) <==>
              tie.scope.WholeDevice? || NoBlanks(param) != tie.Key()
  {
    hide AllTies, LevelTies, LevelConfigs, NoBlanks, Plain;
    var c, k := TieFacts(built, device, n, tie);
    KeysDiffer(c, tie.config.param, c, tie.config.param);
    assert tie.scope.WholeDevice? || |tie.Key()| > |tie.config.param|;
  }

  /** The lines for one value tell what they are for. */
  lemma LineTellsSetter(s: Setter, t: Setter, v: Value)
    requires s.channel.Some? == t.channel.Some?
    ensures SetLine(s, v) == SetLine(t, v) <==> s == t
  {
    hide SetLine, AfterSet;
    if SetLine(s, v) == SetLine(t, v) {
      var rest := " " + v.Shown() + " >\n";
      LineParts(s, v);
      LineParts(t, v);
      SameStart("< SET ", AfterSet(s, rest), AfterSet(t, rest));
      AfterSetTells(s, t, rest);
    }
  }

  lemma LineParts(s: Setter, v: Value)
    ensures SetLine(s, v) == "< SET " + AfterSet(s, " " + v.Shown() + " >\n")
  {
    hide Itoa, Value.Shown;
  }

  lemma SameStart(start: string, a: string, b: string)
    requires start + a == start + b
    ensures a == b
  {
    assert a == (start + a)[|start|..] && b == (start + b)[|start|..];
  }

  function AfterSet(s: Setter, rest: string): string {
    (if s.channel.Some? then Itoa(s.channel.value) + " " else "") + s.param + rest
  }

  lemma AfterSetTells(s: Setter, t: Setter, rest: string)
    requires s.channel.Some? == t.channel.Some? && AfterSet(s, rest) == AfterSet(t, rest)
    ensures s == t
  {
    if s.channel.Some? {
      var c, d := s.channel.value, t.channel.value;
      ItoaChars(c);
      ItoaChars(d);
      assert FreeOf(Itoa(c), Only(' ')) && FreeOf(Itoa(d), Only(' '));
      assert AfterSet(s, rest) == Itoa(c) + [' '] + (s.param + rest);
      assert AfterSet(t, rest) == Itoa(d) + [' '] + (t.param + rest);
      SplitAtSeparator(Itoa(c), s.param + rest, Itoa(d), t.param + rest, ' ');
      ItoaInjective(c, d);
    } else {
      assert AfterSet(s, rest) == s.param + rest && AfterSet(t, rest) == t.param + rest;
    }
    SameEnd(s.param, t.param, rest);
  }

  lemma SameEnd(a: string, b: string, rest: string)
    requires a + rest == b + rest
    ensures a == b
  {
    assert |a| == |b|;
    assert a == (a + rest)[..|a|] && b == (b + rest)[..|b|];
  }

  /** The report "REP 2 1_FREQUENCY" of a QLX-D reaches the worker for channel 1's frequency, which would send
      for channel 1. */
  lemma KeySpelledOut(device: int) returns (tie: Tie)
    ensures tie in AllTies(QLXD, device, 1) && tie.Setter() == Some(Setter(Some(1), "FREQUENCY"))
    ensures Hears(QLXD, tie, 2, "1_FREQUENCY") && tie.Setter() != Some(Named(tie, 2, "1_FREQUENCY"))
  {
    hide NoBlanks, AllTies, AllChannelTies;
    tie := ChannelTies(QLXD, device, 1)[1];
    FirstChannelTies(device, tie);
    NoBlanksSame("1_FREQUENCY");
    assert Itoa(1) == "1";
  }

  lemma FirstChannelTies(device: int, tie: Tie)
    requires tie in ChannelTies(QLXD, device, 1)
    ensures tie in AllTies(QLXD, device, 1)
  {
    hide Ties;
    assert tie in AllChannelTies(QLXD, device, 1);
    assert AllTies(QLXD, device, 1) == AllTies(QLXD, device, 0) + AllChannelTies(QLXD, device, 1);
  }
}
