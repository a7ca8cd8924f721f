/** Which parameters of which receivers have a worker, which of them can be set, and what is sent then, in terms
    of the models' and parameters' names. */
module Wiring {
  import opened Text
  import opened BlockGraph
  import opened ShureModels
  import opened DeviceLayout
  import opened Routing
  import opened Nca

  // ---------------------------------------------------------------- the tables, by family

  predicate Has(configs: seq<WorkerConfig>, param: string) {
    exists k :: 0 <= k < |configs| && configs[k].param == param
  }

  predicate HasSettable(configs: seq<WorkerConfig>, param: string) {
    exists k :: 0 <= k < |configs| && configs[k].param == param && !configs[k].readOnly
  }

  /** The settable parameters of a channel: gain and frequency in every family, mute in all but QLX-D, the name
      under one of two names, the group under one of two. */
  lemma SettableIff(family: Family, param: string)
    ensures HasSettable(PerChannel(family), param) <==>
              || param == "AUDIO_GAIN" || param == "FREQUENCY"
              || (param == "AUDIO_MUTE" && family != QLXD)
              || param == (if family == AxientDigital then "CH_NAME" else "CHAN_NAME")
              || param == (if family == SLXD || family == SLXDPlus then "GROUP_CHANNEL" else "GROUP_CHAN")
  {
    if family == QLXD {
      SettableSum(ChannelWorkersConfig(QLXD), GAIN_WORKERS + BATTERY_WORKERS + TRANSMITTER_WORKERS, param);
      SettableSum(GAIN_WORKERS + BATTERY_WORKERS, TRANSMITTER_WORKERS, param);
      SettableSum(GAIN_WORKERS, BATTERY_WORKERS, param);
      QlxdSettable(param);
    } else {
      PlainParams(family);
      match family
      case AxientDigital => CommonSettable("CH_NAME", "GROUP_CHAN", "TX_ALL", "BATT_ALL", param);
      case ULXD => CommonSettable("CHAN_NAME", "GROUP_CHAN", "TX_TYPE", "TX_BATT_MINS", param);
      case SLXD => CommonSettable("CHAN_NAME", "GROUP_CHANNEL", "TX_MODEL", "TX_BATT_MINS", param);
      case SLXDPlus => CommonSettable("CHAN_NAME", "GROUP_CHANNEL", "LINK_TX_MODEL", "TX_BATT_MINS", param);
    }
  }

  lemma CommonSettable(name: string, group: string, transmitter: string, battery: string, param: string)
    ensures HasSettable(Common(name, group, transmitter, battery), param) <==>
              param in [name, group] || param in ["AUDIO_GAIN", "AUDIO_MUTE", "FREQUENCY"]
    ensures Has(Common(name, group, transmitter, battery), param) <==>
              param in [name, group, transmitter, battery] || param in ["AUDIO_GAIN", "AUDIO_MUTE", "FREQUENCY"]
  {
    var configs := Common(name, group, transmitter, battery);
    assert configs[0].param == "AUDIO_GAIN" && configs[1].param == "AUDIO_MUTE" && configs[2].param == name;
    assert configs[3].param == "FREQUENCY" && configs[4].param == group;
    assert configs[5].param == transmitter && configs[6].param == battery;
  }

  lemma SettableSum(a: seq<WorkerConfig>, b: seq<WorkerConfig>, param: string)
    ensures HasSettable(a + b, param) <==> HasSettable(a, param) || HasSettable(b, param)
    ensures Has(a + b, param) <==> Has(a, param) || Has(b, param)
  {
    var all := a + b;
    assert forall k :: 0 <= k < |all| ==> all[k] == if k < |a| then a[k] else b[k - |a|];
    assert forall k :: 0 <= k < |a| ==> a[k] == all[k];
    assert forall k :: 0 <= k < |b| ==> b[k] == all[|a| + k];
  }

  lemma QlxdSettable(param: string)
    ensures HasSettable(ChannelWorkersConfig(QLXD), param) <==> param in ["CHAN_NAME", "FREQUENCY", "GROUP_CHAN"]
    ensures HasSettable(GAIN_WORKERS, param) <==> param == "AUDIO_GAIN"
    ensures !HasSettable(BATTERY_WORKERS, param) && !HasSettable(TRANSMITTER_WORKERS, param)
    ensures Has(ChannelWorkersConfig(QLXD), param) <==>
              param in ["CHAN_NAME", "FREQUENCY", "GROUP_CHAN", "ENCRYPTION_WARNING"]
  {
    var configs := ChannelWorkersConfig(QLXD);
    assert configs[0].param == "CHAN_NAME" && configs[1].param == "FREQUENCY" && configs[2].param == "GROUP_CHAN";
    assert configs[3].param == "ENCRYPTION_WARNING" && GAIN_WORKERS[0].param == "AUDIO_GAIN";
  }

  /** The classes of the workers are numbered through, table by table: from 10 in a channel, from 19 in a device
      block, from 23 for the battery and from 31 for the transmitter; of a QLX-D's own channel workers three have
      their number from the common table. */
  lemma ClassNumbers(family: Family, k: nat)
    ensures family != QLXD && k < |ChannelWorkersConfig(family)| ==>
              ChannelWorkersConfig(family)[k].ClassId() == [1, 2, 1, 10 + k]
    ensures k < |DEVICE_WORKERS| ==> DEVICE_WORKERS[k].ClassId() == [1, 2, 1, 19 + k]
    ensures k < |BATTERY_WORKERS| ==> BATTERY_WORKERS[k].ClassId() == [1, 2, 1, 23 + k]
    ensures k < |TRANSMITTER_WORKERS| ==> TRANSMITTER_WORKERS[k].ClassId() == [1, 2, 1, 31 + k]
    ensures k < 3 ==> ChannelWorkersConfig(QLXD)[k].ClassId() == [1, 2, 1, 12 + k]
    ensures GAIN_WORKERS[0].ClassId() == [1, 2, 1, 10] && ChannelWorkersConfig(QLXD)[3].ClassId() == [1, 2, 1, 40]
  {
  }

  /** Of a QLX-D device block the identifier and the encryption can be set. */
  lemma DeviceSettableIff(param: string)
    ensures HasSettable(DEVICE_WORKERS, param) <==> param == "DEVICE_ID" || param == "ENCRYPTION"
  {
    assert DEVICE_WORKERS[1].param == "DEVICE_ID" && DEVICE_WORKERS[2].param == "ENCRYPTION";
  }

  /** Group and channel of a frequency plan go by two names, one for each half of the families. */
  lemma GroupIff(family: Family)
    ensures Has(PerChannel(family), "GROUP_CHAN") <==> family != SLXD && family != SLXDPlus
    ensures Has(PerChannel(family), "GROUP_CHANNEL") <==> family == SLXD || family == SLXDPlus
  {
    GroupNames();
    if family == QLXD {
      ParamsPlain(QLXD);
      SettableSum(ChannelWorkersConfig(QLXD), GAIN_WORKERS + BATTERY_WORKERS + TRANSMITTER_WORKERS, "GROUP_CHAN");
      SettableSum(ChannelWorkersConfig(QLXD), GAIN_WORKERS + BATTERY_WORKERS + TRANSMITTER_WORKERS, "GROUP_CHANNEL");
      QlxdSettable("GROUP_CHAN");
      QlxdSettable("GROUP_CHANNEL");
      NestedNoGroup();
    } else {
      PlainParams(family);
      match family
      case AxientDigital =>
        CommonSettable("CH_NAME", "GROUP_CHAN", "TX_ALL", "BATT_ALL", "GROUP_CHAN");
        CommonSettable("CH_NAME", "GROUP_CHAN", "TX_ALL", "BATT_ALL", "GROUP_CHANNEL");
      case ULXD =>
        CommonSettable("CHAN_NAME", "GROUP_CHAN", "TX_TYPE", "TX_BATT_MINS", "GROUP_CHAN");
        CommonSettable("CHAN_NAME", "GROUP_CHAN", "TX_TYPE", "TX_BATT_MINS", "GROUP_CHANNEL");
      case SLXD =>
        CommonSettable("CHAN_NAME", "GROUP_CHANNEL", "TX_MODEL", "TX_BATT_MINS", "GROUP_CHAN");
        CommonSettable("CHAN_NAME", "GROUP_CHANNEL", "TX_MODEL", "TX_BATT_MINS", "GROUP_CHANNEL");
      case SLXDPlus =>
        CommonSettable("CHAN_NAME", "GROUP_CHANNEL", "LINK_TX_MODEL", "TX_BATT_MINS", "GROUP_CHAN");
        CommonSettable("CHAN_NAME", "GROUP_CHANNEL", "LINK_TX_MODEL", "TX_BATT_MINS", "GROUP_CHANNEL");
    }
  }

  lemma GroupNames()
    ensures forall p :: p in ["AUDIO_GAIN", "AUDIO_MUTE", "FREQUENCY", "CH_NAME", "CHAN_NAME", "TX_ALL", "TX_TYPE",
                              "TX_MODEL", "LINK_TX_MODEL", "BATT_ALL", "TX_BATT_MINS", "ENCRYPTION_WARNING"] ==>
              p != "GROUP_CHAN" && p != "GROUP_CHANNEL"
    ensures "GROUP_CHAN" != "GROUP_CHANNEL"
  {
    assert |"GROUP_CHAN"| == 10 && |"GROUP_CHANNEL"| == 13;
    assert "GROUP_CHAN"[0] == 'G' && "GROUP_CHANNEL"[0] == 'G';
  }

  lemma NestedNoGroup()
    ensures !Has(GAIN_WORKERS + BATTERY_WORKERS + TRANSMITTER_WORKERS, "GROUP_CHAN")
    ensures !Has(GAIN_WORKERS + BATTERY_WORKERS + TRANSMITTER_WORKERS, "GROUP_CHANNEL")
  {
    forall p | p in ["GROUP_CHAN", "GROUP_CHANNEL"]
      ensures !Has(GAIN_WORKERS + BATTERY_WORKERS + TRANSMITTER_WORKERS, p)
    {
      SettableSum(GAIN_WORKERS + BATTERY_WORKERS, TRANSMITTER_WORKERS, p);
      SettableSum(GAIN_WORKERS, BATTERY_WORKERS, p);
      FirstLetters();
      forall k | 0 <= k < |BATTERY_WORKERS|
        ensures BATTERY_WORKERS[k].param != p
      {
        assert Params(BATTERY_WORKERS)[k] == BATTERY_WORKERS[k].param;
      }
      forall k | 0 <= k < |TRANSMITTER_WORKERS|
        ensures TRANSMITTER_WORKERS[k].param != p
      {
        assert Params(TRANSMITTER_WORKERS)[k] == TRANSMITTER_WORKERS[k].param;
      }
    }
  }

  // ---------------------------------------------------------------- keys and reports

  lemma {:induction false} LevelIn(family: Family, device: int, n: nat, c: nat, tie: Tie)
    requires c <= n && tie in LevelTies(family, device, c)
    ensures tie in AllTies(family, device, n)
  {
    hide AllChannelTies, DeviceTies;
    if c < n {
      LevelIn(family, device, n - 1, c, tie);
    }
  }

  /** The routing table of a receiver has a key for a parameter of a channel exactly when the receiver has that
      channel and its family's channels have a worker for the parameter. */
  lemma ChannelKeyIff(family: Family, device: int, n: nat, c: int, param: string)
    ensures Itoa(c) + "_" + param in Routes(AllTies(family, device, n)) <==>
              1 <= c <= n && Has(PerChannel(family), param)
  {
    hide AllTies, LevelTies, PerChannel, Plain, Tie.Key, Routes;
    var key := Itoa(c) + "_" + param;
    TableExact(family, device, n);
    if key in Routes(AllTies(family, device, n)) {
      var tie :| tie in AllTies(family, device, n) && tie.Key() == key;
      var d, k := TieFacts(family, device, n, tie);
      KeysDiffer(c, param, d, tie.config.param);
    }
    if 1 <= c <= n && Has(PerChannel(family), param) {
      var k :| 0 <= k < |PerChannel(family)| && PerChannel(family)[k].param == param;
      LevelPlaces(family, device, c);
      var tie := LevelTies(family, device, c)[k];
      LevelIn(family, device, n, c, tie);
      var d, l := TieFacts(family, device, n, tie);
      assert tie.Key() == key;
    }
  }

  /** Every worker hears the report of its own parameter on its own channel; one of the whole device while the
      receiver is taken for a QLX-D, on any. */
  lemma OwnReportHeard(built: Family, family: Family, device: int, n: nat, tie: Tie, channel: int)
    requires tie in AllTies(built, device, n)
    requires if tie.scope.WholeDevice? then family == QLXD else tie.scope.channel == channel
    ensures Hears(family, tie, channel, tie.config.param)
  {
    hide AllTies, LevelTies, LevelConfigs, NoBlanks, PerChannel;
    var c, k := TieFacts(built, device, n, tie);
    NoBlanksSame(tie.config.param);
  }

  /** Taking the blanks out goes piece by piece, so it is known from single characters. */
  lemma {:induction false} NoBlanksSum(a: string, b: string)
    ensures NoBlanks(a + b) == NoBlanks(a) + NoBlanks(b)
    ensures NoBlanks(" ") == ""
  {
    if a == "" {
      assert a + b == b;
    } else {
      assert (a + b)[1..] == a[1..] + b;
      NoBlanksSum(a[1..], b);
    }
  }

  /** The words of a worker's label: the channel and the nested block it is in, if any, and its name. */
  lemma LabelWords(scope: Scope, name: string)
    requires IsWord(name) && (scope.Nested? ==> IsWord(scope.block))
    ensures Fields(scope.Label(name)) ==
            (if scope.WholeDevice? then [] else ["Ch" + Itoa(scope.channel)]) +
            (if scope.Nested? then [scope.block] else []) + [name]
  {
    hide Fields, Itoa;
    FieldsOfWord(name, "");
    NoFields();
    assert name + "" == name;
    if !scope.WholeDevice? {
      ItoaChars(scope.channel);
      FieldsCons("Ch" + Itoa(scope.channel), if scope.Nested? then scope.block + " " + name else name);
      if scope.Nested? {
        FieldsCons(scope.block, name);
        assert scope.Label(name) == "Ch" + Itoa(scope.channel) + " " + (scope.block + " " + name);
      }
    }
  }

  // ---------------------------------------------------------------- what a set sends

  lemma {:induction false} FieldsSplit(a: string, b: string)
    ensures Fields(a + " " + b) == Fields(a) + Fields(b)
    decreases |a|
  {
    hide Fields;
    if a == "" {
      assert a + " " + b == [' '] + b;
      FieldsSkipSpace(' ', b);
      NoFields();
    } else if Space.Has(a[0]) {
      assert a == [a[0]] + a[1..] && a + " " + b == [a[0]] + (a[1..] + " " + b);
      FieldsSkipSpace(a[0], a[1..]);
      FieldsSkipSpace(a[0], a[1..] + " " + b);
      FieldsSplit(a[1..], b);
    } else {
      var n := WordLength(a);
      var w, rest := a[..n], a[n..];
      assert a == w + rest && a + " " + b == w + (rest + " " + b);
      assert IsWord(w) && (rest == "" || rest[0] == a[n]);
      FieldsOfWord(w, rest);
      FieldsOfWord(w, rest + " " + b);
      FieldsSplit(rest, b);
      assert [w] + Fields(rest) + Fields(b) == [w] + (Fields(rest) + Fields(b));
    }
  }

  lemma NoFields()
    ensures Fields("") == []
  {
  }

  /** The words of the line a set sends: the frame, SET, the channel if it is for one, the parameter, and the
      words of the value. */
  lemma LineWords(s: Setter, v: Value)
    requires IsWord(s.param)
    ensures Fields(SetLine(s, v)) ==
            ["<", "SET"] + (if s.channel.Some? then [Itoa(s.channel.value)] else []) + [s.param] +
            Fields(v.Shown()) + [">"]
  {
    hide Fields, Itoa, Value.Shown, SetLine, IsWord;
    var tail := v.Shown() + " " + ">\n";
    var rest := s.param + " " + tail;
    var body := if s.channel.Some? then Itoa(s.channel.value) + " " + rest else rest;
    LineInPieces(s, v);
    FrameWords();
    FieldsCons("<", "SET" + " " + body);
    FieldsCons("SET", body);
    FieldsCons(s.param, tail);
    if s.channel.Some? {
      ItoaChars(s.channel.value);
      FieldsCons(Itoa(s.channel.value), rest);
    }
    FieldsSplit(v.Shown(), ">\n");
    LastWord();
  }

  lemma FrameWords()
    ensures IsWord("<") && IsWord("SET")
  {
  }

  lemma LineInPieces(s: Setter, v: Value)
    ensures var rest := s.param + " " + (v.Shown() + " " + ">\n");
            SetLine(s, v) ==
              "<" + " " + ("SET" + " " + if s.channel.Some? then Itoa(s.channel.value) + " " + rest else rest)
  {
    hide Itoa, Value.Shown;
  }

  lemma LastWord()
    ensures Fields(">\n") == [">"]
  {
    FieldsOfWord(">", "\n");
    assert ">" + "\n" == ">\n";
    FieldsSkipSpace('\n', "");
    assert ['\n'] + "" == "\n";
  }

  /** How values are shown: text as it is, numbers so that they read back, switches by these two words. */
  lemma ShownMeans(v: Value)
    ensures v.Str? ==> v.Shown() == v.text
    ensures v.Num? && MIN_INT <= v.number <= MAX_INT ==> Atoi(v.Shown()) == Some(v.number)
    ensures v.Flag? ==> v.Shown() == if v.on then "true" else "false"
    ensures v.Null? ==> v.Shown() == "<nil>"
  {
    if v.Num? && MIN_INT <= v.number <= MAX_INT {
      AtoiItoa(v.number);
    }
  }
}
