/** What the gateway reads out of a receiver's model name: its family, its channels, and the parameters it
    gives control objects to. */
module ShureModels {
  import opened Text

  datatype Family = AxientDigital | ULXD | QLXD | SLXD | SLXDPlus

  function DetectModelFamily(model: string): Family {
    var upper := ToUpper(model);
    if HasPrefix(upper, "AD") then AxientDigital
    else if HasPrefix(upper, "ULXD") then ULXD
    else if HasPrefix(upper, "QLXD") then QLXD
    else if Index(upper, "+") >= 0 || Index(upper, "SLXD+") >= 0 then SLXDPlus
    else if HasPrefix(upper, "SLXD") then SLXD
    else AxientDigital
  }

  /** The channel count of a model: by name where the name is known, else the family's largest. */
  function MaxChannelsFromModel(model: string): (n: nat)
    ensures 1 <= n <= 4
    ensures DetectModelFamily(model) == QLXD ==> n == 1
  {
    var upper := ToUpper(model);
    if HasPrefix(upper, "AD4Q") then 4
    else if HasPrefix(upper, "AD4D") then 2
    else if HasPrefix(upper, "ULXD4Q") then 4
    else if HasPrefix(upper, "ULXD4D") then 2
    else if HasPrefix(upper, "ULXD4") then 1
    else if HasPrefix(upper, "SLXD4Q+") then 4
    else if HasPrefix(upper, "SLXD4D+") then 2
    else if HasPrefix(upper, "SLXD4D") then 2
    else if HasPrefix(upper, "SLXD4+") || HasPrefix(upper, "SLXD4") then 1
    else if HasPrefix(upper, "QLXD") then 1
    else match DetectModelFamily(model)
      case AxientDigital => 4
      case ULXD => 4
      case SLXD => 2
      case SLXDPlus => 2
      case QLXD => 1
  }

  /** A model name the channel count is known for. */
  datatype NamedModel = NamedModel(name: string, channels: nat)

  const NAMED_MODELS: seq<NamedModel> :=
    [NamedModel("AD4Q", 4), NamedModel("AD4D", 2), NamedModel("ULXD4Q", 4), NamedModel("ULXD4D", 2),
     NamedModel("ULXD4", 1), NamedModel("SLXD4Q+", 4), NamedModel("SLXD4D+", 2), NamedModel("SLXD4D", 2),
     NamedModel("SLXD4+", 1), NamedModel("SLXD4", 1), NamedModel("QLXD", 1)]

  function FamilyChannels(family: Family): nat {
    match family
    case AxientDigital => 4
    case ULXD => 4
    case SLXD => 2
    case SLXDPlus => 2
    case QLXD => 1
  }

  /** The known name at a place starts the model's, and no longer one does. */
  predicate LongestNamed(upper: string, k: nat)
    requires k < |NAMED_MODELS|
  {
    HasPrefix(upper, NAMED_MODELS[k].name) &&
    forall j :: 0 <= j < |NAMED_MODELS| && HasPrefix(upper, NAMED_MODELS[j].name) ==>
                  |NAMED_MODELS[j].name| <= |NAMED_MODELS[k].name|
  }

  /** The order of the tests: the first name that fits decides. */
  lemma FirstNameDecides(model: string, k: nat)
    requires k < |NAMED_MODELS| && HasPrefix(ToUpper(model), NAMED_MODELS[k].name)
    requires forall j :: 0 <= j < k ==> !HasPrefix(ToUpper(model), NAMED_MODELS[j].name)
    ensures MaxChannelsFromModel(model) == NAMED_MODELS[k].channels
  {
    hide DetectModelFamily, ToUpper, HasPrefix;
    var upper := ToUpper(model);
    assert forall j :: 0 <= j < k ==> !HasPrefix(upper, NAMED_MODELS[j].name);
    assert k > 0 ==> !HasPrefix(upper, NAMED_MODELS[0].name);
    assert k > 1 ==> !HasPrefix(upper, NAMED_MODELS[1].name);
    assert k > 2 ==> !HasPrefix(upper, NAMED_MODELS[2].name);
    assert k > 3 ==> !HasPrefix(upper, NAMED_MODELS[3].name);
    assert k > 4 ==> !HasPrefix(upper, NAMED_MODELS[4].name);
    assert k > 5 ==> !HasPrefix(upper, NAMED_MODELS[5].name);
    assert k > 6 ==> !HasPrefix(upper, NAMED_MODELS[6].name);
    assert k > 7 ==> !HasPrefix(upper, NAMED_MODELS[7].name);
    assert k > 8 ==> !HasPrefix(upper, NAMED_MODELS[8].name);
    assert k > 9 ==> !HasPrefix(upper, NAMED_MODELS[9].name);
  }

  /** Of two names that start one text the shorter starts the longer. */
  lemma PrefixesNest(text: string, a: string, b: string)
    requires HasPrefix(text, a) && HasPrefix(text, b) && |a| <= |b|
    ensures HasPrefix(b, a)
  {
    assert a == text[..|a|] && b == text[..|b|];
  }

  /** No name in the list starts a later one. */
  lemma LongerFirst(j: nat, k: nat)
    requires j < k < |NAMED_MODELS|
    ensures !HasPrefix(NAMED_MODELS[k].name, NAMED_MODELS[j].name)
  {
    var a, b := NAMED_MODELS[j].name, NAMED_MODELS[k].name;
    assert |a| <= |b| ==> a[0] != b[0] || a[3] != b[3] || (|a| > 5 && a[5] != b[5]);
  }

  /** Whatever the order of the tests, the longest known name that starts a model's decides, and the family where
      none does. */
  lemma LongestNameDecides(model: string, k: nat)
    requires k < |NAMED_MODELS| && LongestNamed(ToUpper(model), k)
    ensures MaxChannelsFromModel(model) == NAMED_MODELS[k].channels
  {
    hide HasPrefix, ToUpper, MaxChannelsFromModel;
    forall j | 0 <= j < k
      ensures !HasPrefix(ToUpper(model), NAMED_MODELS[j].name)
    {
      if HasPrefix(ToUpper(model), NAMED_MODELS[j].name) {
        PrefixesNest(ToUpper(model), NAMED_MODELS[j].name, NAMED_MODELS[k].name);
        LongerFirst(j, k);
      }
    }
    FirstNameDecides(model, k);
  }

  lemma FamilyDecides(model: string)
    requires forall k :: 0 <= k < |NAMED_MODELS| ==> !HasPrefix(ToUpper(model), NAMED_MODELS[k].name)
    ensures MaxChannelsFromModel(model) == FamilyChannels(DetectModelFamily(model))
  {
    hide DetectModelFamily, ToUpper, HasPrefix;
    var upper := ToUpper(model);
    assert forall k :: 0 <= k < |NAMED_MODELS| ==> !HasPrefix(upper, NAMED_MODELS[k].name);
    assert !HasPrefix(upper, NAMED_MODELS[0].name) && !HasPrefix(upper, NAMED_MODELS[1].name);
    assert !HasPrefix(upper, NAMED_MODELS[2].name);
    assert !HasPrefix(upper, NAMED_MODELS[3].name) && !HasPrefix(upper, NAMED_MODELS[4].name);
    assert !HasPrefix(upper, NAMED_MODELS[5].name);
    assert !HasPrefix(upper, NAMED_MODELS[6].name) && !HasPrefix(upper, NAMED_MODELS[7].name);
    assert !HasPrefix(upper, NAMED_MODELS[8].name);
    assert !HasPrefix(upper, NAMED_MODELS[9].name) && !HasPrefix(upper, NAMED_MODELS[10].name);
  }

  /** Which models are of which family, whatever the order of the tests: the letters a model starts with, in
      either case, and whether there is a plus in it. */
  lemma FamilyIff(model: string)
    ensures DetectModelFamily(model) == ULXD <==> StartsUpToCase(model, "ULXD")
    ensures DetectModelFamily(model) == QLXD <==> StartsUpToCase(model, "QLXD")
    ensures DetectModelFamily(model) == SLXDPlus <==>
              '+' in model && !StartsUpToCase(model, "AD") && !StartsUpToCase(model, "ULXD") &&
              !StartsUpToCase(model, "QLXD")
    ensures DetectModelFamily(model) == SLXD <==> StartsUpToCase(model, "SLXD") && '+' !in model
    ensures DetectModelFamily(model) == AxientDigital <==>
              StartsUpToCase(model, "AD") ||
              ('+' !in model && !StartsUpToCase(model, "ULXD") && !StartsUpToCase(model, "QLXD") &&
               !StartsUpToCase(model, "SLXD"))
  {
    hide ToUpper, UpToCase, StartsUpToCase;
    FamilyNames();
    UpperStarts(model, "AD");
    UpperStarts(model, "ULXD");
    UpperStarts(model, "QLXD");
    UpperStarts(model, "SLXD");
    PlusStays(model);
    FamilyTests(ToUpper(model));
  }

  lemma FamilyNames()
    ensures ToUpper("AD") == "AD" && ToUpper("ULXD") == "ULXD"
    ensures ToUpper("QLXD") == "QLXD" && ToUpper("SLXD") == "SLXD"
  {
  }

  /** Upper case neither makes nor takes a plus, and a test for one in a longer text adds nothing. */
  lemma PlusStays(model: string)
    ensures '+' in model <==> Index(ToUpper(model), "+") >= 0
    ensures Index(ToUpper(model), "SLXD+") >= 0 ==> '+' in model
  {
    var upper := ToUpper(model);
    forall k | 0 <= k < |model|
      ensures upper[k] == '+' <==> model[k] == '+'
      ensures upper[k] == '+' <==> OccursAt(upper, "+", k)
    {
      assert OccursAt(upper, "+", k) <==> upper[k..k + 1] == "+";
      assert upper[k..k + 1] == [upper[k]];
    }
    var at := Index(upper, "+");
    if at >= 0 {
      assert upper[at] == '+' by {
        assert OccursAt(upper, "+", at);
      }
    }
    var longer := Index(upper, "SLXD+");
    if longer >= 0 {
      assert upper[longer..longer + 5][4] == "SLXD+"[4];
    }
  }

  /** The four beginnings exclude each other. */
  lemma FamilyTests(upper: string)
    ensures HasPrefix(upper, "AD") ==>
              !HasPrefix(upper, "ULXD") && !HasPrefix(upper, "QLXD") && !HasPrefix(upper, "SLXD")
    ensures HasPrefix(upper, "ULXD") ==> !HasPrefix(upper, "QLXD") && !HasPrefix(upper, "SLXD")
    ensures HasPrefix(upper, "QLXD") ==> !HasPrefix(upper, "SLXD")
  {
    assert HasPrefix(upper, "AD") ==> upper[0] == 'A';
    assert HasPrefix(upper, "ULXD") ==> upper[0] == 'U';
    assert HasPrefix(upper, "QLXD") ==> upper[0] == 'Q';
    assert HasPrefix(upper, "SLXD") ==> upper[0] == 'S';
  }

  /** A parameter that gets a worker. */
  datatype WorkerConfig = WorkerConfig(name: string, param: string, classNumber: int, readOnly: bool) {
    function ClassId(): seq<int> {
      [1, 2, 1, classNumber]
    }
  }

  function Common(nameParam: string, groupParam: string, transmitterParam: string,
                  batteryParam: string): seq<WorkerConfig> {
    [WorkerConfig("Gain", "AUDIO_GAIN", 10, false),
     WorkerConfig("Mute", "AUDIO_MUTE", 11, false),
     WorkerConfig("ChannelName", nameParam, 12, false),
     WorkerConfig("Frequency", "FREQUENCY", 13, false),
     WorkerConfig("GroupChannel", groupParam, 14, false),
     WorkerConfig("Transmitter", transmitterParam, 15, true),
     WorkerConfig("Battery", batteryParam, 16, true)]
  }

  /** The parameters with a worker in each channel block. */
  function ChannelWorkersConfig(family: Family): seq<WorkerConfig> {
    match family
    case AxientDigital => Common("CH_NAME", "GROUP_CHAN", "TX_ALL", "BATT_ALL")
    case ULXD => Common("CHAN_NAME", "GROUP_CHAN", "TX_TYPE", "TX_BATT_MINS")
    case SLXD => Common("CHAN_NAME", "GROUP_CHANNEL", "TX_MODEL", "TX_BATT_MINS")
    case SLXDPlus => Common("CHAN_NAME", "GROUP_CHANNEL", "LINK_TX_MODEL", "TX_BATT_MINS")
    case QLXD =>
      [WorkerConfig("ChannelName", "CHAN_NAME", 12, false),
       WorkerConfig("Frequency", "FREQUENCY", 13, false),
       WorkerConfig("GroupChannel", "GROUP_CHAN", 14, false),
       WorkerConfig("EncryptionWarning", "ENCRYPTION_WARNING", 40, true)]
  }

  /** The parameters with a worker in the device block of a QLX-D receiver. */
  const DEVICE_WORKERS: seq<WorkerConfig> :=
    [WorkerConfig("FwVersion", "FW_VER", 19, true),
     WorkerConfig("DeviceID", "DEVICE_ID", 20, false),
     WorkerConfig("Encryption", "ENCRYPTION", 21, false),
     WorkerConfig("MacAddress", "MAC_ADDR", 22, true)]

  /** The nested blocks of a QLX-D channel. */
  const GAIN_WORKERS: seq<WorkerConfig> := [WorkerConfig("GainWorker", "AUDIO_GAIN", 10, false)]

  const BATTERY_WORKERS: seq<WorkerConfig> :=
    [WorkerConfig("BattCycle", "BATT_CYCLE", 23, true),
     WorkerConfig("BattRunTime", "BATT_RUN_TIME", 24, true),
     WorkerConfig("BattTempF", "BATT_TEMP_F", 25, true),
     WorkerConfig("BattTempC", "BATT_TEMP_C", 26, true),
     WorkerConfig("BattType", "BATT_TYPE", 27, true),
     WorkerConfig("BattCharge", "BATT_CHARGE", 28, true),
     WorkerConfig("BattHealth", "BATT_HEALTH", 29, true),
     WorkerConfig("BattBars", "BATT_BARS", 30, true)]

  const TRANSMITTER_WORKERS: seq<WorkerConfig> :=
    [WorkerConfig("TxType", "TX_TYPE", 31, true),
     WorkerConfig("TxOffset", "TX_OFFSET", 32, true),
     WorkerConfig("TxRFPower", "TX_RF_PWR", 33, true),
     WorkerConfig("TxPwrLock", "TX_PWR_LOCK", 34, true),
     WorkerConfig("TxMenuLock", "TX_MENU_LOCK", 35, true),
     WorkerConfig("TxDeviceID", "TX_DEVICE_ID", 36, true),
     WorkerConfig("TxMuteStatus", "TX_MUTE_STATUS", 37, true),
     WorkerConfig("TxMuteButtonStatus", "TX_MUTE_BUTTON_STATUS", 38, true),
     WorkerConfig("TxPowerSource", "TX_POWER_SOURCE", 39, true)]

  /** All parameters with a worker in a channel, nested blocks included. */
  function PerChannel(family: Family): seq<WorkerConfig> {
    ChannelWorkersConfig(family) + (if family.QLXD? then GAIN_WORKERS + BATTERY_WORKERS + TRANSMITTER_WORKERS else [])
  }

  // ---------------------------------------------------------------- no name twice

  /** A number that tells the names in the tables apart. */
  function Mark(s: string): int {
    if s == "" then 0 else 49 * |s| + 7 * (s[0] as int) + (s[|s| - 1] as int)
  }

  predicate Marked(names: seq<string>, marks: seq<int>) {
    |names| == |marks| && forall k :: 0 <= k < |names| ==> Mark(names[k]) == marks[k]
  }

  predicate Distinct<T(==)>(s: seq<T>) {
    forall i, j :: 0 <= i < |s| && 0 <= j < |s| && s[i] == s[j] ==> i == j
  }

  lemma MarkedDistinct(names: seq<string>, marks: seq<int>)
    requires Marked(names, marks) && Distinct(marks)
    ensures Distinct(names)
  {
  }

  function Params(configs: seq<WorkerConfig>): seq<string> {
    seq(|configs|, k requires 0 <= k < |configs| => configs[k].param)
  }

  function Names(configs: seq<WorkerConfig>): seq<string> {
    seq(|configs|, k requires 0 <= k < |configs| => configs[k].name)
  }

  lemma CommonMarks(name: string, group: string, transmitter: string, battery: string)
    ensures Marked(Names(Common(name, group, transmitter, battery)), [803, 836, 1109, 1052, 1193, 1241, 926])
    ensures Marked(Params(Common(name, group, transmitter, battery)),
                   [1023, 1014, Mark(name), 1020, Mark(group), Mark(transmitter), Mark(battery)])
  {
  }

  lemma QlxdMarks()
    ensures Marked(Names(ChannelWorkersConfig(QLXD)), [1109, 1052, 1193, 1419])
    ensures Marked(Params(ChannelWorkersConfig(QLXD) + GAIN_WORKERS), [979, 1020, 1065, 1436, 1023])
  {
  }

  lemma NameMarks()
    ensures Mark("CH_NAME") == 881 && Mark("CHAN_NAME") == 979
    ensures Mark("GROUP_CHAN") == 1065 && Mark("GROUP_CHANNEL") == 1210
    ensures Mark("TX_ALL") == 958 && Mark("TX_TYPE") == 1000
    ensures Mark("TX_MODEL") == 1056 && Mark("LINK_TX_MODEL") == 1245
    ensures Mark("BATT_ALL") == 930 && Mark("TX_BATT_MINS") == 1259
  {
  }

  predicate Apart4(a: int, b: int, c: int, d: int) {
    a != b && a != c && a != d && b != c && b != d && c != d
  }

  predicate NoneTaken(mark: int) {
    mark != 1023 && mark != 1014 && mark != 1020
  }

  lemma CommonDistinct(name: string, group: string, transmitter: string, battery: string)
    requires Apart4(Mark(name), Mark(group), Mark(transmitter), Mark(battery))
    requires NoneTaken(Mark(name)) && NoneTaken(Mark(group)) && NoneTaken(Mark(transmitter)) && NoneTaken(Mark(battery))
    ensures Distinct(Params(Common(name, group, transmitter, battery)))
    ensures Distinct(Names(Common(name, group, transmitter, battery)))
  {
    hide Mark, Common;
    CommonMarks(name, group, transmitter, battery);
    MarkedDistinct(Params(Common(name, group, transmitter, battery)),
                   [1023, 1014, Mark(name), 1020, Mark(group), Mark(transmitter), Mark(battery)]);
    MarkedDistinct(Names(Common(name, group, transmitter, battery)), [803, 836, 1109, 1052, 1193, 1241, 926]);
  }

  /** All names start with a certain letter, or none does. */
  predicate Start(names: seq<string>, c: char, yes: bool) {
    forall k :: 0 <= k < |names| ==> names[k] != "" && (names[k][0] == c <==> yes)
  }

  lemma DistinctSum(a: seq<string>, b: seq<string>, c: char)
    requires Distinct(a) && Distinct(b) && Start(a, c, false) && Start(b, c, true)
    ensures Distinct(a + b)
  {
    forall i, j | 0 <= i < |a + b| && 0 <= j < |a + b| && (a + b)[i] == (a + b)[j]
      ensures i == j
    {
      if i >= |a| { assert (a + b)[i] == b[i - |a|]; }
      if j >= |a| { assert (a + b)[j] == b[j - |a|]; }
    }
  }

  lemma FirstLetters()
    ensures Start(Params(ChannelWorkersConfig(QLXD) + GAIN_WORKERS), 'B', false)
    ensures Start(Params(ChannelWorkersConfig(QLXD) + GAIN_WORKERS), 'T', false)
    ensures Start(Params(BATTERY_WORKERS), 'B', true) && Start(Params(BATTERY_WORKERS), 'T', false)
    ensures Start(Params(TRANSMITTER_WORKERS), 'T', true)
  {
  }

  lemma QlxdDistinct()
    ensures Distinct(Params(PerChannel(QLXD))) && Distinct(Names(ChannelWorkersConfig(QLXD)))
  {
    hide Mark, Distinct, Start;
    var a, b, t := ChannelWorkersConfig(QLXD) + GAIN_WORKERS, BATTERY_WORKERS, TRANSMITTER_WORKERS;
    TableDistinct();
    FirstLetters();
    DistinctSum(Params(a), Params(b), 'B');
    assert Params(a + b) == Params(a) + Params(b);
    BothStart(Params(a), Params(b), 'T');
    DistinctSum(Params(a + b), Params(t), 'T');
    assert Params(a + b + t) == Params(a + b) + Params(t);
    assert PerChannel(QLXD) == a + b + t;
  }

  lemma BothStart(a: seq<string>, b: seq<string>, c: char)
    requires Start(a, c, false) && Start(b, c, false)
    ensures Start(a + b, c, false)
  {
  }

  lemma TableDistinct()
    ensures Distinct(Params(ChannelWorkersConfig(QLXD) + GAIN_WORKERS)) && Distinct(Names(ChannelWorkersConfig(QLXD)))
    ensures Distinct(Params(BATTERY_WORKERS)) && Distinct(Names(BATTERY_WORKERS))
    ensures Distinct(Params(TRANSMITTER_WORKERS)) && Distinct(Names(TRANSMITTER_WORKERS))
    ensures Distinct(Params(DEVICE_WORKERS)) && Distinct(Names(DEVICE_WORKERS))
  {
    hide Mark, Params, Names;
    QlxdMarks();
    BatteryMarks();
    TransmitterMarks();
    DeviceMarks();
  }

  lemma PlainParams(family: Family)
    requires !family.QLXD?
    ensures PerChannel(family) == ChannelWorkersConfig(family)
  {
  }

  /** Within one channel no two parameters share a name, nested blocks included, and no two workers of the
      channel block share a role. */
  lemma ChannelDistinct(family: Family)
    ensures Distinct(Params(PerChannel(family))) && Distinct(Names(ChannelWorkersConfig(family)))
  {
    hide Mark, Common, PerChannel, Params, Names, Distinct;
    NameMarks();
    if family.QLXD? {
      QlxdDistinct();
    } else {
      PlainParams(family);
      match family
      case AxientDigital => CommonDistinct("CH_NAME", "GROUP_CHAN", "TX_ALL", "BATT_ALL");
      case ULXD => CommonDistinct("CHAN_NAME", "GROUP_CHAN", "TX_TYPE", "TX_BATT_MINS");
      case SLXD => CommonDistinct("CHAN_NAME", "GROUP_CHANNEL", "TX_MODEL", "TX_BATT_MINS");
      case SLXDPlus => CommonDistinct("CHAN_NAME", "GROUP_CHANNEL", "LINK_TX_MODEL", "TX_BATT_MINS");
    }
  }

  lemma DeviceMarks()
    ensures Marked(Names(DEVICE_WORKERS), [1041, 936, 1083, 1144])
    ensures Marked(Params(DEVICE_WORKERS), [866, 985, 1051, 1013])
  {
  }

  lemma BatteryMarks()
    ensures Marked(Names(BATTERY_WORKERS), [1004, 1102, 973, 970, 955, 1053, 1056, 969])
    ensures Marked(Params(BATTERY_WORKERS), [1021, 1168, 1071, 1068, 972, 1070, 1073, 986])
  {
  }

  lemma TransmitterMarks()
    ensures Marked(Names(TRANSMITTER_WORKERS), [983, 1096, 1143, 1136, 1185, 1146, 1291, 1585, 1326])
    ensures Marked(Params(TRANSMITTER_WORKERS), [1000, 1113, 1111, 1202, 1251, 1244, 1357, 1700, 1392])
  {
  }

  /** No parameter of a QLX-D device block is also one of a channel. */
  lemma DeviceParamsElsewhere(d: string, p: string)
    requires d in Params(DEVICE_WORKERS) && p in Params(PerChannel(QLXD))
    ensures d != p
  {
    hide Mark, Params;
    var a, b, t := ChannelWorkersConfig(QLXD) + GAIN_WORKERS, BATTERY_WORKERS, TRANSMITTER_WORKERS;
    assert PerChannel(QLXD) == a + b + t;
    ParamsOfSum(a + b, t);
    ParamsOfSum(a, b);
    FirstLetters();
    DeviceFirstLetters();
    QlxdMarks();
    DeviceMarks();
    if p in Params(a) {
      MarksMeet(Params(DEVICE_WORKERS), [866, 985, 1051, 1013], Params(a), [979, 1020, 1065, 1436, 1023], d, p);
    }
  }

  lemma ParamsOfSum(a: seq<WorkerConfig>, b: seq<WorkerConfig>)
    ensures Params(a + b) == Params(a) + Params(b)
  {
  }

  lemma MarksMeet(ds: seq<string>, marks: seq<int>, ps: seq<string>, others: seq<int>, d: string, p: string)
    requires Marked(ds, marks) && Marked(ps, others) && d in ds && p in ps
    requires forall i, j :: 0 <= i < |marks| && 0 <= j < |others| ==> marks[i] != others[j]
    ensures d != p
  {
  }

  lemma DeviceFirstLetters()
    ensures Start(Params(DEVICE_WORKERS), 'B', false) && Start(Params(DEVICE_WORKERS), 'T', false)
  {
  }

  /** A name that starts with neither digit nor sign and has no blank in it. */
  predicate Plain(name: string) {
    name != "" && !Numeric.Has(name[0]) && FreeOf(name, Only(' '))
  }

  predicate AllPlain(names: seq<string>) {
    forall k :: 0 <= k < |names| ==> Plain(names[k])
  }

  lemma PlainLiterals()
    ensures Plain("CH_NAME") && Plain("CHAN_NAME") && Plain("GROUP_CHAN") && Plain("GROUP_CHANNEL")
    ensures Plain("TX_ALL") && Plain("TX_TYPE") && Plain("TX_MODEL") && Plain("LINK_TX_MODEL")
    ensures Plain("BATT_ALL") && Plain("TX_BATT_MINS")
  {
  }

  lemma CommonPlain(name: string, group: string, transmitter: string, battery: string)
    requires Plain(name) && Plain(group) && Plain(transmitter) && Plain(battery)
    ensures AllPlain(Params(Common(name, group, transmitter, battery)))
  {
  }

  lemma QlxdPlain()
    ensures AllPlain(Params(ChannelWorkersConfig(QLXD)))
  {
    hide Plain;
    PlainLiterals();
    PlainOthers();
  }

  lemma PlainOthers()
    ensures Plain("FREQUENCY") && Plain("ENCRYPTION_WARNING")
  {
  }

  lemma GainPlain()
    ensures AllPlain(Params(GAIN_WORKERS))
  {
  }

  lemma NestedPlain()
    ensures AllPlain(Params(BATTERY_WORKERS))
  {
  }

  lemma TransmitterPlain()
    ensures AllPlain(Params(TRANSMITTER_WORKERS))
  {
    hide Plain;
    PlainLiterals();
    PlainShort();
    PlainLong();
  }

  lemma PlainShort()
    ensures Plain("TX_OFFSET") && Plain("TX_RF_PWR") && Plain("TX_PWR_LOCK") && Plain("TX_MENU_LOCK")
  {
  }

  lemma PlainLong()
    ensures Plain("TX_DEVICE_ID") && Plain("TX_MUTE_STATUS")
    ensures Plain("TX_MUTE_BUTTON_STATUS") && Plain("TX_POWER_SOURCE")
  {
  }

  lemma DevicePlain()
    ensures AllPlain(Params(DEVICE_WORKERS))
  {
  }

  /** Every parameter in the tables is a plain name. */
  lemma ParamsPlain(family: Family)
    ensures AllPlain(Params(PerChannel(family))) && AllPlain(Params(DEVICE_WORKERS))
  {
    hide Plain, Common, Params;
    DevicePlain();
    PlainLiterals();
    if family.QLXD? {
      QlxdPlain();
      GainPlain();
      NestedPlain();
      TransmitterPlain();
      ParamsOfSum(ChannelWorkersConfig(QLXD), GAIN_WORKERS + BATTERY_WORKERS + TRANSMITTER_WORKERS);
      ParamsOfSum(GAIN_WORKERS + BATTERY_WORKERS, TRANSMITTER_WORKERS);
      ParamsOfSum(GAIN_WORKERS, BATTERY_WORKERS);
    } else {
      PlainParams(family);
      match family
      case AxientDigital => CommonPlain("CH_NAME", "GROUP_CHAN", "TX_ALL", "BATT_ALL");
      case ULXD => CommonPlain("CHAN_NAME", "GROUP_CHAN", "TX_TYPE", "TX_BATT_MINS");
      case SLXD => CommonPlain("CHAN_NAME", "GROUP_CHANNEL", "TX_MODEL", "TX_BATT_MINS");
      case SLXDPlus => CommonPlain("CHAN_NAME", "GROUP_CHANNEL", "LINK_TX_MODEL", "TX_BATT_MINS");
    }
  }

  // ---------------------------------------------------------------- metered parameters

  const METERED: seq<string> :=
    ["CHAN_QUALITY", "AUDIO_LED_BITMAP", "AUDIO_LEVEL_PEAK", "AUDIO_LEVEL_RMS", "AUDIO_LEVEL", "AUDIO_LVL",
     "ANTENNA_STATUS", "RF_LED_BITMAP_A", "RF_RSSI_A", "RF_LED_BITMAP_B", "RF_RSSI_B", "RF_LED_BITMAP_C",
     "RF_RSSI_C", "RF_LED_BITMAP_D", "RF_RSSI_D", "RF_LED_BITMAP_F1", "RF_RSSI_F1", "RF_LED_BITMAP_F2", "RF_RSSI_F2",
     "AUDIO_SUMMING", "RF_LEVEL", "RF_RSSI", "RX_RF_LVL", "AUDIO_PEAK", "AUDIO_RMS", "TX_BATT_BARS",
     "TX_BATT_CHARGE_PERCENT", "TX_BATT_MINS", "TX_BATT_TEMP_C", "TX_BATT_CYCLE_COUNT", "TX_BATT_HEALTH_PERCENT",
     "RF_ANTENNA"]

  function Underscored(s: string): string {
    seq(|s|, i requires 0 <= i < |s| => if s[i] == ' ' then '_' else s[i])
  }

  /** Whether a parameter is a metered one, spelled with blanks or underscores. */
  predicate IsMeteredParam(param: string) {
    Underscored(param) in METERED
  }

  /** No metered name begins or ends like this. */
  predicate Unmetered(name: string) {
    name != "" && ('D' <= name[0] <= 'G' || name[|name| - 1] == 'E' || name[|name| - 1] == 'N')
  }

  lemma MeteredLetters()
    ensures forall k :: 0 <= k < |METERED| ==> !Unmetered(METERED[k])
  {
  }

  predicate AllSettableUnmetered(configs: seq<WorkerConfig>) {
    forall k :: 0 <= k < |configs| ==> configs[k].readOnly || Unmetered(configs[k].param)
  }

  lemma CommonUnmetered(nameParam: string, groupParam: string, transmitterParam: string, batteryParam: string)
    requires Unmetered(nameParam) && Unmetered(groupParam)
    ensures AllSettableUnmetered(Common(nameParam, groupParam, transmitterParam, batteryParam))
  {
    assert Unmetered("AUDIO_GAIN") && Unmetered("AUDIO_MUTE") && Unmetered("FREQUENCY");
  }

  lemma SettableUnmetered(family: Family)
    ensures AllSettableUnmetered(PerChannel(family)) && AllSettableUnmetered(DEVICE_WORKERS)
  {
    assert Unmetered("CH_NAME") && Unmetered("CHAN_NAME") && Unmetered("GROUP_CHAN") && Unmetered("GROUP_CHANNEL");
    match family
    case AxientDigital => CommonUnmetered("CH_NAME", "GROUP_CHAN", "TX_ALL", "BATT_ALL");
    case ULXD => CommonUnmetered("CHAN_NAME", "GROUP_CHAN", "TX_TYPE", "TX_BATT_MINS");
    case SLXD => CommonUnmetered("CHAN_NAME", "GROUP_CHANNEL", "TX_MODEL", "TX_BATT_MINS");
    case SLXDPlus => CommonUnmetered("CHAN_NAME", "GROUP_CHANNEL", "LINK_TX_MODEL", "TX_BATT_MINS");
    case QLXD =>
  }

  /** The metered ones among the parameters with a worker cannot be set. */
  lemma MeteredReadOnly(family: Family, configs: seq<WorkerConfig>, k: nat)
    requires configs == PerChannel(family) || configs == DEVICE_WORKERS
    requires k < |configs| && IsMeteredParam(configs[k].param)
    ensures configs[k].readOnly
  {
    hide PerChannel, Unmetered, Plain;
    SettableUnmetered(family);
    MeteredLetters();
    ParamsPlain(family);
    var param := configs[k].param;
    assert Params(configs)[k] == param;
    PlainStays(param);
  }

  lemma PlainStays(param: string)
    requires Plain(param)
    ensures Underscored(param) == param
  {
  }
}
