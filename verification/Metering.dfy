/** Which of a receiver's registered event sources its reports feed. */
module Metering {
  import opened Text
  import opened ShureModels
  import opened Registration

  /** What a whole sample's fields say: whether it parses for the family, and which optional antennas it has. */
  datatype Sample = Sample(parses: bool, four: bool, f1: bool, f2: bool)

  /** The parameters a sample of a family carries, in the order its events are broadcast. */
  function Carried(family: Family, sample: Sample): seq<string> {
    match family
    case AxientDigital =>
      ["CHAN_QUALITY", "AUDIO_LED_BITMAP", "AUDIO_LEVEL_PEAK", "AUDIO_LEVEL_RMS", "ANTENNA_STATUS",
       "RF_LED_BITMAP_A", "RF_RSSI_A", "RF_LED_BITMAP_B", "RF_RSSI_B"] +
      (if sample.four then ["RF_LED_BITMAP_C", "RF_RSSI_C", "RF_LED_BITMAP_D", "RF_RSSI_D"] else []) +
      (if sample.f1 then ["RF_LED_BITMAP_F1", "RF_RSSI_F1"] else []) +
      (if sample.f2 then ["RF_LED_BITMAP_F2", "RF_RSSI_F2"] else [])
    case SLXD => ["AUDIO_LEVEL_PEAK", "AUDIO_LEVEL_RMS", "RF_RSSI"]
    case SLXDPlus => ["AUDIO_LEVEL_PEAK", "AUDIO_LEVEL_RMS", "RF_RSSI"]
    case _ => ["ANTENNA_A_ACTIVE", "ANTENNA_B_ACTIVE", "RF_LEVEL", "AUDIO_LEVEL_PEAK", "AUDIO_LEVEL_RMS"]
  }

  predicate Carries(family: Family, sample: Sample, p: string) {
    p in Carried(family, sample)
  }

  /** No sample carries a parameter twice. */
  lemma CarriedOnce(family: Family, sample: Sample)
    ensures Distinct(Carried(family, sample))
  {
    var names := Carried(family, sample);
    match family
    case AxientDigital =>
      AxientOnce(sample);
    case SLXD => MarkedDistinct(names, [1314, 1273, 990]);
    case SLXDPlus => MarkedDistinct(names, [1314, 1273, 990]);
    case _ =>
      assert names[0][8] == 'A' && names[1][8] == 'B' && |names[0]| == |names[1]| == 16 && |names[2]| == 8;
      assert |names[3]| == 16 && |names[4]| == 15 && names[0][1] == 'N' && names[1][1] == 'N' && names[3][1] == 'U';
  }

  lemma AxientOnce(sample: Sample)
    ensures Distinct(Carried(AxientDigital, sample))
  {
    hide Distinct;
    AllSeventeen();
    Optional(["CHAN_QUALITY", "AUDIO_LED_BITMAP", "AUDIO_LEVEL_PEAK", "AUDIO_LEVEL_RMS", "ANTENNA_STATUS",
              "RF_LED_BITMAP_A", "RF_RSSI_A", "RF_LED_BITMAP_B", "RF_RSSI_B"],
             ["RF_LED_BITMAP_C", "RF_RSSI_C", "RF_LED_BITMAP_D", "RF_RSSI_D"],
             ["RF_LED_BITMAP_F1", "RF_RSSI_F1"], ["RF_LED_BITMAP_F2", "RF_RSSI_F2"], sample);
  }

  lemma Optional(base: seq<string>, four: seq<string>, f1: seq<string>, f2: seq<string>, sample: Sample)
    requires Distinct(base + four + f1 + f2)
    ensures Distinct(base + (if sample.four then four else []) + (if sample.f1 then f1 else []) +
                     (if sample.f2 then f2 else []))
  {
    hide Distinct;
    var a, b := if sample.four then four else [], if sample.f1 then f1 else [];
    assert base + four + f1 + f2 == base + four + (f1 + f2);
    LeaveOut(base, four, f1 + f2, sample.four);
    assert base + a + (f1 + f2) == base + a + f1 + f2;
    LeaveOut(base + a, f1, f2, sample.f1);
    assert base + a + b + f2 + [] == base + a + b + f2;
    LeaveOut(base + a + b, f2, [], sample.f2);
    var c := if sample.f2 then f2 else [];
    assert base + a + b + c + [] == base + a + b + c;
  }

  lemma LeaveOut(a: seq<string>, b: seq<string>, c: seq<string>, keep: bool)
    requires Distinct(a + b + c)
    ensures Distinct(a + (if keep then b else []) + c)
  {
    if !keep {
      var all, less := a + b + c, a + [] + c;
      forall i, j | 0 <= i < |less| && 0 <= j < |less| && less[i] == less[j]
        ensures i == j
      {
        var k, l := if i < |a| then i else i + |b|, if j < |a| then j else j + |b|;
        assert all[k] == less[i] && all[l] == less[j];
      }
    }
  }

  lemma AllSeventeen()
    ensures Distinct(["CHAN_QUALITY", "AUDIO_LED_BITMAP", "AUDIO_LEVEL_PEAK", "AUDIO_LEVEL_RMS", "ANTENNA_STATUS",
                      "RF_LED_BITMAP_A", "RF_RSSI_A", "RF_LED_BITMAP_B", "RF_RSSI_B"] +
                     ["RF_LED_BITMAP_C", "RF_RSSI_C", "RF_LED_BITMAP_D", "RF_RSSI_D"] +
                     ["RF_LED_BITMAP_F1", "RF_RSSI_F1"] + ["RF_LED_BITMAP_F2", "RF_RSSI_F2"])
  {
    hide Mark, Distinct;
    AxientMarks();
    var marks: seq<int> := [1146, 1319, 1314, 1273, 1224, 1374, 1080, 1375, 1081] + [1376, 1082, 1377, 1083] +
                           [1407, 1113] + [1408, 1114];
    MarksApart();
    MarkedDistinct(["CHAN_QUALITY", "AUDIO_LED_BITMAP", "AUDIO_LEVEL_PEAK", "AUDIO_LEVEL_RMS", "ANTENNA_STATUS",
                    "RF_LED_BITMAP_A", "RF_RSSI_A", "RF_LED_BITMAP_B", "RF_RSSI_B"] +
                   ["RF_LED_BITMAP_C", "RF_RSSI_C", "RF_LED_BITMAP_D", "RF_RSSI_D"] +
                   ["RF_LED_BITMAP_F1", "RF_RSSI_F1"] + ["RF_LED_BITMAP_F2", "RF_RSSI_F2"], marks);
  }

  lemma MarksApart()
    ensures Distinct<int>([1146, 1319, 1314, 1273, 1224, 1374, 1080, 1375, 1081] + [1376, 1082, 1377, 1083] +
                          [1407, 1113] + [1408, 1114])
  {
  }

  lemma AxientMarks()
    ensures Marked(["CHAN_QUALITY", "AUDIO_LED_BITMAP", "AUDIO_LEVEL_PEAK", "AUDIO_LEVEL_RMS", "ANTENNA_STATUS",
                    "RF_LED_BITMAP_A", "RF_RSSI_A", "RF_LED_BITMAP_B", "RF_RSSI_B"],
                   [1146, 1319, 1314, 1273, 1224, 1374, 1080, 1375, 1081])
    ensures Marked(["RF_LED_BITMAP_C", "RF_RSSI_C", "RF_LED_BITMAP_D", "RF_RSSI_D"], [1376, 1082, 1377, 1083])
    ensures Marked(["RF_LED_BITMAP_F1", "RF_RSSI_F1"], [1407, 1113])
    ensures Marked(["RF_LED_BITMAP_F2", "RF_RSSI_F2"], [1408, 1114])
  {
  }

  /** The events of a whole sample: one for each parameter it carries that has a source, in this order. */
  method SampleEvents(family: Family, sample: Sample, sources: set<string>) returns (events: seq<string>)
    ensures forall p :: p in events <==> sample.parses && p in sources && Carries(family, sample, p)
    ensures Distinct(events)
  {
    hide Carried;
    events := [];
    if !sample.parses {
      return;
    }
    var params := Carried(family, sample);
    CarriedOnce(family, sample);
    for k := 0 to |params|
      invariant forall p :: p in events <==> p in params[..k] && p in sources
      invariant Distinct(events)
    {
      assert params[k] !in params[..k];
      if params[k] in sources {
        events := events + [params[k]];
      }
      assert params[..k + 1] == params[..k] + [params[k]];
    }
    assert params[..|params|] == params;
  }

  /** The events of one report: of a whole sample, and of a metered parameter reported by itself. */
  method ReportEvents(family: Family, kind: string, param: string, sample: Sample, sources: set<string>)
    returns (events: seq<string>)
    ensures forall p :: p in events <==> Feeds(family, kind, param, sample, sources, p)
    ensures Distinct(events)
  {
    hide IsMeteredParam, Carries, Carried;
    AllUnmetered();
    events := [];
    if kind == "SAMPLE" && param == "ALL" {
      events := SampleEvents(family, sample, sources);
    }
    if IsMeteredParam(param) && param in sources {
      events := events + [param];
    }
  }

  predicate Feeds(family: Family, kind: string, param: string, sample: Sample, sources: set<string>, p: string) {
    p in sources &&
    ((kind == "SAMPLE" && param == "ALL" && sample.parses && Carries(family, sample, p)) ||
     (p == param && IsMeteredParam(param)))
  }

  /** The parameters registered as sources for each channel of a receiver added as of a family. */
  function SourcesOf(family: Family): set<string> {
    set p | p in MeteredParams(family)
  }

  /** Some report feeds the parameter's source, while the receiver is taken for the family it was added as. */
  ghost predicate CanBeFed(family: Family, p: string) {
    exists kind, param, sample :: Feeds(family, kind, param, sample, SourcesOf(family), p)
  }

  /** Of the sources registered for a receiver exactly two can never have an event: those of an Axient Digital's
      antennas, whose samples are broadcast under another name that is not registered. */
  lemma NeverFedIff(family: Family, p: string)
    requires p in MeteredParams(family)
    ensures !CanBeFed(family, p) <==> family == AxientDigital && (p == "ANTENNA_A_ACTIVE" || p == "ANTENNA_B_ACTIVE")
  {
    hide IsMeteredParam, Carries, Carried;
    var whole := Sample(true, true, true, true);
    if family == AxientDigital && (p == "ANTENNA_A_ACTIVE" || p == "ANTENNA_B_ACTIVE") {
      AntennasUnmetered();
      forall kind, param, sample
        ensures !Feeds(family, kind, param, sample, SourcesOf(family), p)
      {
        AntennasNotCarried(sample);
      }
    } else {
      SampledOrMetered(family, p);
      if Carries(family, whole, p) {
        assert Feeds(family, "SAMPLE", "ALL", whole, SourcesOf(family), p);
      } else {
        assert Feeds(family, "REP", p, whole, SourcesOf(family), p);
      }
    }
  }

  /** Which sources a whole sample feeds: all the registered ones but those two, and but a ULX-D's or QLX-D's audio
      level, which only a report of its own feeds. */
  lemma SampleFeedsIff(family: Family, p: string)
    requires p in MeteredParams(family)
    ensures (exists sample: Sample :: sample.parses && Carries(family, sample, p)) <==>
              !(family == AxientDigital && (p == "ANTENNA_A_ACTIVE" || p == "ANTENNA_B_ACTIVE")) && p != "AUDIO_LVL"
  {
    hide Carries, Carried, MeteredParams;
    var whole := Sample(true, true, true, true);
    AudioLevel(family);
    if family == AxientDigital && (p == "ANTENNA_A_ACTIVE" || p == "ANTENNA_B_ACTIVE") {
      forall sample
        ensures !Carries(family, sample, p)
      {
        AntennasNotCarried(sample);
      }
    } else if p != "AUDIO_LVL" {
      CarriedUnless(family, p);
      assert whole.parses;
    }
  }

  /** Where a family's receivers have a source for it at all, no sample carries it under that name. */
  lemma AudioLevel(family: Family)
    ensures "AUDIO_LVL" in MeteredParams(family) ==> forall sample :: !Carries(family, sample, "AUDIO_LVL")
    ensures IsMeteredParam("AUDIO_LVL")
  {
    hide Carries;
    assert Plain("AUDIO_LVL");
    PlainStays("AUDIO_LVL");
    assert METERED[5] == "AUDIO_LVL";
    if family == AxientDigital {
      AxientNoLevel();
    } else {
      forall sample
        ensures !Carries(family, sample, "AUDIO_LVL")
      {
        OthersNoLevel(family, sample);
      }
    }
  }

  lemma AxientNoLevel()
    ensures "AUDIO_LVL" !in MeteredParams(AxientDigital)
  {
    var p := "AUDIO_LVL";
    assert |p| == 9 && p[0] == 'A';
    assert forall k :: 0 <= k < |MeteredParams(AxientDigital)| ==>
             |MeteredParams(AxientDigital)[k]| != 9 || MeteredParams(AxientDigital)[k][0] == 'R';
  }

  lemma OthersNoLevel(family: Family, sample: Sample)
    requires family != AxientDigital
    ensures !Carries(family, sample, "AUDIO_LVL")
  {
    assert |"AUDIO_LVL"| == 9;
    assert forall k :: 0 <= k < |Carried(family, sample)| ==> |Carried(family, sample)[k]| != 9;
  }

  lemma CarriedUnless(family: Family, p: string)
    requires p in MeteredParams(family) && p != "AUDIO_LVL"
    requires !(family == AxientDigital && (p == "ANTENNA_A_ACTIVE" || p == "ANTENNA_B_ACTIVE"))
    ensures Carries(family, Sample(true, true, true, true), p)
  {
  }

  lemma SampledOrMetered(family: Family, p: string)
    requires p in MeteredParams(family)
    requires !(family == AxientDigital && (p == "ANTENNA_A_ACTIVE" || p == "ANTENNA_B_ACTIVE"))
    ensures Carries(family, Sample(true, true, true, true), p) || IsMeteredParam(p)
  {
    hide Carries, MeteredParams, IsMeteredParam;
    if p != "AUDIO_LVL" {
      CarriedUnless(family, p);
    }
    AudioLevel(family);
  }

  lemma AntennasUnmetered()
    ensures !IsMeteredParam("ANTENNA_A_ACTIVE") && !IsMeteredParam("ANTENNA_B_ACTIVE")
  {
    var a, b := "ANTENNA_A_ACTIVE", "ANTENNA_B_ACTIVE";
    assert |a| == 16 && |b| == 16 && a[15] == 'E' && b[15] == 'E' && Plain(a) && Plain(b);
    PlainStays(a);
    PlainStays(b);
    NoSuchMetered(a);
    NoSuchMetered(b);
  }

  lemma AllUnmetered()
    ensures !IsMeteredParam("ALL")
  {
    assert Plain("ALL") && |"ALL"| == 3;
    PlainStays("ALL");
    assert forall k :: 0 <= k < |METERED| ==> |METERED[k]| > 3;
  }

  lemma NoSuchMetered(p: string)
    requires Unmetered(p)
    ensures p !in METERED
  {
    MeteredLetters();
  }

  lemma AntennasNotCarried(sample: Sample)
    ensures !Carries(AxientDigital, sample, "ANTENNA_A_ACTIVE") && !Carries(AxientDigital, sample, "ANTENNA_B_ACTIVE")
  {
  }
}
