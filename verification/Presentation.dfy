/** A receiver's device as the network sees it: the description, label, tags and controls its reports leave. */
module Presentation {
  import opened Text
  import opened Tpci

  datatype Control = Control(name: string, kind: string, value: string)

  /** The tags a metering sample sets, in the order of its fields. */
  const SAMPLE_TAGS: seq<string> :=
    ["channel_quality", "audio_led_bitmap", "audio_peak", "audio_rms", "antenna_status", "rf_led_bitmap_a",
     "rf_rssi_a", "rf_led_bitmap_b", "rf_rssi_b"]

  /** Whether reports get a parameter a control. */
  predicate Showing(param: string) {
    param !in ["METER_RATE", "SAMPLE", "ALL"]
  }

  function ControlType(value: string): string {
    if value == "ON" || value == "OFF" then "boolean" else if HasPrefix(value, "{") then "string" else "number"
  }

  function ControlFor(r: Report): Control {
    Control(r.param, ControlType(r.value), r.value)
  }

  predicate HasControl(controls: seq<Control>, name: string) {
    exists k :: 0 <= k < |controls| && controls[k].name == name
  }

  /** The controls after one more report: a new parameter gets one, a known one keeps what it has. */
  function ControlsStep(controls: seq<Control>, r: Report): seq<Control> {
    if Showing(r.param) && !HasControl(controls, r.param) then controls + [ControlFor(r)] else controls
  }

  function ControlsOf(reports: seq<Report>): seq<Control> {
    if reports == [] then [] else ControlsStep(ControlsOf(reports[..|reports| - 1]), reports[|reports| - 1])
  }

  /** The sample tags from the fields of a value. */
  function SampleTags(fields: seq<string>, n: nat): map<string, string>
    requires n <= |SAMPLE_TAGS| && n <= |fields|
  {
    if n == 0 then map[] else SampleTags(fields, n - 1)[SAMPLE_TAGS[n - 1] := fields[n - 1]]
  }

  /** The tags one report sets: its parameter's, and of a whole sample those of its first nine fields. */
  function TagsSet(r: Report): map<string, string> {
    var own := map[r.param := r.value];
    if r.kind == "SAMPLE" && r.param == "ALL" && |Fields(r.value)| >= |SAMPLE_TAGS|
    then own + SampleTags(Fields(r.value), |SAMPLE_TAGS|) else own
  }

  function TagsOf(tags: map<string, string>, reports: seq<Report>): map<string, string> {
    if reports == [] then tags else TagsOf(tags, reports[..|reports| - 1]) + TagsSet(reports[|reports| - 1])
  }

  /** The last value reported of a parameter. */
  function LastValue(reports: seq<Report>, param: string): Option<string> {
    if reports == [] then None
    else if reports[|reports| - 1].param == param then Some(reports[|reports| - 1].value)
    else LastValue(reports[..|reports| - 1], param)
  }

  /** The first value reported of a parameter. */
  function FirstValue(reports: seq<Report>, param: string): Option<string> {
    if reports == [] then None
    else if reports[0].param == param then Some(reports[0].value) else FirstValue(reports[1..], param)
  }

  // ---------------------------------------------------------------- the device as the source updates it

  class DevicePresentation {
    const source: string
    const description0: string
    const deviceLabel0: string
    const tags0: map<string, string>
    var description: string
    var deviceLabel: string
    var tags: map<string, string>
    var controls: seq<Control>
    /** The reports applied, in order. */
    ghost var heard: seq<Report>

    /** All that is shown follows from the reports alone. */
    ghost predicate Valid()
      reads this
    {
      && controls == ControlsOf(heard) && tags == TagsOf(tags0, heard)
      && deviceLabel == (if LastValue(heard, "DEVICE_ID").Some? then LastValue(heard, "DEVICE_ID").value
                         else deviceLabel0)
      && description == if LastValue(heard, "MODEL").Some? then LastValue(heard, "MODEL").value + " at " + source
                        else description0
    }

    constructor (source: string, description: string, deviceLabel: string, tags: map<string, string>)
      ensures Valid() && heard == [] && this.source == source
      ensures description0 == description && deviceLabel0 == deviceLabel && tags0 == tags
    {
      this.source, description0, deviceLabel0, tags0 := source, description, deviceLabel, tags;
      this.description, this.deviceLabel, this.tags, controls, heard := description, deviceLabel, tags, [], [];
    }

    /** Applies a report, and tells whether the registry is patched as well. */
    method Apply(r: Report) returns (patched: bool)
      requires Valid()
      modifies this
      ensures Valid() && heard == old(heard) + [r] && (patched <==> r.param == "DEVICE_ID")
    {
      hide ControlsOf, ControlsStep, TagsOf, TagsSet, LastValue;
      OneMore(heard, tags0, r);
      patched := false;
      if r.param == "MODEL" {
        description := r.value + " at " + source;
      }
      if r.param == "DEVICE_ID" {
        deviceLabel := r.value;
        patched := true;
      }
      AddTags(r);
      AddControl(r);
      heard := heard + [r];
    }

    /** A control for a new parameter. */
    method AddControl(r: Report)
      modifies this`controls
      ensures controls == ControlsStep(old(controls), r)
    {
      if r.param != "METER_RATE" && r.param != "SAMPLE" && r.param != "ALL" {
        var found := false;
        for k := 0 to |controls|
          invariant found <==> exists j :: 0 <= j < k && controls[j].name == r.param
        {
          found := found || controls[k].name == r.param;
        }
        if !found {
          var kind := "number";
          if r.value == "ON" || r.value == "OFF" {
            kind := "boolean";
          } else if HasPrefix(r.value, "{") {
            kind := "string";
          }
          controls := controls + [Control(r.param, kind, r.value)];
        }
      }
    }

    /** The tag of the parameter, and those of a whole sample. */
    method AddTags(r: Report)
      modifies this`tags
      ensures tags == old(tags) + TagsSet(r)
    {
      hide SampleTags;
      tags := tags[r.param := r.value];
      var vals := Fields(r.value);
      if r.kind == "SAMPLE" && r.param == "ALL" && |vals| >= |SAMPLE_TAGS| {
        AddSampleTags(vals);
      }
    }

    /** The tags of a whole sample. */
    method AddSampleTags(vals: seq<string>)
      requires |vals| >= |SAMPLE_TAGS|
      modifies this`tags
      ensures tags == old(tags) + SampleTags(vals, |SAMPLE_TAGS|)
    {
      for k := 0 to |SAMPLE_TAGS|
        invariant tags == old(tags) + SampleTags(vals, k)
      {
        tags := tags[SAMPLE_TAGS[k] := vals[k]];
      }
    }
  }

  lemma OneMore(reports: seq<Report>, tags: map<string, string>, r: Report)
    ensures ControlsOf(reports + [r]) == ControlsStep(ControlsOf(reports), r)
    ensures TagsOf(tags, reports + [r]) == TagsOf(tags, reports) + TagsSet(r)
    ensures forall param :: LastValue(reports + [r], param) ==
                            if r.param == param then Some(r.value) else LastValue(reports, param)
  {
    assert (reports + [r])[..|reports|] == reports;
  }

  // ---------------------------------------------------------------- every run

  /** The report is a whole sample with enough fields for all the tags. */
  predicate WholeSample(r: Report) {
    r.kind == "SAMPLE" && r.param == "ALL" && |Fields(r.value)| >= 9
  }

  /** The field of a whole sample that a tag shows, in the order the device sends them. */
  function FieldOf(name: string): Option<nat> {
    if name == "channel_quality" then Some(0)
    else if name == "audio_led_bitmap" then Some(1)
    else if name == "audio_peak" then Some(2)
    else if name == "audio_rms" then Some(3)
    else if name == "antenna_status" then Some(4)
    else if name == "rf_led_bitmap_a" then Some(5)
    else if name == "rf_rssi_a" then Some(6)
    else if name == "rf_led_bitmap_b" then Some(7)
    else if name == "rf_rssi_b" then Some(8)
    else None
  }

  /** What one report says for a tag: the field of a whole sample, or the value of the parameter of that name. */
  function SaidFor(r: Report, name: string): (said: Option<string>)
    ensures said.Some? ==> said.value == r.value || said.value in Fields(r.value)
  {
    if WholeSample(r) && FieldOf(name).Some? then Some(Fields(r.value)[FieldOf(name).value])
    else if r.param == name then Some(r.value)
    else None
  }

  function LastSaid(reports: seq<Report>, name: string): Option<string> {
    if reports == [] then None
    else if SaidFor(reports[|reports| - 1], name).Some? then SaidFor(reports[|reports| - 1], name)
    else LastSaid(reports[..|reports| - 1], name)
  }

  /** The table of tags is that order. */
  lemma SampleTagPlaces(name: string)
    ensures FieldOf(name).Some? ==> FieldOf(name).value < |SAMPLE_TAGS| == 9 && SAMPLE_TAGS[FieldOf(name).value] == name
    ensures FieldOf(name).None? ==> name !in SAMPLE_TAGS
    ensures forall j, k :: 0 <= j < k < 9 ==> SAMPLE_TAGS[j] != SAMPLE_TAGS[k]
  {
    assert |SAMPLE_TAGS[0]| == 15 && |SAMPLE_TAGS[1]| == 16 && |SAMPLE_TAGS[2]| == 10 && |SAMPLE_TAGS[3]| == 9;
    assert |SAMPLE_TAGS[4]| == 14 && |SAMPLE_TAGS[5]| == 15 && |SAMPLE_TAGS[6]| == 9 && |SAMPLE_TAGS[7]| == 15;
    assert |SAMPLE_TAGS[8]| == 9;
    assert SAMPLE_TAGS[0][0] == 'c' && SAMPLE_TAGS[5][14] == 'a' && SAMPLE_TAGS[7][14] == 'b';
    assert SAMPLE_TAGS[3][0] == 'a' && SAMPLE_TAGS[6][8] == 'a' && SAMPLE_TAGS[8][8] == 'b';
    assert SAMPLE_TAGS[5][0] == 'r' && SAMPLE_TAGS[7][0] == 'r' && SAMPLE_TAGS[6][0] == 'r' && SAMPLE_TAGS[8][0] == 'r';
  }

  lemma {:induction false} SampleTagsAre(fields: seq<string>, n: nat, name: string)
    requires n <= |SAMPLE_TAGS| && n <= |fields|
    ensures name in SampleTags(fields, n) <==> FieldOf(name).Some? && FieldOf(name).value < n
    ensures name in SampleTags(fields, n) ==> SampleTags(fields, n)[name] == fields[FieldOf(name).value]
  {
    hide FieldOf;
    SampleTagPlaces(name);
    if n > 0 {
      SampleTagsAre(fields, n - 1, name);
    }
  }

  lemma TagsSetAre(r: Report, name: string)
    ensures name in TagsSet(r) <==> SaidFor(r, name).Some?
    ensures name in TagsSet(r) ==> TagsSet(r)[name] == SaidFor(r, name).value
  {
    hide FieldOf, SampleTags, Fields;
    SampleTagPlaces(name);
    if WholeSample(r) {
      SampleTagsAre(Fields(r.value), 9, name);
    }
  }

  /** After any reports a tag has what was last said for it: by a whole sample, or as the value of its parameter. */
  lemma {:induction false} TagIsLast(tags: map<string, string>, reports: seq<Report>, name: string)
    ensures name in TagsOf(tags, reports) <==> name in tags || LastSaid(reports, name).Some?
    ensures LastSaid(reports, name).Some? ==> TagsOf(tags, reports)[name] == LastSaid(reports, name).value
    ensures LastSaid(reports, name).None? && name in tags ==> TagsOf(tags, reports)[name] == tags[name]
  {
    hide TagsSet, SaidFor;
    if reports != [] {
      TagIsLast(tags, reports[..|reports| - 1], name);
      TagsSetAre(reports[|reports| - 1], name);
    }
  }

  /** A tag that is no sample tag has the last value of its parameter. */
  lemma {:induction false} PlainTag(reports: seq<Report>, name: string)
    requires name !in SAMPLE_TAGS
    ensures LastSaid(reports, name) == LastValue(reports, name)
  {
    hide FieldOf, Fields;
    SampleTagPlaces(name);
    if reports != [] {
      PlainTag(reports[..|reports| - 1], name);
    }
  }

  lemma {:induction false} FirstOfMore(reports: seq<Report>, r: Report, param: string)
    ensures FirstValue(reports + [r], param) ==
            if FirstValue(reports, param).Some? then FirstValue(reports, param)
            else if r.param == param then Some(r.value) else None
  {
    if reports == [] {
      assert reports + [r] == [r] && [r][1..] == [];
    } else {
      assert (reports + [r])[1..] == reports[1..] + [r];
      FirstOfMore(reports[1..], r, param);
    }
  }

  /** After any reports each parameter reported, but for the excluded ones, has one control, and that has the
      type and value of the first report of it, whatever came later. */
  lemma {:induction false} ControlIsFirst(reports: seq<Report>, param: string)
    requires Showing(param)
    ensures HasControl(ControlsOf(reports), param) <==> FirstValue(reports, param).Some?
    ensures forall k :: 0 <= k < |ControlsOf(reports)| && ControlsOf(reports)[k].name == param ==>
              FirstValue(reports, param).Some? &&
              ControlsOf(reports)[k] == Control(param, ControlType(FirstValue(reports, param).value),
                                                FirstValue(reports, param).value)
    ensures forall j, k :: 0 <= j < k < |ControlsOf(reports)| && ControlsOf(reports)[j].name == param ==>
              ControlsOf(reports)[k].name != param
  {
    hide ControlType;
    if reports != [] {
      var n := |reports| - 1;
      var before, r := ControlsOf(reports[..n]), reports[n];
      ControlIsFirst(reports[..n], param);
      FirstOfMore(reports[..n], r, param);
      assert reports == reports[..n] + [r];
      ControlAdded(before, r, param);
    }
  }

  lemma ControlAdded(before: seq<Control>, r: Report, param: string)
    requires Showing(param)
    ensures HasControl(ControlsStep(before, r), param) <==> HasControl(before, param) || r.param == param
  {
    var after := ControlsStep(before, r);
    if HasControl(before, param) {
      var k :| 0 <= k < |before| && before[k].name == param;
      assert after[k].name == param;
    }
    if r.param == param && !HasControl(before, param) {
      assert after[|before|].name == param;
    }
  }

  /** Every control is of a parameter outside the three excluded, and of a kind its value decides: a boolean for
      the two switch words, a text for what starts with a brace, else a number. */
  lemma ControlTyped(reports: seq<Report>, k: nat)
    requires k < |ControlsOf(reports)|
    ensures var c := ControlsOf(reports)[k];
            c.name != "METER_RATE" && c.name != "SAMPLE" && c.name != "ALL" &&
            (c.kind == "boolean" <==> c.value == "ON" || c.value == "OFF") &&
            (c.kind == "string" <==> c.value != "" && c.value[0] == '{') &&
            (c.kind == "number" <==> c.value != "ON" && c.value != "OFF" && (c.value == "" || c.value[0] != '{'))
  {
    hide ControlType, ControlsOf;
    OnlyShown(reports, k);
    ControlIsFirst(reports, ControlsOf(reports)[k].name);
    TypeOf(ControlsOf(reports)[k].value);
  }

  lemma TypeOf(value: string)
    ensures ControlType(value) == "boolean" <==> value == "ON" || value == "OFF"
    ensures ControlType(value) == "string" <==> value != "" && value[0] == '{'
    ensures ControlType(value) == "number" <==>
              value != "ON" && value != "OFF" && (value == "" || value[0] != '{')
  {
    assert |"boolean"| == 7 && |"string"| == 6 && |"number"| == 6 && "string"[0] == 's' && "number"[0] == 'n';
    assert HasPrefix(value, "{") <==> value != "" && value[0] == '{';
  }

  /** Controls never move, change or go. */
  lemma {:induction false} ControlsOnlyGrow(before: seq<Report>, more: seq<Report>)
    ensures ControlsOf(before) <= ControlsOf(before + more)
  {
    if more == [] {
      assert before + more == before;
    } else {
      assert (before + more)[..|before + more| - 1] == before + more[..|more| - 1];
      ControlsOnlyGrow(before, more[..|more| - 1]);
    }
  }

  /** So a control shows the current value of its parameter exactly when the last report of it has the value of
      the first. */
  lemma ControlCurrentIff(reports: seq<Report>, tags: map<string, string>, k: nat)
    requires k < |ControlsOf(reports)| && ControlsOf(reports)[k].name !in SAMPLE_TAGS
    ensures var c := ControlsOf(reports)[k];
            FirstValue(reports, c.name).Some? && LastValue(reports, c.name).Some? &&
            c.name in TagsOf(tags, reports) &&
            (c.value == TagsOf(tags, reports)[c.name] <==>
               FirstValue(reports, c.name) == LastValue(reports, c.name))
  {
    hide ControlType, TagsOf, ControlsOf;
    var c := ControlsOf(reports)[k];
    OnlyShown(reports, k);
    ControlIsFirst(reports, c.name);
    FirstMeansLast(reports, c.name);
    TagIsLast(tags, reports, c.name);
    PlainTag(reports, c.name);
  }

  lemma {:induction false} OnlyShown(reports: seq<Report>, k: nat)
    requires k < |ControlsOf(reports)|
    ensures Showing(ControlsOf(reports)[k].name)
  {
    if k < |ControlsOf(reports[..|reports| - 1])| {
      OnlyShown(reports[..|reports| - 1], k);
    }
  }

  lemma {:induction false} FirstMeansLast(reports: seq<Report>, param: string)
    ensures FirstValue(reports, param).Some? <==> LastValue(reports, param).Some?
  {
    if reports != [] {
      var n := |reports| - 1;
      FirstMeansLast(reports[..n], param);
      FirstOfMore(reports[..n], reports[n], param);
      assert reports == reports[..n] + [reports[n]];
    }
  }

  /** A mute reported on and then off: its control stays at on. */
  lemma ControlStays(on: Report, off: Report)
    requires on.param == off.param == "AUDIO_MUTE" && on.value == "ON" && off.value == "OFF"
    ensures ControlsOf([on, off]) == [Control("AUDIO_MUTE", "boolean", "ON")]
  {
    assert [on, off][..1] == [on] && [on][..0] == [];
    assert ControlsOf([on]) == [Control("AUDIO_MUTE", "boolean", "ON")];
    assert ControlsOf([on])[0].name == "AUDIO_MUTE";
  }
}
