/** Staging and activating connection parameters of senders: what any history of patches leaves staged and
    active. */
module Is05 {
  import opened Text

  const IMMEDIATE := "activate_immediate"
  const NULL_MODE := ""

  datatype Activation = Activation(mode: string, requestedTime: Option<string>, activationTime: Option<string>)

  const NO_ACTIVATION: Activation := Activation(NULL_MODE, None, None)

  type Params = seq<map<string, string>>

  /** Staged and active parameters have the same shape. */
  datatype Connection = Connection(sender: string, masterEnable: bool, activation: Activation, params: Params)

  /** A decoded patch; a field left out is false, empty or null, so leaving the enabling out disables. */
  datatype Patch = Patch(masterEnable: bool, activation: Activation, params: Params)

  datatype State = State(staged: map<string, Connection>, active: map<string, Connection>)

  const INITIAL: State := State(map[], map[])

  /** What is staged now, or would be by default: the active parameters, or nothing enabled. */
  function Current(s: State, sender: string): Connection {
    if sender in s.staged then s.staged[sender]
    else if sender in s.active then s.active[sender].(sender := sender)
    else Connection(sender, false, NO_ACTIVATION, [])
  }

  /** A patch over what is staged: enabling always, activation and parameters only if given. */
  function Merged(c: Connection, p: Patch): Connection {
    c.(masterEnable := p.masterEnable,
       activation := if p.activation.mode != NULL_MODE then p.activation else c.activation,
       params := if p.params != [] then p.params else c.params)
  }

  function Patched(s: State, sender: string, p: Patch, now: string): State {
    var merged := Merged(Current(s, sender), p);
    if merged.activation.mode == IMMEDIATE then
      var stamped := merged.(activation := merged.activation.(activationTime := Some(now)));
      State(s.staged[sender := stamped.(activation := stamped.activation.(mode := NULL_MODE))],
            s.active[sender := stamped])
    else s.(staged := s.staged[sender := merged])
  }

  class ConnectionApi {
    var stagedConnections: map<string, Connection>
    var activeConnections: map<string, Connection>

    function View(): State
      reads this
    {
      State(stagedConnections, activeConnections)
    }

    constructor ()
      ensures View() == INITIAL
    {
      stagedConnections, activeConnections := map[], map[];
    }

    /** A patch of a sender's staged parameters; a body that does not decode is refused. */
    method PatchStaged(sender: string, body: Option<Patch>, now: string) returns (status: nat,
                       answer: Option<Connection>)
      modifies this
      ensures sender == "" ==> status == 404 && View() == old(View())
      ensures sender != "" && body.None? ==> status == 400 && View() == old(View())
      ensures sender != "" && body.Some? ==>
                status == 200 && View() == Patched(old(View()), sender, body.value, now) &&
                answer == Some(View().staged[sender])
    {
      if sender == "" {
        return 404, None;
      }
      if body.None? {
        return 400, None;
      }
      var patch := body.value;
      var current := Current(View(), sender);
      current := current.(masterEnable := patch.masterEnable);
      if patch.activation.mode != NULL_MODE {
        current := current.(activation := patch.activation);
      }
      if |patch.params| > 0 {
        current := current.(params := patch.params);
      }
      if current.activation.mode == IMMEDIATE {
        current := current.(activation := current.activation.(activationTime := Some(now)));
        activeConnections := activeConnections[sender := current];
        current := current.(activation := current.activation.(mode := NULL_MODE));
      }
      stagedConnections := stagedConnections[sender := current];
      return 200, Some(current);
    }
  }

  // ---------------------------------------------------------------- every history

  datatype Call = Call(sender: string, patch: Patch, now: string)

  function Run(calls: seq<Call>): State {
    if calls == [] then INITIAL
    else
      var c := calls[|calls| - 1];
      Patched(Run(calls[..|calls| - 1]), c.sender, c.patch, c.now)
  }

  /** The calls for one sender. */
  function For(calls: seq<Call>, sender: string): seq<Call> {
    if calls == [] then []
    else
      var c := calls[|calls| - 1];
      For(calls[..|calls| - 1], sender) + (if c.sender == sender then [c] else [])
  }

  /** The last parameters given, if any were. */
  function LastParams(calls: seq<Call>): Params {
    if calls == [] then []
    else if calls[|calls| - 1].patch.params != [] then calls[|calls| - 1].patch.params
    else LastParams(calls[..|calls| - 1])
  }

  /** The index of the last call that asks for immediate activation, or -1. */
  function LastImmediate(calls: seq<Call>): (k: int)
    ensures -1 <= k < |calls|
    ensures k >= 0 ==> calls[k].patch.activation.mode == IMMEDIATE
    ensures forall j :: k < j < |calls| ==> calls[j].patch.activation.mode != IMMEDIATE
  {
    if calls == [] then -1
    else if calls[|calls| - 1].patch.activation.mode == IMMEDIATE then |calls| - 1
    else LastImmediate(calls[..|calls| - 1])
  }

  /** The activation left staged: the last one given, with the time it asks for; once it was immediate its times
      stay and its mode goes. */
  function StagedActivation(calls: seq<Call>): Activation {
    if calls == [] then NO_ACTIVATION
    else
      var c := calls[|calls| - 1];
      if c.patch.activation.mode == IMMEDIATE
      then Activation(NULL_MODE, c.patch.activation.requestedTime, Some(c.now))
      else if c.patch.activation.mode != NULL_MODE then c.patch.activation
      else StagedActivation(calls[..|calls| - 1])
  }

  /** What is active: nothing before the first immediate activation, then the enabling of the last one and
      the last parameters given up to it. */
  ghost predicate ActiveIs(s: State, sender: string, calls: seq<Call>) {
    var k := LastImmediate(calls);
    if k < 0 then sender !in s.active
    else
      && sender in s.active
      && s.active[sender].sender == sender
      && s.active[sender].masterEnable == calls[k].patch.masterEnable
      && s.active[sender].params == LastParams(calls[..k + 1])
      && s.active[sender].activation == calls[k].patch.activation.(activationTime := Some(calls[k].now))
  }

  /** What is staged: the last enabling, the last parameters given, and the activation left. */
  ghost predicate StagedIs(s: State, sender: string, calls: seq<Call>) {
    if calls == [] then sender !in s.staged
    else
      && sender in s.staged
      && s.staged[sender].sender == sender
      && s.staged[sender].masterEnable == calls[|calls| - 1].patch.masterEnable
      && s.staged[sender].params == LastParams(calls)
      && s.staged[sender].activation == StagedActivation(calls)
  }

  lemma {:induction false} StagedNeverImmediate(calls: seq<Call>)
    ensures StagedActivation(calls).mode != IMMEDIATE
  {
    assert |IMMEDIATE| == 18;
    if calls != [] {
      StagedNeverImmediate(calls[..|calls| - 1]);
    }
  }

  lemma OneMore(before: seq<Call>, c: Call)
    ensures var calls, mode := before + [c], c.patch.activation.mode;
            LastParams(calls) == (if c.patch.params != [] then c.patch.params else LastParams(before)) &&
            LastImmediate(calls) == (if mode == IMMEDIATE then |before| else LastImmediate(before)) &&
            StagedActivation(calls) ==
              if mode == IMMEDIATE then Activation(NULL_MODE, c.patch.activation.requestedTime, Some(c.now))
              else if mode != NULL_MODE then c.patch.activation else StagedActivation(before)
  {
    assert (before + [c])[..|before|] == before;
  }

  lemma OnePatch(s: State, sender: string, before: seq<Call>, c: Call)
    requires StagedIs(s, sender, before) && (sender in s.active ==> sender in s.staged) && c.sender == sender
    ensures StagedIs(Patched(s, sender, c.patch, c.now), sender, before + [c])
  {
    hide LastParams, LastImmediate, StagedActivation;
    StagedNeverImmediate(before);
    NothingGiven();
    OneMore(before, c);
  }

  /** What a patch is merged into. */
  lemma CurrentIs(s: State, sender: string, before: seq<Call>)
    requires StagedIs(s, sender, before) && (sender in s.active ==> sender in s.staged)
    ensures Current(s, sender).sender == sender && Current(s, sender).params == LastParams(before)
    ensures Current(s, sender).activation.mode != IMMEDIATE
  {
    hide LastParams, StagedActivation;
    StagedNeverImmediate(before);
    NothingGiven();
  }

  lemma PatchActive(s: State, sender: string, before: seq<Call>, c: Call)
    requires ActiveIs(s, sender, before) && StagedIs(s, sender, before) && c.sender == sender
    requires sender in s.active ==> sender in s.staged
    ensures ActiveIs(Patched(s, sender, c.patch, c.now), sender, before + [c])
  {
    hide LastParams, LastImmediate, StagedActivation, Current;
    var calls, k := before + [c], LastImmediate(before);
    CurrentIs(s, sender, before);
    StagedNeverImmediate(before);
    NothingGiven();
    OneMore(before, c);
    if c.patch.activation.mode == IMMEDIATE {
      assert calls[..|before| + 1] == calls;
    } else if k >= 0 {
      assert calls[..k + 1] == before[..k + 1];
    }
  }

  lemma NothingGiven()
    ensures LastParams([]) == [] && StagedActivation([]) == NO_ACTIVATION && IMMEDIATE != NULL_MODE
  {
    assert |IMMEDIATE| == 18;
  }

  lemma PatchOne(s: State, sender: string, before: seq<Call>, c: Call)
    requires ActiveIs(s, sender, before) && StagedIs(s, sender, before) && c.sender == sender
    ensures ActiveIs(Patched(s, sender, c.patch, c.now), sender, before + [c])
    ensures StagedIs(Patched(s, sender, c.patch, c.now), sender, before + [c])
  {
    hide Patched;
    ActiveThenStaged(s, sender, before);
    OnePatch(s, sender, before, c);
    PatchActive(s, sender, before, c);
  }

  lemma ActiveThenStaged(s: State, sender: string, before: seq<Call>)
    requires ActiveIs(s, sender, before) && StagedIs(s, sender, before)
    ensures sender in s.active ==> sender in s.staged
  {
  }

  /** After any history of patches of any senders, each sender has staged and active exactly what its own
      patches say. */
  lemma {:induction false} HistoryDecides(calls: seq<Call>, sender: string)
    ensures ActiveIs(Run(calls), sender, For(calls, sender)) && StagedIs(Run(calls), sender, For(calls, sender))
  {
    if calls != [] {
      hide ActiveIs, StagedIs, Patched;
      var n := |calls| - 1;
      HistoryDecides(calls[..n], sender);
      var s, c := Run(calls[..n]), calls[n];
      if c.sender == sender {
        PatchOne(s, sender, For(calls[..n], sender), c);
      } else {
        PatchOther(s, sender, For(calls[..n], sender), c);
        assert For(calls[..n], sender) + [] == For(calls[..n], sender);
      }
    } else {
      NoHistory(sender);
    }
  }

  lemma PatchOther(s: State, sender: string, mine: seq<Call>, c: Call)
    requires ActiveIs(s, sender, mine) && StagedIs(s, sender, mine) && c.sender != sender
    ensures ActiveIs(Patched(s, c.sender, c.patch, c.now), sender, mine)
    ensures StagedIs(Patched(s, c.sender, c.patch, c.now), sender, mine)
  {
  }

  lemma NoHistory(sender: string)
    ensures ActiveIs(INITIAL, sender, []) && StagedIs(INITIAL, sender, [])
  {
  }

  /** A patch changes what is active exactly when it asks for immediate activation itself: nothing staged
      earlier can make it. */
  lemma ActivatesIffImmediate(calls: seq<Call>, sender: string, p: Patch, now: string)
    ensures var s := Run(calls);
            Patched(s, sender, p, now).active ==
              if p.activation.mode == "activate_immediate"
              then s.active[sender := Merged(Current(s, sender), p).(activation :=
                                        p.activation.(activationTime := Some(now)))]
              else s.active
    ensures sender in Run(calls).active ==> sender in Run(calls).staged
    ensures sender in Run(calls).staged ==> Run(calls).staged[sender].activation.mode != IMMEDIATE
  {
    HistoryDecides(calls, sender);
    StagedNeverImmediate(For(calls, sender));
    assert |IMMEDIATE| == 18;
  }
}
