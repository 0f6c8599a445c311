/** The cryogenic switch together with its amplifier bias controller (`LabSwitch`
    in Lab/Lab.py) and its safe switching sequence `safeConnect`.

    The calls into the switch and into the bias controller are actions on
    abstract state: each one updates the bias outputs or the closed contacts
    and appends an event to a log, so the log records the order of the hardware
    actions. The operator's answers to the confirmation prompt are a parameter. */
module Switching {
  import opened Wrappers
  import Bias

  datatype Side = A | B

  /** One hardware action of the switch or of the bias controller. */
  datatype Event =
    | TurnOff                                         // ramp gate and drain bias down, outputs off
    | DisconnectAll(side: Side)                       // open every contact of a side
    | Connect(side: Side, contact: int)               // close one contact of a side
    | Settle                                          // the one-second settle pause
    | TurnOn(gateVs: seq<real>, drainVs: seq<real>)   // ramp bias up along the trajectories

  /** The `channel` argument: an `int`, a `str`, or a value of any other type
      (a `bool` is one of those, since its type is not `int`). */
  datatype ChannelArg = IntArg(number: int) | StrArg(name: string) | OtherArg

  /** The exceptions `safeConnect` raises. */
  datatype SwitchError =
    | UnexpectedInput               // neither an int in [1, 6] nor a str
    | UnknownDevice(name: string)   // a name missing from `devices` (KeyError)
    | UnexpectedBias                // gate and drain outputs disagree
    | NotPoweredOff                 // the operator answered 'n'
    | EndOfInput                    // the prompt found no further answer (EOFError)

  const MinChannel: int := 1
  const MaxChannel: int := 6

  /** The contact number a `channel` argument names. A name is looked up in
      `devices`; the number found there is taken as it is. */
  function ResolveChannel(channel: ChannelArg, devices: map<string, int>): (r: Result<int, SwitchError>)
    ensures channel.IntArg? ==>
      (r.Ok? <==> MinChannel <= channel.number <= MaxChannel) &&
      (r.Ok? ==> r.value == channel.number) && (r.Err? ==> r.error == UnexpectedInput)
    ensures channel.StrArg? ==>
      (r.Ok? <==> channel.name in devices) &&
      (r.Ok? ==> r.value == devices[channel.name]) && (r.Err? ==> r.error == UnknownDevice(channel.name))
    ensures channel.OtherArg? ==> r == Err(UnexpectedInput)
  {
    match channel
    case StrArg(name) => if name in devices then Ok(devices[name]) else Err(UnknownDevice(name))
    case IntArg(number) => if 1 <= number <= 6 then Ok(number) else Err(UnexpectedInput)
    case OtherArg => Err(UnexpectedInput)
  }

  // ---------------------------------------------------------------------------
  // The confirmation prompt

  /** What the operator's answers amount to. */
  datatype Decision = Yes | No | NoAnswer

  /** The answers the prompt acts on; any other answer is asked again. */
  predicate Decisive(answer: string)
  {
    answer == "y" || answer == "n"
  }

  /** The first decisive answer, or none. */
  function DecisionOf(answers: seq<string>): (d: Decision)
    ensures d == Yes ==> "y" in answers
    ensures d == No ==> "n" in answers
  {
    if answers == [] then NoAnswer
    else if answers[0] == "n" then No
    else if answers[0] == "y" then Yes
    else DecisionOf(answers[1..])
  }

  /** The first decisive answer decides. */
  lemma {:induction false} DecisionAt(answers: seq<string>, i: nat)
    requires i < |answers| && Decisive(answers[i])
    requires forall j :: 0 <= j < i ==> !Decisive(answers[j])
    ensures DecisionOf(answers) == if answers[i] == "y" then Yes else No
  {
    if i > 0 {
      DecisionAt(answers[1..], i - 1);
    }
  }

  /** Without a decisive answer the prompt runs out of input. */
  lemma {:induction false} NoDecision(answers: seq<string>)
    ensures DecisionOf(answers) == NoAnswer <==> forall j :: 0 <= j < |answers| ==> !Decisive(answers[j])
  {
    if answers != [] {
      NoDecision(answers[1..]);
      assert forall j :: 1 <= j < |answers| ==> answers[j] == answers[1..][j - 1];
    }
  }

  /** The result of the prompt loop: nothing to ask outside safe mode. */
  function Confirmation(safeMode: bool, answers: seq<string>): (r: Result<(), SwitchError>)
    ensures r.Ok? <==> !safeMode || DecisionOf(answers) == Yes
    ensures r.Err? ==> r.error == NotPoweredOff || r.error == EndOfInput
  {
    if !safeMode then Ok(())
    else match DecisionOf(answers)
      case Yes => Ok(())
      case No => Err(NotPoweredOff)
      case NoAnswer => Err(EndOfInput)
  }

  /** The `while safe_mode` loop: asks until the operator answers 'y' or 'n'. */
  method ConfirmPoweredOff(safeMode: bool, answers: seq<string>) returns (r: Result<(), SwitchError>)
    ensures r == Confirmation(safeMode, answers)
  {
    r := Ok(());
    var i := 0;
    while safeMode
      invariant 0 <= i <= |answers|
      invariant DecisionOf(answers[i..]) == DecisionOf(answers)
      decreases |answers| - i
    {
      if i == |answers| {
        r := Err(EndOfInput);
        return;
      }
      var userCheck := answers[i];
      assert answers[i..][1..] == answers[i + 1..];
      i := i + 1;
      if userCheck == "n" {
        r := Err(NotPoweredOff);
        return;
      } else if userCheck != "y" {
        // not a recognised answer: ask again
      } else {
        break;
      }
    }
  }

  // ---------------------------------------------------------------------------
  // The switching sequence

  /** Open both sides, then close both on contact `c`, pausing between steps. */
  function SwitchSequence(c: int): (r: seq<Event>)
    ensures Connect(A, c) in r && Connect(B, c) in r
  {
    [DisconnectAll(A), Settle, DisconnectAll(B), Settle, Connect(A, c), Settle, Connect(B, c)]
  }

  /** Only contact `c` is closed, and both sides are opened before either is
      closed: no disconnect follows a connect. */
  lemma SwitchSequenceOrder(c: int)
    ensures forall e :: e in SwitchSequence(c) && e.Connect? ==> e.contact == c
    ensures forall i, j :: 0 <= i < j < |SwitchSequence(c)| && SwitchSequence(c)[i].Connect? ==>
      !SwitchSequence(c)[j].DisconnectAll?
  {
  }

  predicate IsSwitchEvent(e: Event)
  {
    e.DisconnectAll? || e.Connect?
  }

  /** The events of one `safeConnect` call and how it ends. */
  datatype Run = Run(events: seq<Event>, outcome: Result<int, SwitchError>)

  /** What `safeConnect` does from a given state: the events it causes, in order,
      and its outcome (the contact it connected, or the exception it raised). */
  function SafeConnectRun(channel: ChannelArg, devices: map<string, int>, gateOn: bool, drainOn: bool,
                          safeMode: bool, answers: seq<string>, gateVs: seq<real>, drainVs: seq<real>)
    : (run: Run)
    ensures run.outcome.Ok? ==> run.outcome == ResolveChannel(channel, devices)
  {
    match ResolveChannel(channel, devices)
    case Err(e) => Run([], Err(e))
    case Ok(c) =>
      if gateOn != drainOn then Run([], Err(UnexpectedBias))
      else
        var rampDown := if gateOn then [TurnOff] else [];
        match Confirmation(safeMode, answers)
        case Err(e) => Run(rampDown, Err(e))
        case Ok(_) => Run(rampDown + SwitchSequence(c) + [TurnOn(gateVs, drainVs)], Ok(c))
  }

  /** The bias gate: an unusable channel or a mixed bias touches no hardware; the
      bias is ramped down exactly when it was on, and before any contact moves. */
  lemma SafeConnectBiasFirst(channel: ChannelArg, devices: map<string, int>, gateOn: bool, drainOn: bool,
                             safeMode: bool, answers: seq<string>, gateVs: seq<real>, drainVs: seq<real>)
    ensures var run := SafeConnectRun(channel, devices, gateOn, drainOn, safeMode, answers, gateVs, drainVs);
      (ResolveChannel(channel, devices).Err? ==> run == Run([], Err(ResolveChannel(channel, devices).error))) &&
      (ResolveChannel(channel, devices).Ok? && gateOn != drainOn ==> run == Run([], Err(UnexpectedBias))) &&
      (TurnOff in run.events <==> ResolveChannel(channel, devices).Ok? && gateOn && drainOn) &&
      (forall i :: 0 <= i < |run.events| && run.events[i] == TurnOff ==> i == 0) &&
      (forall i :: 0 <= i < |run.events| && IsSwitchEvent(run.events[i]) && gateOn ==>
         0 < i && run.events[0] == TurnOff)
  {
    var run := SafeConnectRun(channel, devices, gateOn, drainOn, safeMode, answers, gateVs, drainVs);
    match ResolveChannel(channel, devices)
    case Err(_) =>
    case Ok(c) =>
      if gateOn == drainOn {
        var rampDown := if gateOn then [TurnOff] else [];
        match Confirmation(safeMode, answers)
        case Err(e) =>
          assert run == Run(rampDown, Err(e));
        case Ok(_) =>
          assert run == Run(rampDown + SwitchSequence(c) + [TurnOn(gateVs, drainVs)], Ok(c));
      }
  }

  /** How a run ends: it succeeds exactly with a usable channel, a consistent bias
      and, in safe mode, a 'y'; on success the log ends with the switching
      sequence and the ramp up; on failure no contact moved and no ramp up ran. */
  lemma SafeConnectOutcome(channel: ChannelArg, devices: map<string, int>, gateOn: bool, drainOn: bool,
                           safeMode: bool, answers: seq<string>, gateVs: seq<real>, drainVs: seq<real>)
    ensures var run := SafeConnectRun(channel, devices, gateOn, drainOn, safeMode, answers, gateVs, drainVs);
      (run.outcome.Ok? <==>
         ResolveChannel(channel, devices).Ok? && gateOn == drainOn && (!safeMode || DecisionOf(answers) == Yes)) &&
      (safeMode && ResolveChannel(channel, devices).Ok? && gateOn == drainOn && DecisionOf(answers) == No ==>
         run.outcome == Err(NotPoweredOff)) &&
      (run.outcome.Ok? ==>
         run.outcome.value == ResolveChannel(channel, devices).value &&
         |run.events| >= 8 &&
         run.events[|run.events| - 8..] == SwitchSequence(run.outcome.value) + [TurnOn(gateVs, drainVs)]) &&
      (run.outcome.Err? ==> forall e :: e in run.events ==> e == TurnOff)
  {
    var run := SafeConnectRun(channel, devices, gateOn, drainOn, safeMode, answers, gateVs, drainVs);
    match ResolveChannel(channel, devices)
    case Err(_) =>
    case Ok(c) =>
      if gateOn == drainOn {
        var rampDown := if gateOn then [TurnOff] else [];
        match Confirmation(safeMode, answers)
        case Err(e) =>
          assert run == Run(rampDown, Err(e));
        case Ok(_) =>
          assert run == Run(rampDown + SwitchSequence(c) + [TurnOn(gateVs, drainVs)], Ok(c));
      }
  }

  class LabSwitch {
    /** Whether the gate and the drain output of the bias supply are enabled. */
    var gateOn: bool
    var drainOn: bool
    /** The closed contacts of each side of the switch. */
    var closedA: set<int>
    var closedB: set<int>
    /** Device names and their contact numbers, filled in by the caller. */
    var devices: map<string, int>
    /** The hardware actions so far, oldest first. */
    var log: seq<Event>
    /** The ramp-up trajectories handed to the bias controller. */
    const gateVs: seq<real>
    const drainVs: seq<real>

    /** A switch in the given hardware state, with the configured ramps, no
        devices and an empty log. */
    constructor (gateOn: bool, drainOn: bool, closedA: set<int>, closedB: set<int>)
      ensures this.gateOn == gateOn && this.drainOn == drainOn
      ensures this.closedA == closedA && this.closedB == closedB
      ensures gateVs == Bias.Trajectory(Bias.GateSetpoint, Bias.Step)
      ensures drainVs == Bias.Trajectory(Bias.DrainSetpoint, Bias.Step)
      ensures devices == map[] && log == []
    {
      this.gateOn, this.drainOn := gateOn, drainOn;
      this.closedA, this.closedB := closedA, closedB;
      gateVs := Bias.Trajectory(Bias.GateSetpoint, Bias.Step);
      drainVs := Bias.Trajectory(Bias.DrainSetpoint, Bias.Step);
      devices := map[];
      log := [];
    }

    method TurnOffBias()
      modifies this`gateOn, this`drainOn, this`log
      ensures !gateOn && !drainOn && log == old(log) + [TurnOff]
    {
      gateOn, drainOn := false, false;
      log := log + [TurnOff];
    }

    method TurnOnBias()
      modifies this`gateOn, this`drainOn, this`log
      ensures gateOn && drainOn && log == old(log) + [TurnOn(gateVs, drainVs)]
    {
      gateOn, drainOn := true, true;
      log := log + [TurnOn(gateVs, drainVs)];
    }

    method DisconnectAllContacts(side: Side)
      modifies this`closedA, this`closedB, this`log
      ensures side == A ==> closedA == {} && closedB == old(closedB)
      ensures side == B ==> closedB == {} && closedA == old(closedA)
      ensures log == old(log) + [DisconnectAll(side)]
    {
      if side == A {
        closedA := {};
      } else {
        closedB := {};
      }
      log := log + [DisconnectAll(side)];
    }

    method ConnectContact(side: Side, contact: int)
      modifies this`closedA, this`closedB, this`log
      ensures side == A ==> closedA == old(closedA) + {contact} && closedB == old(closedB)
      ensures side == B ==> closedB == old(closedB) + {contact} && closedA == old(closedA)
      ensures log == old(log) + [Connect(side, contact)]
    {
      if side == A {
        closedA := closedA + {contact};
      } else {
        closedB := closedB + {contact};
      }
      log := log + [Connect(side, contact)];
    }

    method Pause()
      modifies this`log
      ensures log == old(log) + [Settle]
    {
      log := log + [Settle];
    }

    /** Opens both sides, then closes both on `contact`, pausing after each step
        but the last. */
    method OperateSwitch(contact: int)
      modifies this`closedA, this`closedB, this`log
      ensures closedA == {contact} && closedB == {contact}
      ensures log == old(log) + SwitchSequence(contact)
    {
      DisconnectAllContacts(A);
      Pause();
      DisconnectAllContacts(B);
      Pause();
      ConnectContact(A, contact);
      Pause();
      ConnectContact(B, contact);
    }

    /** Switches both sides to the contact `channel` names, with the bias off
        while the contacts move. Returns the contact number. */
    method SafeConnect(channel: ChannelArg, safeMode: bool, answers: seq<string>)
      returns (r: Result<int, SwitchError>)
      modifies this`gateOn, this`drainOn, this`closedA, this`closedB, this`log
      ensures var run := SafeConnectRun(channel, devices, old(gateOn), old(drainOn), safeMode, answers, gateVs, drainVs);
        log == old(log) + run.events && r == run.outcome &&
        (r.Ok? ==> closedA == {r.value} && closedB == {r.value} && gateOn && drainOn) &&
        (r.Err? ==> closedA == old(closedA) && closedB == old(closedB)) &&
        (r.Err? && TurnOff in run.events ==> !gateOn && !drainOn) &&
        (r.Err? && TurnOff !in run.events ==> gateOn == old(gateOn) && drainOn == old(drainOn))
    {
      var resolved := ResolveChannel(channel, devices);
      if resolved.Err? {
        return Err(resolved.error);
      }
      var channelNumber := resolved.value;

      var gateStatus, drainStatus := gateOn, drainOn;
      if gateStatus && drainStatus {
        TurnOffBias();
      } else if !gateStatus && !drainStatus {
        // already off
      } else {
        return Err(UnexpectedBias);
      }

      var confirmed := ConfirmPoweredOff(safeMode, answers);
      if confirmed.Err? {
        return Err(confirmed.error);
      }

      OperateSwitch(channelNumber);

      TurnOnBias();
      r := Ok(channelNumber);
    }
  }
}
