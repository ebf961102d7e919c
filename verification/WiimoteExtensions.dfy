/**
  The Nunchuk handshake: a status report announcing an extension starts two
  register writes and a read, each waiting for the Wiimote's answer.
 */
module WiimoteExtensions {
  import opened Common

  const REG_INIT_1 := 0xA400F0
  const REG_INIT_2 := 0xA400FB
  const REG_TYPE := 0xA400FA

  datatype Stage = Init | WaitAckOutReport | WaitReadControllerType | WaitReadResponse

  /** What a report makes the driver do, in order. */
  datatype Action =
    | SetBattery(raw: u8)
    | WriteRegister(offset: u32, value: u8)
    | ReadRegister(address: u32, size: u8)
    | SetNunchuk(connected: bool)
    | SetReportingMode(mode: u8)

  datatype Result = Result(stage: Stage, actions: seq<Action>)

  predicate IsAck(data: seq<u8>)
    requires |data| >= 8
  {
    data[1] == 0x22 && data[4] == 0x16
  }

  /** A read answer from register 0xA400FA. */
  predicate AnswersTypeRead(data: seq<u8>)
    requires |data| >= 13
  {
    data[1] == 0x21 && data[5..7] == [0x00, 0xFA]
  }

  predicate NamesNunchuk(data: seq<u8>)
    requires |data| >= 13
  {
    data[7..13] == [0x00, 0x00, 0xA4, 0x20, 0x00, 0x00]
  }

  function HandleReport(stage: Stage, data: seq<u8>, useAccelerometer: bool): Result {
    if |data| < 8 then Result(stage, [])
    else match stage
      case Init =>
        if data[1] != 0x20 then Result(stage, [])
        else if data[4] / 2 % 2 == 1 then
          Result(WaitAckOutReport, [SetBattery(data[7]), WriteRegister(REG_INIT_1, 0x55)])
        else
          Result(Init, [SetBattery(data[7]), SetNunchuk(false),
                        SetReportingMode(if useAccelerometer then 0x31 else 0x30)])
      case WaitAckOutReport =>
        if !IsAck(data) then Result(stage, [])
        else if data[5] == 0 then Result(WaitReadControllerType, [WriteRegister(REG_INIT_2, 0x00)])
        else Result(Init, [])
      case WaitReadControllerType =>
        if !IsAck(data) then Result(stage, [])
        else if data[5] == 0 then Result(WaitReadResponse, [ReadRegister(REG_TYPE, 6)])
        else Result(Init, [])
      case WaitReadResponse =>
        if |data| < 13 || !AnswersTypeRead(data) then Result(stage, [])
        else if NamesNunchuk(data) then
          Result(Init, [SetNunchuk(true), SetReportingMode(if useAccelerometer then 0x35 else 0x32)])
        else Result(Init, [])
  }

  class Extensions {
    var stage: Stage
    var useAccelerometer: bool
    var nunchukConnected: bool
    ghost var actions: seq<Action>

    constructor ()
      ensures stage == Init && actions == [] && !nunchukConnected && useAccelerometer
    {
      stage, useAccelerometer, nunchukConnected := Init, true, false;
      actions := [];
    }

    method Initialize()
      modifies this`stage
      ensures stage == Init
    {
      stage := Init;
    }

    method DoAction(action: Action)
      modifies this`actions, this`nunchukConnected
      ensures actions == old(actions) + [action]
      ensures nunchukConnected == if action.SetNunchuk? then action.connected else old(nunchukConnected)
    {
      if action.SetNunchuk? {
        nunchukConnected := action.connected;
      }
      actions := actions + [action];
    }

    method Handle(data: seq<u8>)
      modifies this
      ensures var r := HandleReport(old(stage), data, old(useAccelerometer));
              stage == r.stage && actions == old(actions) + r.actions
      ensures useAccelerometer == old(useAccelerometer)
      ensures var done := HandleReport(old(stage), data, useAccelerometer).actions;
              nunchukConnected == if SetNunchuk(true) in done then true
                                  else if SetNunchuk(false) in done then false else old(nunchukConnected)
    {
      if |data| < 8 {
        return;
      }
      match stage
      case Init =>
        if data[1] == 0x20 {
          DoAction(SetBattery(data[7]));
          if data[4] / 2 % 2 == 1 {
            DoAction(WriteRegister(REG_INIT_1, 0x55));
            stage := WaitAckOutReport;
          } else {
            DoAction(SetNunchuk(false));
            DoAction(SetReportingMode(if useAccelerometer then 0x31 else 0x30));
          }
        }
      case WaitAckOutReport =>
        if data[1] == 0x22 && data[4] == 0x16 {
          if data[5] == 0x00 {
            DoAction(WriteRegister(REG_INIT_2, 0x00));
            stage := WaitReadControllerType;
          } else {
            stage := Init;
          }
        }
      case WaitReadControllerType =>
        if data[1] == 0x22 && data[4] == 0x16 {
          if data[5] == 0x00 {
            DoAction(ReadRegister(REG_TYPE, 6));
            stage := WaitReadResponse;
          } else {
            stage := Init;
          }
        }
      case WaitReadResponse =>
        if |data| < 13 {
          return;
        }
        if data[1] == 0x21 {
          if data[5..7] == [0x00, 0xFA] {
            if data[7..13] == [0x00, 0x00, 0xA4, 0x20, 0x00, 0x00] {
              DoAction(SetNunchuk(true));
              DoAction(SetReportingMode(if useAccelerometer then 0x35 else 0x32));
            }
            stage := Init;
          }
        }
    }
  }

  // ----- the order of a handshake -----

  /** A report with the accelerometer setting at the time, or a re-initialisation. */
  datatype Input = Report(data: seq<u8>, useAccelerometer: bool) | Reinit

  function Step(stage: Stage, i: Input): Result {
    match i
    case Report(data, useAccelerometer) => HandleReport(stage, data, useAccelerometer)
    case Reinit => Result(Init, [])
  }

  function Run(inputs: seq<Input>): Result {
    if inputs == [] then Result(Init, [])
    else
      var before := Run(inputs[..|inputs| - 1]);
      var r := Step(before.stage, inputs[|inputs| - 1]);
      Result(r.stage, before.actions + r.actions)
  }

  /** The handshake's own actions; the rest do not matter for its order. */
  predicate IsHandshake(a: Action) {
    a.WriteRegister? || a.ReadRegister? || a == SetNunchuk(true)
  }

  /** The handshake action before position `k`, if any. */
  function Previous(actions: seq<Action>, k: nat): Option<Action>
    requires k <= |actions|
  {
    if k == 0 then None
    else if IsHandshake(actions[k - 1]) then Some(actions[k - 1])
    else Previous(actions, k - 1)
  }

  /** Each action of the chain F0, FB, FA, connected comes right after the one before it. */
  predicate InOrder(actions: seq<Action>, k: nat)
    requires k < |actions|
  {
    match actions[k]
    case WriteRegister(offset, value) =>
      || (offset == REG_INIT_1 && value == 0x55)
      || (offset == REG_INIT_2 && value == 0x00 && Previous(actions, k) == Some(WriteRegister(REG_INIT_1, 0x55)))
    case ReadRegister(address, size) =>
      address == REG_TYPE && size == 6 && Previous(actions, k) == Some(WriteRegister(REG_INIT_2, 0x00))
    case SetNunchuk(connected) => connected ==> Previous(actions, k) == Some(ReadRegister(REG_TYPE, 6))
    case _ => true
  }

  /** What was done last in each waiting stage. */
  predicate StageFits(stage: Stage, actions: seq<Action>) {
    match stage
    case Init => true
    case WaitAckOutReport => Previous(actions, |actions|) == Some(WriteRegister(REG_INIT_1, 0x55))
    case WaitReadControllerType => Previous(actions, |actions|) == Some(WriteRegister(REG_INIT_2, 0x00))
    case WaitReadResponse => Previous(actions, |actions|) == Some(ReadRegister(REG_TYPE, 6))
  }

  predicate Ordered(actions: seq<Action>) {
    forall k :: 0 <= k < |actions| ==> InOrder(actions, k)
  }

  lemma {:induction false} PreviousOfExtended(a: seq<Action>, b: seq<Action>, k: nat)
    requires k <= |a|
    ensures Previous(a + b, k) == Previous(a, k)
    decreases k
  {
    if k > 0 {
      PreviousOfExtended(a, b, k - 1);
    }
  }

  lemma OrderedAppend(actions: seq<Action>, a: Action)
    requires Ordered(actions)
    requires match a
             case WriteRegister(offset, value) =>
               || (offset == REG_INIT_1 && value == 0x55)
               || (offset == REG_INIT_2 && value == 0x00
                   && Previous(actions, |actions|) == Some(WriteRegister(REG_INIT_1, 0x55)))
             case ReadRegister(address, size) =>
               address == REG_TYPE && size == 6
               && Previous(actions, |actions|) == Some(WriteRegister(REG_INIT_2, 0x00))
             case SetNunchuk(connected) => connected ==> Previous(actions, |actions|) == Some(ReadRegister(REG_TYPE, 6))
             case _ => true
    ensures Ordered(actions + [a])
    ensures Previous(actions + [a], |actions| + 1) == if IsHandshake(a) then Some(a) else Previous(actions, |actions|)
  {
    var t := actions + [a];
    PreviousOfExtended(actions, [a], |actions|);
    forall k | 0 <= k < |t|
      ensures InOrder(t, k)
    {
      if k < |actions| {
        assert InOrder(actions, k);
        PreviousOfExtended(actions, [a], k);
      }
    }
  }

  lemma StepOrdered(stage: Stage, actions: seq<Action>, i: Input)
    requires Ordered(actions) && StageFits(stage, actions)
    ensures var r := Step(stage, i);
            Ordered(actions + r.actions) && StageFits(r.stage, actions + r.actions)
  {
    var r := Step(stage, i);
    var n := |r.actions|;
    if n == 0 {
      assert actions + r.actions == actions;
    } else {
      OrderedAppend(actions, r.actions[0]);
      var one := actions + [r.actions[0]];
      if n == 1 {
        assert actions + r.actions == one;
      } else {
        OrderedAppend(one, r.actions[1]);
        var two := one + [r.actions[1]];
        if n == 2 {
          assert actions + r.actions == two;
        } else {
          OrderedAppend(two, r.actions[2]);
          assert actions + r.actions == two + [r.actions[2]];
        }
      }
    }
  }

  /**
    In every run of reports, re-initialisations included, each write of 0xA400FB
    follows a write of 0xA400F0, each read of 0xA400FA follows a write of
    0xA400FB, and the Nunchuk counts as connected only after such a read, with no
    other step of a handshake in between.
   */
  lemma {:induction false} HandshakeInOrder(inputs: seq<Input>)
    ensures Ordered(Run(inputs).actions) && StageFits(Run(inputs).stage, Run(inputs).actions)
  {
    if inputs != [] {
      var before := Run(inputs[..|inputs| - 1]);
      HandshakeInOrder(inputs[..|inputs| - 1]);
      StepOrdered(before.stage, before.actions, inputs[|inputs| - 1]);
    }
  }

  // ----- what each report leads to, told by its bytes -----

  /** A status report, saying whether an extension is attached. */
  predicate StatusReport(data: seq<u8>, attached: bool) {
    |data| >= 8 && data[1] == 0x20 && (data[4] / 2 % 2 == 1) == attached
  }

  /** The acknowledgement of a register write, good or bad. */
  predicate Acknowledgement(data: seq<u8>, good: bool) {
    |data| >= 8 && data[1] == 0x22 && data[4] == 0x16 && (data[5] == 0x00) == good
  }

  /** The answer to the read of 0xA400FA, naming the Nunchuk or something else. */
  predicate TypeAnswer(data: seq<u8>, nunchuk: bool) {
    && |data| >= 13 && data[1] == 0x21 && data[5] == 0x00 && data[6] == 0xFA
    && (data[7..13] == [0x00, 0x00, 0xA4, 0x20, 0x00, 0x00]) == nunchuk
  }

  /** A handshake starts exactly with a status report that announces an extension, and one that does not disconnects. */
  lemma HandshakeStartsIff(stage: Stage, data: seq<u8>, useAccelerometer: bool)
    ensures var actions := HandleReport(stage, data, useAccelerometer).actions;
            && (WriteRegister(0xA400F0, 0x55) in actions <==> stage.Init? && StatusReport(data, true))
            && (SetNunchuk(false) in actions <==> stage.Init? && StatusReport(data, false))
            && (forall b :: SetBattery(b) in actions <==>
                  stage.Init? && (StatusReport(data, true) || StatusReport(data, false)) && b == data[7])
  {
    var actions := HandleReport(stage, data, useAccelerometer).actions;
    if stage.Init? && |data| >= 8 && data[1] == 0x20 {
      assert actions[0] == SetBattery(data[7]);
      assert actions[1] == if StatusReport(data, true) then WriteRegister(0xA400F0, 0x55) else SetNunchuk(false);
    }
  }

  /** It goes on exactly with a good acknowledgement of the write before. */
  lemma HandshakeGoesOnIff(stage: Stage, data: seq<u8>, useAccelerometer: bool)
    ensures var actions := HandleReport(stage, data, useAccelerometer).actions;
            && (WriteRegister(0xA400FB, 0x00) in actions <==>
                  stage.WaitAckOutReport? && Acknowledgement(data, true))
            && (ReadRegister(0xA400FA, 6) in actions <==>
                  stage.WaitReadControllerType? && Acknowledgement(data, true))
  {
    var actions := HandleReport(stage, data, useAccelerometer).actions;
    assert |data| >= 8 && Acknowledgement(data, true) && stage.WaitAckOutReport? ==>
             actions[0] == WriteRegister(0xA400FB, 0x00);
    assert |data| >= 8 && Acknowledgement(data, true) && stage.WaitReadControllerType? ==>
             actions[0] == ReadRegister(0xA400FA, 6);
  }

  /** It ends exactly with a bad acknowledgement, or with an answer about the type. */
  lemma HandshakeEndsIff(stage: Stage, data: seq<u8>, useAccelerometer: bool)
    requires !stage.Init?
    ensures HandleReport(stage, data, useAccelerometer).stage.Init? <==>
            if stage.WaitReadResponse? then TypeAnswer(data, true) || TypeAnswer(data, false)
            else Acknowledgement(data, false)
  {
    if |data| >= 13 {
      assert data[5..7] == [data[5], data[6]];
    }
  }

  /** The Nunchuk is marked connected exactly by a read answer for 0xA400FA that names it, while one is awaited. */
  lemma ConnectedIff(stage: Stage, data: seq<u8>, useAccelerometer: bool)
    ensures SetNunchuk(true) in HandleReport(stage, data, useAccelerometer).actions <==>
            stage == WaitReadResponse && TypeAnswer(data, true)
  {
    if |data| >= 13 {
      assert data[5..7] == [data[5], data[6]];
    }
    if stage == WaitReadResponse && TypeAnswer(data, true) {
      assert HandleReport(stage, data, useAccelerometer).actions[0] == SetNunchuk(true);
    }
  }

  /** The reporting mode is set exactly when the Nunchuk comes or goes, and tells it and the accelerometer. */
  lemma ModeFollows(stage: Stage, data: seq<u8>, useAccelerometer: bool, mode: u8)
    ensures SetReportingMode(mode) in HandleReport(stage, data, useAccelerometer).actions <==>
            || (stage.Init? && StatusReport(data, false) && mode == (if useAccelerometer then 0x31 else 0x30))
            || (stage.WaitReadResponse? && TypeAnswer(data, true) && mode == (if useAccelerometer then 0x35 else 0x32))
  {
    var actions := HandleReport(stage, data, useAccelerometer).actions;
    if |data| >= 13 {
      assert data[5..7] == [data[5], data[6]];
    }
    if stage.Init? && StatusReport(data, false) {
      assert actions[2] == SetReportingMode(if useAccelerometer then 0x31 else 0x30);
    } else if stage.WaitReadResponse? && TypeAnswer(data, true) {
      assert actions[1] == SetReportingMode(if useAccelerometer then 0x35 else 0x32);
    }
  }

  // ----- progress -----

  /** A report that a waiting stage passes over. */
  predicate Foreign(stage: Stage, i: Input) {
    && i.Report?
    && match stage
       case Init => !StatusReport(i.data, true) && !StatusReport(i.data, false)
       case WaitReadResponse => !TypeAnswer(i.data, true) && !TypeAnswer(i.data, false)
       case _ => !Acknowledgement(i.data, true) && !Acknowledgement(i.data, false)
  }

  lemma ForeignIsIgnored(stage: Stage, i: Input)
    requires Foreign(stage, i)
    ensures Step(stage, i) == Result(stage, [])
  {
    if stage.WaitReadResponse? && |i.data| >= 13 {
      assert i.data[5..7] == [i.data[5], i.data[6]];
    }
  }

  lemma RunStep(inputs: seq<Input>, i: Input)
    ensures var before := Run(inputs);
            var r := Step(before.stage, i);
            Run(inputs + [i]) == Result(r.stage, before.actions + r.actions)
  {
    assert (inputs + [i])[..|inputs|] == inputs;
  }

  lemma {:induction false} NoiseIsIgnored(inputs: seq<Input>, noise: seq<Input>)
    requires forall k :: 0 <= k < |noise| ==> Foreign(Run(inputs).stage, noise[k])
    ensures Run(inputs + noise) == Run(inputs)
    decreases |noise|
  {
    if noise == [] {
      assert inputs + noise == inputs;
    } else {
      var rest, last := noise[..|noise| - 1], noise[|noise| - 1];
      NoiseIsIgnored(inputs, rest);
      ForeignIsIgnored(Run(inputs).stage, last);
      RunStep(inputs + rest, last);
      assert inputs + rest + [last] == inputs + noise;
      assert Run(inputs).actions + [] == Run(inputs).actions;
    }
  }

  /** One report that moves the handshake on, after any foreign ones. */
  lemma MovesOn(inputs: seq<Input>, noise: seq<Input>, i: Input, r: Result)
    requires forall k :: 0 <= k < |noise| ==> Foreign(Run(inputs).stage, noise[k])
    requires Step(Run(inputs).stage, i) == r
    ensures Run(inputs + noise + [i]) == Result(r.stage, Run(inputs).actions + r.actions)
  {
    NoiseIsIgnored(inputs, noise);
    RunStep(inputs + noise, i);
  }

  /** Reports that answer the handshake of a Nunchuk, each after any that are foreign to the stage. */
  datatype Answers = Answers(status: seq<u8>, noise1: seq<Input>, ack1: seq<u8>, noise2: seq<Input>, ack2: seq<u8>,
                             noise3: seq<Input>, answer: seq<u8>)

  predicate Complete(a: Answers) {
    && StatusReport(a.status, true) && Acknowledgement(a.ack1, true) && Acknowledgement(a.ack2, true)
    && TypeAnswer(a.answer, true)
    && (forall k :: 0 <= k < |a.noise1| ==> Foreign(WaitAckOutReport, a.noise1[k]))
    && (forall k :: 0 <= k < |a.noise2| ==> Foreign(WaitReadControllerType, a.noise2[k]))
    && (forall k :: 0 <= k < |a.noise3| ==> Foreign(WaitReadResponse, a.noise3[k]))
  }

  function Inputs(a: Answers, useAccelerometer: bool): seq<Input> {
    [Report(a.status, useAccelerometer)]
    + a.noise1 + [Report(a.ack1, useAccelerometer)]
    + a.noise2 + [Report(a.ack2, useAccelerometer)]
    + a.noise3 + [Report(a.answer, useAccelerometer)]
  }

  lemma StepsTaken(a: Answers, useAccelerometer: bool)
    requires Complete(a)
    ensures Step(Init, Report(a.status, useAccelerometer))
         == Result(WaitAckOutReport, [SetBattery(a.status[7]), WriteRegister(0xA400F0, 0x55)])
    ensures Step(WaitAckOutReport, Report(a.ack1, useAccelerometer))
         == Result(WaitReadControllerType, [WriteRegister(0xA400FB, 0x00)])
    ensures Step(WaitReadControllerType, Report(a.ack2, useAccelerometer))
         == Result(WaitReadResponse, [ReadRegister(0xA400FA, 6)])
    ensures Step(WaitReadResponse, Report(a.answer, useAccelerometer))
         == Result(Init, [SetNunchuk(true), SetReportingMode(if useAccelerometer then 0x35 else 0x32)])
  {
    assert a.answer[5..7] == [0x00, 0xFA];
  }

  lemma InputsRegroup(before: seq<Input>, a: Answers, useAccelerometer: bool)
    ensures before + [] + [Report(a.status, useAccelerometer)]
            + a.noise1 + [Report(a.ack1, useAccelerometer)]
            + a.noise2 + [Report(a.ack2, useAccelerometer)]
            + a.noise3 + [Report(a.answer, useAccelerometer)] == before + Inputs(a, useAccelerometer)
  {
  }

  lemma ActionsRegroup(acts: seq<Action>, a: Answers, useAccelerometer: bool)
    requires Complete(a)
    ensures acts + [SetBattery(a.status[7]), WriteRegister(0xA400F0, 0x55)] + [WriteRegister(0xA400FB, 0x00)]
            + [ReadRegister(0xA400FA, 6)]
            + [SetNunchuk(true), SetReportingMode(if useAccelerometer then 0x35 else 0x32)]
         == acts + [SetBattery(a.status[7]), WriteRegister(0xA400F0, 0x55), WriteRegister(0xA400FB, 0x00),
                    ReadRegister(0xA400FA, 6), SetNunchuk(true),
                    SetReportingMode(if useAccelerometer then 0x35 else 0x32)]
  {
  }

  /**
    From any run that left the driver in its first stage, a status report that
    announces an extension, two good acknowledgements and an answer naming the
    Nunchuk end connected and in the first stage, with exactly the handshake's
    writes and read, whatever short or foreign reports come between.
   */
  lemma HandshakeCompletes(before: seq<Input>, a: Answers, useAccelerometer: bool)
    requires Run(before).stage.Init? && Complete(a)
    ensures Run(before + Inputs(a, useAccelerometer))
         == Result(Init, Run(before).actions
                         + [SetBattery(a.status[7]), WriteRegister(0xA400F0, 0x55), WriteRegister(0xA400FB, 0x00),
                            ReadRegister(0xA400FA, 6), SetNunchuk(true),
                            SetReportingMode(if useAccelerometer then 0x35 else 0x32)])
  {
    StepsTaken(a, useAccelerometer);
    var r1 := before + [] + [Report(a.status, useAccelerometer)];
    MovesOn(before, [], Report(a.status, useAccelerometer), Step(Init, Report(a.status, useAccelerometer)));
    var r2 := r1 + a.noise1 + [Report(a.ack1, useAccelerometer)];
    MovesOn(r1, a.noise1, Report(a.ack1, useAccelerometer), Step(WaitAckOutReport, Report(a.ack1, useAccelerometer)));
    var r3 := r2 + a.noise2 + [Report(a.ack2, useAccelerometer)];
    MovesOn(r2, a.noise2, Report(a.ack2, useAccelerometer),
            Step(WaitReadControllerType, Report(a.ack2, useAccelerometer)));
    MovesOn(r3, a.noise3, Report(a.answer, useAccelerometer),
            Step(WaitReadResponse, Report(a.answer, useAccelerometer)));
    InputsRegroup(before, a, useAccelerometer);
    ActionsRegroup(Run(before).actions, a, useAccelerometer);
  }
}
