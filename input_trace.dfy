/** The character driven by a sequence of engine events: the Tab key (ViewChange),
    the MoveForward and MoveRight axis bindings, and frames (Tick). The Turn and
    LookUp bindings, which turn the controller through the engine, are not events
    here. The lemmas state what holds after any such sequence, by induction on it. */
module InputTrace {
  import opened ControlModes

  /** One event the engine delivers to the character. `actorRotation` is what
      GetActorRotation() returns when Tab is pressed. */
  datatype Input =
    | Tab(actorRotation: Rotator)
    | ForwardAxis(value: real)
    | RightAxis(value: real)
    | Frame(deltaSeconds: real)

  /** The handler the engine calls for one event. */
  function Step(s: CharacterState, i: Input, math: EngineMath): (r: CharacterState)
    ensures r.mode == if i.Tab? then NextMode(s.mode) else s.mode
    ensures Configured(s) ==> Configured(r)
    ensures r.armLengthSpeed == s.armLengthSpeed && r.armRotationSpeed == s.armRotationSpeed
    ensures !i.Tab? ==> r.config == s.config
  {
    match i
    case Tab(actorRotation) => AfterViewChange(s, actorRotation)
    case ForwardAxis(value) => AfterMoveForward(s, value)
    case RightAxis(value) => AfterMoveRight(s, value)
    case Frame(deltaSeconds) => AfterTick(s, deltaSeconds, math)
  }

  /** The state after the engine delivers `inputs` in order. */
  function Run(s: CharacterState, inputs: seq<Input>, math: EngineMath): CharacterState
    decreases |inputs|
  {
    if |inputs| == 0 then s else Run(Step(s, inputs[0], math), inputs[1..], math)
  }

  /** How many times Tab is pressed in `inputs`. */
  function TabCount(inputs: seq<Input>): nat
    decreases |inputs|
  {
    if |inputs| == 0 then 0
    else (if inputs[0].Tab? then 1 else 0) + TabCount(inputs[1..])
  }

  /** No Tab in `inputs`. */
  predicate NoTab(inputs: seq<Input>) {
    forall k :: 0 <= k < |inputs| ==> !inputs[k].Tab?
  }

  /** Every state the character can reach from construction keeps the invariant:
      a mode other than None, that mode's fixed configuration, and the two speeds. */
  lemma {:induction false} RunKeepsInvariant(s: CharacterState, inputs: seq<Input>, math: EngineMath)
    requires Invariant(s)
    ensures Invariant(Run(s, inputs, math))
    decreases |inputs|
  {
    if |inputs| > 0 {
      RunKeepsInvariant(Step(s, inputs[0], math), inputs[1..], math);
    }
  }

  /** The constructed character, driven by any events, never leaves its invariant. */
  lemma ReachableStatesKeepInvariant(armRotationTo: Rotator, relativeRotation: Rotator,
                                     controlRotation: Rotator, directionToMove: Direction,
                                     inputs: seq<Input>, math: EngineMath)
    ensures Invariant(Run(Initial(armRotationTo, relativeRotation, controlRotation, directionToMove),
                          inputs, math))
  {
    RunKeepsInvariant(Initial(armRotationTo, relativeRotation, controlRotation, directionToMove),
                      inputs, math);
  }

  /** The mode after any events depends only on how many times Tab was pressed:
      from GTA or Diablo, an even count returns to the start mode and an odd count
      gives the other one; from None, the first Tab gives GTA. */
  lemma {:induction false} ModeAfterRun(s: CharacterState, inputs: seq<Input>, math: EngineMath)
    ensures Run(s, inputs, math).mode ==
      if TabCount(inputs) == 0 then s.mode
      else if TabCount(inputs) % 2 == 0 then NextMode(NextMode(s.mode))
      else NextMode(s.mode)
    decreases |inputs|
  {
    if |inputs| > 0 {
      ModeAfterRun(Step(s, inputs[0], math), inputs[1..], math);
    }
  }

  /** In mode None nothing but Tab has any effect: the axis handlers and the frames
      leave the whole state unchanged. */
  lemma {:induction false} NoneModeIgnoresInputs(s: CharacterState, inputs: seq<Input>, math: EngineMath)
    requires s.mode == None
    requires NoTab(inputs)
    ensures Run(s, inputs, math) == s
    decreases |inputs|
  {
    if |inputs| > 0 {
      assert !inputs[0].Tab?;
      NoneModeIgnoresInputs(Step(s, inputs[0], math), inputs[1..], math);
    }
  }

  /** In GTA mode, until Tab is pressed, only the arm length changes: the axis
      values are not stored, the arm rotation is not eased and Tick does not turn
      the controller. Look input is not an `Input`, so nothing is said about it. */
  lemma {:induction false} GTAModeOnlyEasesArmLength(s: CharacterState, inputs: seq<Input>, math: EngineMath)
    requires s.mode == GTA
    requires NoTab(inputs)
    ensures Run(s, inputs, math) ==
      s.(motion := s.motion.(targetArmLength := Run(s, inputs, math).motion.targetArmLength))
    decreases |inputs|
  {
    if |inputs| > 0 {
      assert !inputs[0].Tab?;
      GTAModeOnlyEasesArmLength(Step(s, inputs[0], math), inputs[1..], math);
    }
  }

  /** Every axis event of `inputs` carries the value zero. */
  predicate AxesIdle(inputs: seq<Input>) {
    forall k :: 0 <= k < |inputs| ==> (inputs[k].ForwardAxis? || inputs[k].RightAxis?) ==> inputs[k].value == 0.0
  }

  /** In Diablo mode with no direction stored, while the sticks stay at zero and
      Tab is not pressed, Tick never turns the controller and no direction is
      stored; only the arm eases. Look input is not an `Input`, so nothing is said
      about it. */
  lemma {:induction false} DiabloIdleKeepsControlRotation(s: CharacterState, inputs: seq<Input>,
                                                         math: EngineMath)
    requires s.mode == Diablo
    requires s.motion.directionToMove == NoDirection
    requires NoTab(inputs) && AxesIdle(inputs)
    ensures Run(s, inputs, math).motion.controlRotation == s.motion.controlRotation
    ensures Run(s, inputs, math).motion.directionToMove == NoDirection
    ensures Run(s, inputs, math).mode == Diablo
    decreases |inputs|
  {
    if |inputs| > 0 {
      assert !inputs[0].Tab?;
      assert AxesIdle(inputs[1..]) by {
        forall k | 0 <= k < |inputs[1..]|
          ensures (inputs[1..][k].ForwardAxis? || inputs[1..][k].RightAxis?) ==> inputs[1..][k].value == 0.0
        {
          assert inputs[1..][k] == inputs[k + 1];
        }
      }
      DiabloIdleKeepsControlRotation(Step(s, inputs[0], math), inputs[1..], math);
    }
  }

  /** Outside Diablo mode, until Tab is pressed, DirectionToMove keeps its value:
      the axis handlers store nothing. */
  lemma {:induction false} DirectionOnlyStoredInDiablo(s: CharacterState, inputs: seq<Input>, math: EngineMath)
    requires s.mode != Diablo
    requires NoTab(inputs)
    ensures Run(s, inputs, math).motion.directionToMove == s.motion.directionToMove
    decreases |inputs|
  {
    if |inputs| > 0 {
      assert !inputs[0].Tab?;
      DirectionOnlyStoredInDiablo(Step(s, inputs[0], math), inputs[1..], math);
    }
  }

  /** Pressing Tab twice from a configured GTA or Diablo state returns to the same
      mode and configuration, except that leaving Diablo keeps its arm rotation
      target: from GTA the arm rotation target ends at (-45, 0, 0). */
  lemma TabTwice(s: CharacterState, first: Rotator, second: Rotator)
    requires s.mode != None && Configured(s)
    ensures AfterViewChange(AfterViewChange(s, first), second).mode == s.mode
    ensures s.mode == Diablo ==> AfterViewChange(AfterViewChange(s, first), second).config == s.config
    ensures s.mode == GTA ==>
      AfterViewChange(AfterViewChange(s, first), second).config == s.config.(armRotationTo := DiabloArmRotation)
  {
  }
}
