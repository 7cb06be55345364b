# SomArenaBattle third-person character: camera control modes

This project models the camera control-mode state machine of `ASomAB_TPCharacter`, the
third-person character of SomArenaBattle, and proves properties of it.

The character has three control types: `None`, `GTA` (an orbiting follow camera) and
`Diablo` (a fixed top-down camera).
- `SetControlMode` writes each mode's fixed configuration. This covers the character's arm
  targets and controller-yaw flag, the spring arm's flags, and the movement component's
  orientation flags and rotation rate.
- `ViewChange` (the Tab key) re-points the controller's control rotation and switches between
  GTA and Diablo. From None it re-points nothing and goes to GTA.
- `MoveForward` and `MoveRight` store the axis values as `DirectionToMove`, but only in Diablo.
- `Tick` eases the arm length in every mode except None. In Diablo it also eases the arm
  rotation, and while `DirectionToMove` is non-zero it turns the controller toward it.

The project has three modules:
- `ControlModes` (`control_modes.dfy`) states every operation as a pure function over a
  snapshot of the state (`CharacterState`). Each function's contract says what the operation
  promises.
- `Character` (`character.dfy`) is the class `TPCharacter`. Its fields are updated in place by
  methods that mirror the source statement by statement. Each method is proved to leave exactly
  the state that the matching `ControlModes` function gives.
- `InputTrace` (`input_trace.dfy`) drives the character with any sequence of engine events. It
  proves by induction what holds after any such sequence: the invariant is kept, the mode
  depends only on the Tab count, and the per-mode gating of axis input and per-frame updates
  holds.

The engine's float routines are not modelled. `FMath::FInterpTo`, `FMath::RInterpTo` and
`FRotationMatrix::MakeFromX(..).Rotator()` are fields of an `EngineMath` value passed to `Tick`,
so the gating results hold whatever those routines compute. `GetActorRotation()` is a parameter
of `ViewChange`.

## Model

| member | source | states |
|---|---|---|
| ControlModes.GTAConfig | Source/SomArenaBattle/Player/SomAB_TPCharacter.cpp:148-161 | the GTA configuration: arm target 450, pawn control rotation, inherited pitch/roll/yaw, collision test, no controller yaw, orient to movement, no desired rotation, rate (0, 720, 0); the arm rotation target is kept |
| ControlModes.DiabloConfig | Source/SomArenaBattle/Player/SomAB_TPCharacter.cpp:162-176 | the Diablo configuration: arm target 800, arm rotation target (-45, 0, 0), every arm flag off, no controller yaw, no orient to movement, desired rotation on, rate (0, 720, 0) |
| ControlModes.AfterSetControlMode | Source/SomArenaBattle/Player/SomAB_TPCharacter.cpp:140-178 | the new mode is the requested one and its configuration is in place; None changes no configuration; GTA keeps the arm rotation target; the per-frame state and the speeds are untouched |
| ControlModes.NextMode | Source/SomArenaBattle/Player/SomAB_TPCharacter.cpp:182-195 | Tab never yields None, always changes a GTA or Diablo mode, and takes None to GTA |
| ControlModes.AfterViewChange | Source/SomArenaBattle/Player/SomAB_TPCharacter.cpp:180-196 | the mode becomes the next mode with its configuration in place; the control rotation becomes the actor rotation (from GTA), the arm's relative rotation (from Diablo) or stays (from None); the arm rotation target is kept except when leaving GTA; nothing else in the per-frame state or the speeds changes |
| ControlModes.AfterMoveForward | Source/SomArenaBattle/Player/SomAB_TPCharacter.cpp:210-215 | only DirectionToMove.X can change, and only in Diablo, where it becomes the axis value |
| ControlModes.AfterMoveRight | Source/SomArenaBattle/Player/SomAB_TPCharacter.cpp:231-236 | only DirectionToMove.Y can change, and only in Diablo, where it becomes the axis value |
| ControlModes.AfterTick | Source/SomArenaBattle/Player/SomAB_TPCharacter.cpp:91-111 | only the per-frame state changes; None changes nothing; the arm length is eased in GTA and Diablo; the arm rotation only in Diablo; the controller is turned toward DirectionToMove only in Diablo with a positive squared size, so never with a zero direction; DirectionToMove is untouched |
| ControlModes.Initial | Source/SomArenaBattle/Player/SomAB_TPCharacter.cpp:16-71 | the constructed character is in GTA with the GTA configuration, arm target 450, rate (0, 720, 0) replacing the 540 set first, arm length 300, and speeds 3 and 10 |
| Character.TPCharacter.constructor | Source/SomArenaBattle/Player/SomAB_TPCharacter.cpp:16-71 | the fields after construction are `Initial(..)` and satisfy the invariant |
| Character.TPCharacter.SetControlMode | Source/SomArenaBattle/Player/SomAB_TPCharacter.cpp:140-178 | the fields after the call are `AfterSetControlMode` of the fields before |
| Character.TPCharacter.WriteGTAConfig | Source/SomArenaBattle/Player/SomAB_TPCharacter.cpp:151-160 | the configuration fields become `GTAConfig` of their old values; its frame lets no other field change |
| Character.TPCharacter.WriteDiabloConfig | Source/SomArenaBattle/Player/SomAB_TPCharacter.cpp:165-175 | the configuration fields become `DiabloConfig` of their old values; its frame lets no other field change |
| Character.TPCharacter.ViewChange | Source/SomArenaBattle/Player/SomAB_TPCharacter.cpp:180-196 | the fields after the call are `AfterViewChange` of the fields before, and the invariant is preserved |
| Character.TPCharacter.MoveForward | Source/SomArenaBattle/Player/SomAB_TPCharacter.cpp:210-215 | the fields after the call are `AfterMoveForward` of the fields before |
| Character.TPCharacter.MoveRight | Source/SomArenaBattle/Player/SomAB_TPCharacter.cpp:231-236 | the fields after the call are `AfterMoveRight` of the fields before |
| Character.TPCharacter.Tick | Source/SomArenaBattle/Player/SomAB_TPCharacter.cpp:91-111 | the fields after the call are `AfterTick` of the fields before |
| InputTrace.Step | Source/SomArenaBattle/Player/SomAB_TPCharacter.cpp:123-126 | one bound event changes the mode only on Tab, to the next mode; it keeps a configured state configured and leaves the speeds alone; events other than Tab leave the configuration alone |
| InputTrace.RunKeepsInvariant | Source/SomArenaBattle/Player/SomAB_TPCharacter.cpp:140-196 | from a state with a mode other than None, its configuration and the speeds 3 and 10, any sequence of events stays in such a state |
| InputTrace.ReachableStatesKeepInvariant | Source/SomArenaBattle/Player/SomAB_TPCharacter.cpp:67-70 | every state reached from construction by any events keeps that invariant; in particular the mode is never None again |
| InputTrace.ModeAfterRun | Source/SomArenaBattle/Player/SomAB_TPCharacter.cpp:180-196 | the mode after any events depends only on the Tab count: no Tab keeps it, an odd count gives the next mode, and an even positive count gives the next mode's next mode, which is the start mode from GTA or Diablo |
| InputTrace.NoneModeIgnoresInputs | Source/SomArenaBattle/Player/SomAB_TPCharacter.cpp:95 | in None, axis events and frames leave the whole state unchanged |
| InputTrace.GTAModeOnlyEasesArmLength | Source/SomArenaBattle/Player/SomAB_TPCharacter.cpp:95-99 | in GTA, until Tab is pressed, axis events and frames change only the arm's current length |
| InputTrace.DiabloIdleKeepsControlRotation | Source/SomArenaBattle/Player/SomAB_TPCharacter.cpp:103-107 | in Diablo with no stored direction, zero-valued axis events and frames never make Tick turn the controller or store a direction, and the mode stays Diablo |
| InputTrace.DirectionOnlyStoredInDiablo | Source/SomArenaBattle/Player/SomAB_TPCharacter.cpp:212-215 | outside Diablo, until Tab is pressed, DirectionToMove keeps its value |
| InputTrace.TabTwice | Source/SomArenaBattle/Player/SomAB_TPCharacter.cpp:180-196 | two Tabs from a configured GTA or Diablo state return to the same mode; from Diablo the configuration is unchanged; from GTA it is unchanged except that the arm rotation target is now (-45, 0, 0) |

## Left out

- The engine's float routines (`FMath::FInterpTo`, `FMath::RInterpTo`, `FRotationMatrix::MakeFromX`) are not computed. They are uninterpreted fields of `EngineMath`, and values are `real`, not 32-bit floats.
- ControlModes.AfterTick: the Diablo controller turn is stated through `X*X + Y*Y > 0`. The converse, that every non-zero direction has a positive size, is not claimed. Over 32-bit floats it is false for tiny values whose squares underflow to zero.
- `AddMovementInput` is not modelled. This covers Diablo's per-frame movement toward DirectionToMove and the GTA/None movement along the controller's yaw in MoveForward and MoveRight. It moves the pawn through the engine and changes none of the state modelled here.
- `DirectionToMove.Z` is not modelled, because the character never writes it. It is assumed to be zero. `FVector`'s default constructor does not initialise its components; the zero comes from the engine zero-filling an object's memory before its constructor runs. The character's header, where an initialiser could appear, is not part of this model.
- `GetController()` is assumed non-null in `ViewChange` and `Tick`, where the source dereferences it unchecked. The controller's control rotation is a field of the character.
- The spring arm (`MainCameraArm`), the movement component and the controller are separate engine objects. Their fields that these operations touch are held by the character, so aliasing between them is not modelled.
- Character.TPCharacter.WriteGTAConfig and Character.TPCharacter.WriteDiabloConfig: the field writes of SetControlMode's two cases are split out as helper methods, in the same order as the source.
- The `Turn`, `TurnRate`, `LookUp` and `LookUpRate` bindings, with `TurnAtRate` and `LookUpAtRate`, are left out. They turn the controller through the engine's `AddControllerYawInput` and `AddControllerPitchInput`, which changes the control rotation modelled here. They are bound at setup, in GTA mode, so they stay active in Diablo too. `InputTrace.Input` has no event for them, so the trace lemmas say nothing about look input: where they say the controller is not turned, they mean by `Tick` and `ViewChange`.
- The `Jump` binding is left out. It starts and stops the engine's jump and does not touch the control-mode state.
- `SetupPlayerInputComponent` is left out: it binds input at setup and changes no state. This includes its check that skips the turn and look-up bindings when the mode is Diablo, a check which has no effect after construction in GTA. InputTrace.Step models the events the bindings deliver.
- The mesh and animation assets, capsule size, camera attachment, turn rates, controller pitch/roll flags, `JumpZVelocity` and `AirControl` set by the constructor are left out. No control-mode operation reads them.
- `PostInitializeComponents`, `BeginPlay` and `EndPlay` only call the engine's versions and are left out.
- The player controller and game state classes are not part of this model.
