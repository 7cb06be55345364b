/** The camera control modes of the third-person character and what each operation
    does to the character's state, as pure functions over a snapshot of that state.
    The class in module Character is proved against these functions. */
module ControlModes {

  /** EABControlType. */
  datatype ControlType = None | GTA | Diablo

  /** FRotator, in the order its constructor takes the angles: pitch, yaw, roll (degrees). */
  datatype Rotator = Rotator(pitch: real, yaw: real, roll: real)

  /** DirectionToMove: the raw forward (X) and right (Y) axis values of Diablo mode.
      Its Z component is never written by the character and is left out. */
  datatype Direction = Direction(x: real, y: real)

  const NoDirection := Direction(0.0, 0.0)

  // The fixed configuration values written by the constructor and by SetControlMode.
  const InitialTargetArmLength: real := 300.0
  const GTAArmLength: real := 450.0
  const DiabloArmLength: real := 800.0
  const DiabloArmRotation := Rotator(-45.0, 0.0, 0.0)
  const ModeRotationRate := Rotator(0.0, 720.0, 0.0)
  const ArmLengthSpeed: real := 3.0
  const ArmRotationSpeed: real := 10.0

  /** The fixed configuration that SetControlMode writes: the character's arm
      targets and controller-yaw flag, the camera arm's flags (MainCameraArm) and
      the movement component's (GetCharacterMovement()). */
  datatype ModeConfig = ModeConfig(
    armLengthTo: real,
    armRotationTo: Rotator,
    usePawnControlRotation: bool,
    inheritPitch: bool,
    inheritRoll: bool,
    inheritYaw: bool,
    doCollisionTest: bool,
    useControllerRotationYaw: bool,
    orientRotationToMovement: bool,
    useControllerDesiredRotation: bool,
    rotationRate: Rotator)

  /** The per-frame state: the camera arm's current length (TargetArmLength) and
      rotation (RelativeRotation), the controller's control rotation, and the axis
      values stored for Diablo mode. */
  datatype Motion = Motion(
    targetArmLength: real,
    relativeRotation: Rotator,
    controlRotation: Rotator,
    directionToMove: Direction)

  /** Everything the control-mode logic reads or writes. */
  datatype CharacterState = CharacterState(
    mode: ControlType,
    config: ModeConfig,
    motion: Motion,
    armLengthSpeed: real,
    armRotationSpeed: real)

  /** The engine's float routines that Tick calls, left uninterpreted: whatever they
      compute, the gating proved here holds. */
  datatype EngineMath = EngineMath(
    fInterpTo: (real, real, real, real) -> real,         // FMath::FInterpTo(Current, Target, DeltaTime, Speed)
    rInterpTo: (Rotator, Rotator, real, real) -> Rotator, // FMath::RInterpTo(Current, Target, DeltaTime, Speed)
    rotatorFromX: Direction -> Rotator)                   // FRotationMatrix::MakeFromX(v).Rotator()

  /** FVector::SizeSquared of DirectionToMove (its Z is zero). */
  function SizeSquared(d: Direction): real {
    d.x * d.x + d.y * d.y
  }

  /** The configuration SetControlMode(GTA) writes. */
  predicate GTAConfigured(c: ModeConfig) {
    && c.armLengthTo == GTAArmLength
    && c.usePawnControlRotation
    && c.inheritPitch && c.inheritRoll && c.inheritYaw
    && c.doCollisionTest
    && !c.useControllerRotationYaw
    && c.orientRotationToMovement
    && !c.useControllerDesiredRotation
    && c.rotationRate == ModeRotationRate
  }

  /** The configuration SetControlMode(Diablo) writes. */
  predicate DiabloConfigured(c: ModeConfig) {
    && c.armLengthTo == DiabloArmLength
    && c.armRotationTo == DiabloArmRotation
    && !c.usePawnControlRotation
    && !c.inheritPitch && !c.inheritRoll && !c.inheritYaw
    && !c.doCollisionTest
    && !c.useControllerRotationYaw
    && !c.orientRotationToMovement
    && c.useControllerDesiredRotation
    && c.rotationRate == ModeRotationRate
  }

  /** The fixed configuration of the current mode is in place (None fixes nothing). */
  predicate Configured(s: CharacterState) {
    match s.mode
    case None => true
    case GTA => GTAConfigured(s.config)
    case Diablo => DiabloConfigured(s.config)
  }

  /** What every state reachable from construction satisfies. */
  predicate Invariant(s: CharacterState) {
    && s.mode != None
    && Configured(s)
    && s.armLengthSpeed == ArmLengthSpeed
    && s.armRotationSpeed == ArmRotationSpeed
  }

  /** The writes of SetControlMode's GTA case: everything but ArmRotationTo. */
  function GTAConfig(c: ModeConfig): (r: ModeConfig)
    ensures GTAConfigured(r)
    ensures r.armRotationTo == c.armRotationTo
  {
    c.(armLengthTo := 450.0,
       usePawnControlRotation := true,
       inheritPitch := true,
       inheritRoll := true,
       inheritYaw := true,
       doCollisionTest := true,
       useControllerRotationYaw := false,
       orientRotationToMovement := true,
       useControllerDesiredRotation := false,
       rotationRate := Rotator(0.0, 720.0, 0.0))
  }

  /** The writes of SetControlMode's Diablo case: every configuration field. */
  function DiabloConfig(c: ModeConfig): (r: ModeConfig)
    ensures DiabloConfigured(r)
  {
    c.(armLengthTo := 800.0,
       armRotationTo := Rotator(-45.0, 0.0, 0.0),
       usePawnControlRotation := false,
       inheritPitch := false,
       inheritRoll := false,
       inheritYaw := false,
       doCollisionTest := false,
       useControllerRotationYaw := false,
       orientRotationToMovement := false,
       useControllerDesiredRotation := true,
       rotationRate := Rotator(0.0, 720.0, 0.0))
  }

  /** SetControlMode: record the mode, then write that mode's fixed configuration.
      None writes nothing else; GTA leaves ArmRotationTo alone; no mode touches the
      per-frame state or the speeds. */
  function AfterSetControlMode(s: CharacterState, m: ControlType): (r: CharacterState)
    ensures r.mode == m && Configured(r)
    ensures r.motion == s.motion
    ensures r.armLengthSpeed == s.armLengthSpeed && r.armRotationSpeed == s.armRotationSpeed
    ensures m == None ==> r.config == s.config
    ensures m == GTA ==> r.config.armRotationTo == s.config.armRotationTo
  {
    match m
    case None => s.(mode := None)
    case GTA => s.(mode := GTA, config := GTAConfig(s.config))
    case Diablo => s.(mode := Diablo, config := DiabloConfig(s.config))
  }

  /** The mode ViewChange switches to: never None, and GTA and Diablo swap. */
  function NextMode(m: ControlType): (r: ControlType)
    ensures r != None
    ensures m != None ==> r != m
    ensures m == None ==> r == GTA
  {
    match m
    case None => GTA
    case GTA => Diablo
    case Diablo => GTA
  }

  /** The control rotation ViewChange leaves: from GTA the actor's facing, from
      Diablo the arm's current rotation, from None the old one. */
  function ToggledControlRotation(s: CharacterState, actorRotation: Rotator): Rotator {
    match s.mode
    case None => s.motion.controlRotation
    case GTA => actorRotation
    case Diablo => s.motion.relativeRotation
  }

  /** ViewChange (Tab): re-point the control rotation, then switch to the next mode. */
  function AfterViewChange(s: CharacterState, actorRotation: Rotator): (r: CharacterState)
    ensures r.mode == NextMode(s.mode) && Configured(r)
    ensures r.motion == s.motion.(controlRotation := ToggledControlRotation(s, actorRotation))
    ensures r.armLengthSpeed == s.armLengthSpeed && r.armRotationSpeed == s.armRotationSpeed
    ensures s.mode != GTA ==> r.config.armRotationTo == s.config.armRotationTo
  {
    match s.mode
    case None => AfterSetControlMode(s, GTA)
    case GTA =>
      AfterSetControlMode(s.(motion := s.motion.(controlRotation := actorRotation)), Diablo)
    case Diablo =>
      AfterSetControlMode(s.(motion := s.motion.(controlRotation := s.motion.relativeRotation)), GTA)
  }

  /** MoveForward: in Diablo mode store the axis value as DirectionToMove.X;
      the movement input of the other modes is left out. */
  function AfterMoveForward(s: CharacterState, value: real): (r: CharacterState)
    ensures r == s.(motion := s.motion.(directionToMove := r.motion.directionToMove))
    ensures r.motion.directionToMove.y == s.motion.directionToMove.y
    ensures r.motion.directionToMove.x == if s.mode == Diablo then value else s.motion.directionToMove.x
  {
    if s.mode == Diablo then
      s.(motion := s.motion.(directionToMove := s.motion.directionToMove.(x := value)))
    else s
  }

  /** MoveRight: in Diablo mode store the axis value as DirectionToMove.Y. */
  function AfterMoveRight(s: CharacterState, value: real): (r: CharacterState)
    ensures r == s.(motion := s.motion.(directionToMove := r.motion.directionToMove))
    ensures r.motion.directionToMove.x == s.motion.directionToMove.x
    ensures r.motion.directionToMove.y == if s.mode == Diablo then value else s.motion.directionToMove.y
  {
    if s.mode == Diablo then
      s.(motion := s.motion.(directionToMove := s.motion.directionToMove.(y := value)))
    else s
  }

  /** Tick: the mode decides which camera updates happen. None updates nothing; GTA
      only eases the arm length; Diablo also eases the arm rotation and, while
      DirectionToMove has a positive size, turns the controller toward it. */
  function AfterTick(s: CharacterState, deltaSeconds: real, math: EngineMath): (r: CharacterState)
    ensures r == s.(motion := r.motion)
    ensures r.motion.directionToMove == s.motion.directionToMove
    ensures s.mode == None ==> r == s
    ensures r.motion.targetArmLength ==
      if s.mode == None then s.motion.targetArmLength
      else math.fInterpTo(s.motion.targetArmLength, s.config.armLengthTo, deltaSeconds, s.armLengthSpeed)
    ensures r.motion.relativeRotation ==
      if s.mode == Diablo
      then math.rInterpTo(s.motion.relativeRotation, s.config.armRotationTo, deltaSeconds, s.armRotationSpeed)
      else s.motion.relativeRotation
    ensures r.motion.controlRotation ==
      if s.mode == Diablo && SizeSquared(s.motion.directionToMove) > 0.0
      then math.rotatorFromX(s.motion.directionToMove)
      else s.motion.controlRotation
    ensures s.motion.directionToMove == NoDirection ==> r.motion.controlRotation == s.motion.controlRotation
  {
    if s.mode == None then s
    else
      var m := s.motion.(targetArmLength :=
        math.fInterpTo(s.motion.targetArmLength, s.config.armLengthTo, deltaSeconds, s.armLengthSpeed));
      if s.mode != Diablo then s.(motion := m)
      else
        var m := m.(relativeRotation :=
          math.rInterpTo(m.relativeRotation, s.config.armRotationTo, deltaSeconds, s.armRotationSpeed));
        if SizeSquared(m.directionToMove) > 0.0
        then s.(motion := m.(controlRotation := math.rotatorFromX(m.directionToMove)))
        else s.(motion := m)
  }

  /** The state the constructor leaves. The four parameters are the values it never
      writes; everything else it writes itself or through SetControlMode(GTA), which
      also overrides the rotation rate of 540 it set first. */
  function Initial(armRotationTo: Rotator, relativeRotation: Rotator, controlRotation: Rotator,
                   directionToMove: Direction): (r: CharacterState)
    ensures r.mode == GTA && Invariant(r)
    ensures r.config.armLengthTo == GTAArmLength && r.config.rotationRate == ModeRotationRate
    ensures r.config.armRotationTo == armRotationTo
    ensures r.motion == Motion(InitialTargetArmLength, relativeRotation, controlRotation, directionToMove)
  {
    var constructed := CharacterState(
      mode := None,
      config := ModeConfig(
        armLengthTo := 0.0, armRotationTo := armRotationTo,
        usePawnControlRotation := true,
        inheritPitch := false, inheritRoll := false, inheritYaw := false, doCollisionTest := false,
        useControllerRotationYaw := false,
        orientRotationToMovement := true, useControllerDesiredRotation := false,
        rotationRate := Rotator(0.0, 540.0, 0.0)),
      motion := Motion(300.0, relativeRotation, controlRotation, directionToMove),
      armLengthSpeed := 0.0, armRotationSpeed := 0.0);
    AfterSetControlMode(constructed, GTA).(armLengthSpeed := 3.0, armRotationSpeed := 10.0)
  }
}
