/** ASomAB_TPCharacter: the third-person character whose control-mode operations
    update its fields in place. The camera arm's, the movement component's and the
    controller's fields that these operations touch are held by the character itself. */
module Character {
  import opened ControlModes

  class TPCharacter {
    // the character
    var currentControlType: ControlType
    var armLengthTo: real
    var armRotationTo: Rotator
    var armLengthSpeed: real
    var armRotationSpeed: real
    var useControllerRotationYaw: bool
    var directionToMove: Direction
    // MainCameraArm
    var targetArmLength: real
    var relativeRotation: Rotator
    var usePawnControlRotation: bool
    var inheritPitch: bool
    var inheritRoll: bool
    var inheritYaw: bool
    var doCollisionTest: bool
    // GetCharacterMovement()
    var orientRotationToMovement: bool
    var useControllerDesiredRotation: bool
    var rotationRate: Rotator
    // GetController()
    var controlRotation: Rotator

    /** The configuration fields, read as one value. */
    function Config(): ModeConfig
      reads this
    {
      ModeConfig(
        armLengthTo := armLengthTo, armRotationTo := armRotationTo,
        usePawnControlRotation := usePawnControlRotation,
        inheritPitch := inheritPitch, inheritRoll := inheritRoll, inheritYaw := inheritYaw,
        doCollisionTest := doCollisionTest,
        useControllerRotationYaw := useControllerRotationYaw,
        orientRotationToMovement := orientRotationToMovement,
        useControllerDesiredRotation := useControllerDesiredRotation,
        rotationRate := rotationRate)
    }

    /** The per-frame fields, read as one value. */
    function MotionState(): Motion
      reads this
    {
      Motion(targetArmLength, relativeRotation, controlRotation, directionToMove)
    }

    /** All the fields, read as one value. */
    function State(): CharacterState
      reads this
    {
      CharacterState(currentControlType, Config(), MotionState(), armLengthSpeed, armRotationSpeed)
    }

    /** The constructor: the arm starts at length 300, then SetControlMode(GTA) sets
        the GTA configuration, then the two interpolation speeds are set. The
        parameters are the values the constructor never writes; the fields that
        SetControlMode(GTA) overwrites start at zero. */
    constructor (armRotationTo0: Rotator, relativeRotation0: Rotator, controlRotation0: Rotator,
                 directionToMove0: Direction)
      ensures State() == Initial(armRotationTo0, relativeRotation0, controlRotation0, directionToMove0)
      ensures Invariant(State())
    {
      currentControlType := None;
      armLengthTo := 0.0;
      armRotationTo := armRotationTo0;
      armLengthSpeed := 0.0;
      armRotationSpeed := 0.0;
      directionToMove := directionToMove0;
      relativeRotation := relativeRotation0;
      controlRotation := controlRotation0;
      inheritPitch := false;
      inheritRoll := false;
      inheritYaw := false;
      doCollisionTest := false;
      useControllerDesiredRotation := false;

      targetArmLength := 300.0;
      usePawnControlRotation := true;
      useControllerRotationYaw := false;
      orientRotationToMovement := true;
      rotationRate := Rotator(0.0, 540.0, 0.0);
      new;
      SetControlMode(GTA);
      armLengthSpeed := 3.0;
      armRotationSpeed := 10.0;
    }

    /** SetControlMode: record the mode and write its fixed configuration. */
    method SetControlMode(newControlMode: ControlType)
      modifies this
      ensures State() == AfterSetControlMode(old(State()), newControlMode)
    {
      currentControlType := newControlMode;
      match currentControlType
      case None =>
      case GTA => WriteGTAConfig();
      case Diablo => WriteDiabloConfig();
    }

    /** The field writes of SetControlMode's GTA case. */
    method WriteGTAConfig()
      modifies this`armLengthTo, this`usePawnControlRotation, this`inheritPitch, this`inheritRoll,
        this`inheritYaw, this`doCollisionTest, this`useControllerRotationYaw,
        this`orientRotationToMovement, this`useControllerDesiredRotation, this`rotationRate
      ensures Config() == GTAConfig(old(Config()))
    {
      armLengthTo := 450.0;
      usePawnControlRotation := true;
      inheritPitch := true;
      inheritRoll := true;
      inheritYaw := true;
      doCollisionTest := true;
      useControllerRotationYaw := false;
      orientRotationToMovement := true;
      useControllerDesiredRotation := false;
      rotationRate := Rotator(0.0, 720.0, 0.0);
    }

    /** The field writes of SetControlMode's Diablo case. */
    method WriteDiabloConfig()
      modifies this`armLengthTo, this`armRotationTo, this`usePawnControlRotation, this`inheritPitch,
        this`inheritRoll, this`inheritYaw, this`doCollisionTest, this`useControllerRotationYaw,
        this`orientRotationToMovement, this`useControllerDesiredRotation, this`rotationRate
      ensures Config() == DiabloConfig(old(Config()))
    {
      armLengthTo := 800.0;
      armRotationTo := Rotator(-45.0, 0.0, 0.0);
      usePawnControlRotation := false;
      inheritPitch := false;
      inheritRoll := false;
      inheritYaw := false;
      doCollisionTest := false;
      useControllerRotationYaw := false;
      orientRotationToMovement := false;
      useControllerDesiredRotation := true;
      rotationRate := Rotator(0.0, 720.0, 0.0);
    }

    /** ViewChange (the Tab key): re-point the controller, then switch mode.
        `actorRotation` is GetActorRotation(), owned by the engine. */
    method ViewChange(actorRotation: Rotator)
      modifies this
      ensures State() == AfterViewChange(old(State()), actorRotation)
      ensures Invariant(old(State())) ==> Invariant(State())
    {
      match currentControlType
      case None =>
        SetControlMode(GTA);
      case GTA =>
        controlRotation := actorRotation;
        SetControlMode(Diablo);
      case Diablo =>
        controlRotation := relativeRotation;
        SetControlMode(GTA);
    }

    /** MoveForward: in Diablo mode the axis value becomes DirectionToMove.X. */
    method MoveForward(value: real)
      modifies this
      ensures State() == AfterMoveForward(old(State()), value)
    {
      if currentControlType == Diablo {
        directionToMove := directionToMove.(x := value);
      }
    }

    /** MoveRight: in Diablo mode the axis value becomes DirectionToMove.Y. */
    method MoveRight(value: real)
      modifies this
      ensures State() == AfterMoveRight(old(State()), value)
    {
      if currentControlType == Diablo {
        directionToMove := directionToMove.(y := value);
      }
    }

    /** Tick: the per-frame camera updates that the mode allows. */
    method Tick(deltaSeconds: real, math: EngineMath)
      modifies this
      ensures State() == AfterTick(old(State()), deltaSeconds, math)
    {
      if currentControlType != None {
        targetArmLength := math.fInterpTo(targetArmLength, armLengthTo, deltaSeconds, armLengthSpeed);

        if currentControlType == Diablo {
          relativeRotation := math.rInterpTo(relativeRotation, armRotationTo, deltaSeconds, armRotationSpeed);

          if SizeSquared(directionToMove) > 0.0 {
            controlRotation := math.rotatorFromX(directionToMove);
          }
        }
      }
    }
  }
}
