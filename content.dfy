/** Authored weapon content: the action records of a projectile descriptor,
    spawn descriptors and the shared, read-only projectile descriptor
    (`proj_t`). */
module Content {
  import opened Base

  /** `Proj_ActionType` (the out-of-range bounds `__PJ_LBOUND` and
      `__PJ_UBOUND` have no constructor). */
  datatype ActionType =
    | Explode | Bounce | Carve | Dirt | GreenDirt | Disappear2 | Injure
    | Disappear | GoThrough | Nothing | InjureProj | PlaySound

  /** `Proj_Type`: the shape used for terrain and projectile overlap. */
  datatype ShapeKind = Circle | Box

  datatype AnimType = AnimOnce | AnimLoop | AnimPingPong

  type SoundId = nat

  /** `Proj_SpawnInfo`: how to spawn a batch of child projectiles. */
  datatype SpawnInfo = SpawnInfo(
    amount: int,
    angle: int,
    useAngle: bool,
    spread: int,
    speed: int,
    speedVar: int,
    useSpecial11VecForSpeedVar: bool,
    useParentVelocityForSpread: bool,
    parentVelSpreadFactor: real,
    addParentVel: bool,
    parentVelFactor: real,
    useRandomRot: bool,
    posDiff: IVec,
    snapToGrid: IVec,
    proj: ProjDesc?)
  {
    /** `Proj_SpawnInfo::isSet`: a projectile type to spawn is named. */
    predicate IsSet() { proj != null }
  }

  /** `Proj_Action` without the steering (`HeadingTo*`) speeds. */
  datatype Action = Action(
    kind: ActionType,
    damage: int,
    projectiles: bool,
    shake: int,
    useSound: bool,
    sound: Option<SoundId>,
    bounceCoeff: real,
    bounceExplode: int,
    spawn: SpawnInfo,
    goThroughSpeed: real,
    changeRadius: IVec,
    useOverwriteOwnSpeed: bool,
    overwriteOwnSpeed: Vec,
    changeOwnSpeed: Mat,
    diffOwnSpeed: Vec,
    useOverwriteTargetSpeed: bool,
    overwriteTargetSpeed: Vec,
    changeTargetSpeed: Mat,
    diffTargetSpeed: Vec,
    additional: Option<Action>)

  /** The collision classification of one simulation step
      (`ProjCollisionType`). */
  datatype ColType = ColType(withWorm: bool, wormId: int, colMask: bv8)

  function NoCol(): ColType { ColType(false, -1, PJC_NONE) }
  function TerrainCol(mask: bv8): ColType { ColType(false, -1, mask) }
  function WormCol(w: int): ColType { ColType(true, w, PJC_NONE) }

  /** `proj_t`: the descriptor shared by all projectiles of one type. Only
      `RotIncrement` is ever written during simulation (spawning corrects
      a zero increment to 1). `hasAction` of the descriptor's action
      records is carried as the booleans the content loader computes. */
  class ProjDesc {
    const shape: ShapeKind
    const hit: Action
    const plyHit: Action
    const timer: Action
    const timerTime: real
    const timerTimeVar: real
    const hitHasAction: bool
    const plyHitHasAction: bool
    const timerHasAction: bool
    const actionsHaveAction: seq<bool>
    const trail: SpawnInfo
    const generalSpawn: SpawnInfo
    const animating: bool
    const animType: AnimType
    const hasImage: bool
    const rotating: bool
    var rotIncrement: int

    constructor (shape: ShapeKind, hit: Action, plyHit: Action, timer: Action,
                 timerTime: real, timerTimeVar: real,
                 hitHasAction: bool, plyHitHasAction: bool, timerHasAction: bool,
                 actionsHaveAction: seq<bool>, trail: SpawnInfo, generalSpawn: SpawnInfo,
                 animating: bool, animType: AnimType, hasImage: bool,
                 rotating: bool, rotIncrement: int)
      ensures this.shape == shape && this.hit == hit && this.plyHit == plyHit
      ensures this.timer == timer && this.timerTime == timerTime && this.timerTimeVar == timerTimeVar
      ensures this.hitHasAction == hitHasAction && this.plyHitHasAction == plyHitHasAction
      ensures this.timerHasAction == timerHasAction && this.actionsHaveAction == actionsHaveAction
      ensures this.trail == trail && this.generalSpawn == generalSpawn
      ensures this.animating == animating && this.animType == animType && this.hasImage == hasImage
      ensures this.rotating == rotating && this.rotIncrement == rotIncrement
    {
      this.shape, this.hit, this.plyHit, this.timer := shape, hit, plyHit, timer;
      this.timerTime, this.timerTimeVar := timerTime, timerTimeVar;
      this.hitHasAction, this.plyHitHasAction, this.timerHasAction := hitHasAction, plyHitHasAction, timerHasAction;
      this.actionsHaveAction := actionsHaveAction;
      this.trail, this.generalSpawn := trail, generalSpawn;
      this.animating, this.animType, this.hasImage := animating, animType, hasImage;
      this.rotating, this.rotIncrement := rotating, rotIncrement;
    }
  }
}
