/**
  The camera-follow decision taken once per frame by the sprite manager's
  update: from the player's bounding-volume centre and velocity, the viewport
  and the world size, decide whether the viewport is moved and by how much.
  The viewport's own clamping and its "is the player centred" test are not
  part of this model: the test is a parameter, and the decision is the pair of
  arguments handed to the viewport's move operation.
*/
module Camera {
  import opened Wrappers

  /** Offset from the viewport centre, on one axis, beyond which the camera steps toward the player. */
  const FollowTolerance: int := 64
  /** How far the camera steps per frame, on one axis, while the player is off centre. */
  const FollowStep: int := 10
  /** The value an increment holds while it is still undecided. */
  const Undecided: int := -1

  /** The arguments of one call to the viewport's move operation. */
  datatype Move = Move(dx: int, dy: int)

  /** What the frame update reads of the viewport: its origin, size and centre, in world coordinates. */
  datatype ViewportView = ViewportView(x: int, y: int, width: int, height: int, centerX: int, centerY: int)

  /** What the frame update reads of the player: bounding-volume centre, velocity and logical state. */
  datatype PlayerView = PlayerView(centerX: int, centerY: int, vx: int, vy: int, state: string)

  /** Everything the camera decision depends on, apart from the centring test. */
  datatype FollowInput = FollowInput(player: PlayerView, viewport: ViewportView, worldWidth: int, worldHeight: int)

  predicate Idle(state: string)
  {
    state == "IDLE"
  }

  /** The camera already touches a world edge on this axis and the player moves further toward it. */
  predicate AtEdgeMovingOut(v: int, origin: int, size: int, worldSize: int)
  {
    (v < 0 && origin <= 0) || (v > 0 && origin + size >= worldSize)
  }

  predicate Centered(input: FollowInput, isPlayerCentered: (int, int) -> bool)
  {
    isPlayerCentered(input.player.centerX, input.player.centerY)
  }

  predicate SuppressedX(input: FollowInput)
  {
    AtEdgeMovingOut(input.player.vx, input.viewport.x, input.viewport.width, input.worldWidth)
  }

  predicate SuppressedY(input: FollowInput)
  {
    AtEdgeMovingOut(input.player.vy, input.viewport.y, input.viewport.height, input.worldHeight)
  }

  function OffsetX(input: FollowInput): int
  {
    input.player.centerX - input.viewport.centerX
  }

  function OffsetY(input: FollowInput): int
  {
    input.player.centerY - input.viewport.centerY
  }

  /**
    The step an unsuppressed axis is meant to take toward a player at `offset`
    from the viewport centre: one step toward the player when it is farther
    than the tolerance, otherwise none.
  */
  function Snap(offset: int): (step: int)
    ensures step == FollowStep <==> offset > FollowTolerance
    ensures step == -FollowStep <==> offset < -FollowTolerance
    ensures step == 0 <==> -FollowTolerance <= offset <= FollowTolerance
  {
    if offset > FollowTolerance then FollowStep
    else if offset < -FollowTolerance then -FollowStep
    else 0
  }

  /**
    One axis of the off-centre branch, computed the way the frame update does:
    the increment starts undecided, becomes 0 at a world edge the player moves
    toward, and otherwise becomes a full step when the player is far from the
    centre; within the tolerance it stays undecided.
  */
  function AxisIncrement(v: int, origin: int, size: int, worldSize: int, offset: int): (inc: int)
    // 0 means suppressed and nothing else: within the tolerance an axis stays undecided, not 0
    ensures inc == 0 <==> AtEdgeMovingOut(v, origin, size, worldSize)
    ensures !AtEdgeMovingOut(v, origin, size, worldSize) ==>
      inc == if Snap(offset) == 0 then Undecided else Snap(offset)
  {
    var inc := if AtEdgeMovingOut(v, origin, size, worldSize) then 0 else Undecided;
    if inc != 0 then
      (if offset > FollowTolerance then FollowStep
       else if offset < -FollowTolerance then -FollowStep
       else inc)
    else inc
  }

  /**
    The decision: Some(m) when the viewport's move operation is called with
    (m.dx, m.dy), None when it is not called this frame.
  */
  function Follow(input: FollowInput, isPlayerCentered: (int, int) -> bool): (r: Option<Move>)
    // centred: follow the player's velocity unless the player is idle
    ensures Centered(input, isPlayerCentered) ==>
      r == if Idle(input.player.state) then None else Some(Move(input.player.vx, input.player.vy))
    // off centre: the move is skipped exactly when both axes are suppressed
    ensures !Centered(input, isPlayerCentered) ==> (r.None? <==> SuppressedX(input) && SuppressedY(input))
    // off centre: every applied increment is -10, 0 or 10
    ensures !Centered(input, isPlayerCentered) && r.Some? ==>
      r.value.dx in {-FollowStep, 0, FollowStep} && r.value.dy in {-FollowStep, 0, FollowStep}
    // off centre: an unsuppressed axis snaps toward the player, a suppressed one stays put
    ensures !Centered(input, isPlayerCentered) && r.Some? ==>
      r.value.dx == (if SuppressedX(input) then 0 else Snap(OffsetX(input))) &&
      r.value.dy == (if SuppressedY(input) then 0 else Snap(OffsetY(input)))
  {
    if isPlayerCentered(input.player.centerX, input.player.centerY) then
      if input.player.state != "IDLE" then Some(Move(input.player.vx, input.player.vy)) else None
    else
      var p, vp := input.player, input.viewport;
      var incX := AxisIncrement(p.vx, vp.x, vp.width, input.worldWidth, p.centerX - vp.centerX);
      var incY := AxisIncrement(p.vy, vp.y, vp.height, input.worldHeight, p.centerY - vp.centerY);
      if !(incX == 0 && incY == 0) then
        Some(Move(if incX == Undecided then 0 else incX, if incY == Undecided then 0 else incY))
      else
        None
  }
}
