/**
  What one frame of the sprite manager does, as the sequence of calls it
  makes: the update pass (pathfinding, camera, animation) and the render
  pass (one render item per visible sprite). Both visit the player first and
  then the bots in list order.
*/
module FrameOrder {
  import opened Wrappers
  import opened Camera
  import opened Sprites

  // ---------------------------------------------------------------------------
  // Update pass
  // ---------------------------------------------------------------------------

  /** One path update per sprite, in the given order. */
  function PathEvents(pathfinder: GridPathfinder, sprites: seq<AnimatedSprite>): (r: seq<Event>)
    ensures |r| == |sprites|
  {
    if sprites == [] then []
    else PathEvents(pathfinder, sprites[..|sprites| - 1]) + [UpdatePath(pathfinder, sprites[|sprites| - 1])]
  }

  /** The call to the viewport's move operation, when the camera decision makes one. */
  function CameraEvents(move: Option<Move>, worldWidth: int, worldHeight: int): (r: seq<Event>)
    ensures |r| <= 1
    ensures r != [] <==> move.Some?
    ensures move.Some? ==> r[0] == MoveViewport(move.value.dx, move.value.dy, worldWidth, worldHeight)
  {
    match move
    case None => []
    case Some(m) => [MoveViewport(m.dx, m.dy, worldWidth, worldHeight)]
  }

  /** For each bot in order: its AI decision step, then its animation update. */
  function AnimationEvents(bots: seq<AnimatedSprite>): (r: seq<Event>)
    ensures |r| == 2 * |bots|
  {
    if bots == [] then []
    else AnimationEvents(bots[..|bots| - 1]) + [Think(bots[|bots| - 1]), UpdateSprite(bots[|bots| - 1])]
  }

  /** The calls of one update pass, given the camera decision taken in it. */
  function UpdateTrace(pathfinder: GridPathfinder, player: AnimatedSprite, bots: seq<AnimatedSprite>,
                       move: Option<Move>, worldWidth: int, worldHeight: int): (r: seq<Event>)
    // one path update per sprite, at most one camera move, and three calls per bot-or-player otherwise
    ensures |r| == 1 + |bots| + (if move.Some? then 1 else 0) + 1 + 2 * |bots|
    ensures r[0] == UpdatePath(pathfinder, player)
  {
    PathEventsAt(pathfinder, [player] + bots, 0);
    PathEvents(pathfinder, [player] + bots)
      + CameraEvents(move, worldWidth, worldHeight)
      + [UpdateSprite(player)]
      + AnimationEvents(bots)
  }

  lemma {:induction false} PathEventsAt(pathfinder: GridPathfinder, sprites: seq<AnimatedSprite>, i: nat)
    requires i < |sprites|
    ensures PathEvents(pathfinder, sprites)[i] == UpdatePath(pathfinder, sprites[i])
  {
    if i < |sprites| - 1 {
      PathEventsAt(pathfinder, sprites[..|sprites| - 1], i);
    }
  }

  lemma {:induction false} AnimationEventsAt(bots: seq<AnimatedSprite>, i: nat)
    requires i < |bots|
    ensures AnimationEvents(bots)[2 * i] == Think(bots[i])
    ensures AnimationEvents(bots)[2 * i + 1] == UpdateSprite(bots[i])
  {
    if i < |bots| - 1 {
      AnimationEventsAt(bots[..|bots| - 1], i);
    }
  }

  /**
    The update pass visits the player first and then every bot once, in list
    order, for pathfinding; then makes at most one camera move; then updates
    the player's animation; then, for every bot once and in list order, lets
    it think and updates its animation. Nothing else is called.
  */
  lemma UpdateTraceOrder(pathfinder: GridPathfinder, player: AnimatedSprite, bots: seq<AnimatedSprite>,
                         move: Option<Move>, worldWidth: int, worldHeight: int)
    ensures var t := UpdateTrace(pathfinder, player, bots, move, worldWidth, worldHeight);
      var c := 1 + |bots| + (if move.Some? then 1 else 0);
      |t| == c + 1 + 2 * |bots| &&
      t[0] == UpdatePath(pathfinder, player) &&
      (forall i :: 0 <= i < |bots| ==> t[1 + i] == UpdatePath(pathfinder, bots[i])) &&
      (move.Some? ==> t[1 + |bots|] == MoveViewport(move.value.dx, move.value.dy, worldWidth, worldHeight)) &&
      t[c] == UpdateSprite(player) &&
      (forall i :: 0 <= i < |bots| ==> t[c + 1 + 2 * i] == Think(bots[i]) && t[c + 2 + 2 * i] == UpdateSprite(bots[i]))
  {
    var sprites := [player] + bots;
    PathEventsAt(pathfinder, sprites, 0);
    forall i | 0 <= i < |bots| ensures PathEvents(pathfinder, sprites)[1 + i] == UpdatePath(pathfinder, bots[i]) {
      PathEventsAt(pathfinder, sprites, 1 + i);
    }
    forall i | 0 <= i < |bots|
      ensures AnimationEvents(bots)[2 * i] == Think(bots[i])
      ensures AnimationEvents(bots)[2 * i + 1] == UpdateSprite(bots[i])
    {
      AnimationEventsAt(bots, i);
    }
  }

  // ---------------------------------------------------------------------------
  // Render pass
  // ---------------------------------------------------------------------------

  /** Every sprite in the sequence has a sprite type. */
  predicate Typed(sprites: seq<AnimatedSprite>)
    reads sprites
  {
    forall i :: 0 <= i < |sprites| ==> sprites[i].spriteType.Some?
  }

  /** The viewport's test of the sprite's world rectangle (position and texture size). */
  predicate InView(s: AnimatedSprite, inViewport: (int, int, int, int) -> bool)
    requires s.spriteType.Some?
    reads s
  {
    inViewport(s.x, s.y, s.spriteType.value.textureWidth, s.spriteType.value.textureHeight)
  }

  /** The render items the manager submits for one sprite. */
  function SpriteRenderItems(s: AnimatedSprite, viewport: ViewportView,
                             inViewport: (int, int, int, int) -> bool): (r: seq<RenderItem>)
    requires s.spriteType.Some?
    reads s
    ensures |r| <= 1
    ensures r != [] <==> InView(s, inViewport)
    // screen position is world position minus the viewport origin; the rest is copied from the sprite
    ensures r != [] ==>
      r[0].x == s.x - viewport.x && r[0].y == s.y - viewport.y && r[0].z == s.z &&
      r[0].imageId == s.imageId && r[0].alpha == s.alpha && r[0].rotation == s.rotation &&
      r[0].width == s.spriteType.value.textureWidth && r[0].height == s.spriteType.value.textureHeight
  {
    var t := s.spriteType.value;
    if inViewport(s.x, s.y, t.textureWidth, t.textureHeight) then
      [RenderItem(s.imageId, s.x - viewport.x, s.y - viewport.y, s.z, s.alpha,
                  t.textureWidth, t.textureHeight, s.rotation)]
    else
      []
  }

  /** The render items of a sequence of sprites, submitted one sprite after another. */
  function RenderList(sprites: seq<AnimatedSprite>, viewport: ViewportView,
                      inViewport: (int, int, int, int) -> bool): (r: seq<RenderItem>)
    requires Typed(sprites)
    reads sprites
    ensures |r| <= |sprites|
  {
    if sprites == [] then []
    else
      RenderList(sprites[..|sprites| - 1], viewport, inViewport)
        + SpriteRenderItems(sprites[|sprites| - 1], viewport, inViewport)
  }

  /** Rendering two runs of sprites renders the first run's items, then the second's. */
  lemma {:induction false} RenderListAppend(a: seq<AnimatedSprite>, b: seq<AnimatedSprite>,
                                            viewport: ViewportView, inViewport: (int, int, int, int) -> bool)
    requires Typed(a) && Typed(b)
    ensures Typed(a + b)
    ensures RenderList(a + b, viewport, inViewport) == RenderList(a, viewport, inViewport) + RenderList(b, viewport, inViewport)
  {
    if b != [] {
      var b' := b[..|b| - 1];
      assert (a + b)[..|a + b| - 1] == a + b';
      RenderListAppend(a, b', viewport, inViewport);
    } else {
      assert a + b == a;
    }
  }

  /** A sprite outside the viewport contributes nothing: with no sprite in view, nothing is submitted. */
  lemma {:induction false} RenderListNoneInView(sprites: seq<AnimatedSprite>, viewport: ViewportView,
                                                inViewport: (int, int, int, int) -> bool)
    requires Typed(sprites)
    requires forall i :: 0 <= i < |sprites| ==> !InView(sprites[i], inViewport)
    ensures RenderList(sprites, viewport, inViewport) == []
  {
    if sprites != [] {
      RenderListNoneInView(sprites[..|sprites| - 1], viewport, inViewport);
    }
  }

  /** The number of sprites that pass the viewport test. */
  function VisibleCount(sprites: seq<AnimatedSprite>, inViewport: (int, int, int, int) -> bool): nat
    requires Typed(sprites)
    reads sprites
  {
    if sprites == [] then 0
    else VisibleCount(sprites[..|sprites| - 1], inViewport) + (if InView(sprites[|sprites| - 1], inViewport) then 1 else 0)
  }

  /** For any mix of visible and hidden sprites: exactly one render item per visible sprite. */
  lemma {:induction false} RenderListCount(sprites: seq<AnimatedSprite>, viewport: ViewportView,
                                           inViewport: (int, int, int, int) -> bool)
    requires Typed(sprites)
    ensures |RenderList(sprites, viewport, inViewport)| == VisibleCount(sprites, inViewport)
  {
    if sprites != [] {
      RenderListCount(sprites[..|sprites| - 1], viewport, inViewport);
    }
  }

  /** With every sprite in view, item i is the item of sprite i: one item each, in order. */
  lemma {:induction false} RenderListAllInView(sprites: seq<AnimatedSprite>, viewport: ViewportView,
                                               inViewport: (int, int, int, int) -> bool)
    requires Typed(sprites)
    requires forall i :: 0 <= i < |sprites| ==> InView(sprites[i], inViewport)
    ensures |RenderList(sprites, viewport, inViewport)| == |sprites|
    ensures forall i :: 0 <= i < |sprites| ==>
      [RenderList(sprites, viewport, inViewport)[i]] == SpriteRenderItems(sprites[i], viewport, inViewport)
  {
    if sprites != [] {
      RenderListAllInView(sprites[..|sprites| - 1], viewport, inViewport);
    }
  }

  /** The render pass submits the player's item (if visible) before those of the bots. */
  lemma RenderPlayerFirst(player: AnimatedSprite, bots: seq<AnimatedSprite>, viewport: ViewportView,
                          inViewport: (int, int, int, int) -> bool)
    requires player.spriteType.Some? && Typed(bots)
    ensures Typed([player] + bots)
    ensures RenderList([player] + bots, viewport, inViewport)
      == SpriteRenderItems(player, viewport, inViewport) + RenderList(bots, viewport, inViewport)
  {
    RenderListAppend([player], bots, viewport, inViewport);
    assert [player][..0] == [];
  }
}
