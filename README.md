# SpriteManager, modelled in Dafny

This project models the sprite manager of the SimpleSideScrollerFramework game
framework. The manager holds one game level's sprites:

- the player sprite, held by value, so it is always the same object;
- an ordered list of bots;
- an append-only catalog of sprite types;
- a pathfinder pointer.

Each frame it runs an update pass and a render pass. The update pass does path
updates, the camera-follow decision, bot thinking and sprite animation. The
render pass submits one render item per visible sprite.

Modules, in dependency order:

- `Wrappers`, in `wrappers.dfy`: `Option`, which stands for a pointer that may be null.
- `Camera`, in `camera.dfy`: the camera-follow decision as a pure function of
  integer inputs. The viewport's "is the player centred" test is a parameter.
- `Sprites`, in `sprites.dfy`: the sprite type (a value); `AnimatedSprite`, a
  class whose fields the engine changes in place; the pathfinder (identity
  only); the `Event` calls the manager makes into other parts of the engine;
  and render items.
- `FrameOrder`, in `frame_order.dfy`: the calls one update pass makes, and the
  render items one render pass submits, as specification functions, with
  lemmas about their order.
- `Manager`, in `sprite_manager.dfy`: the class `SpriteManager`. Its methods
  change the catalog and the bot list in place. `Update` and
  `AddSpriteItemsToRenderList` walk the bot list with iterator loops. Each of
  these two methods returns the sequence of external calls it makes, and is
  proved equal to the matching specification function.

The player and the bots share the class `AnimatedSprite`. Its constant field
`isBot` stands for the C++ static type: a `TopDownSprite` is not a `Bot`. So
`Valid()` says that the player is not a bot and that the list holds only bots.
`AddBot` requires a bot, just as its C++ parameter type `Bot*` does.

Where the code does not do what its comments and method names say, the model
follows the code:

- `removeBot` ignores its argument. Given null and at least ten bots, it drops
  the last ten.
- `clearSprites` is described (SpriteManager.cpp:111-112) as emptying all
  sprites and sprite types, but its body is commented out, so it does nothing.
- `unloadSprites` is described (SpriteManager.cpp:132-134) as freeing all
  sprite artwork, but its body is commented out, so it does nothing.
- In the camera's "off centre" branch, each axis is first held back (set to 0)
  when the camera is at a world edge and the player moves toward it. The move
  operation is called whenever at least one axis is not held back. It is
  called with (0, 0) when no axis that is not held back is more than 64 units
  from the viewport centre.

## Model

| member | source | states |
|---|---|---|
| Camera.Snap | SimpleSideScrollerFramework/src/sssf/gsm/sprite/SpriteManager.cpp:236-243 | the intended step on one unsuppressed axis: +10 exactly when the offset from the centre is over 64, -10 exactly when it is under -64, 0 exactly when it is within [-64, 64] |
| Camera.AxisIncrement | SimpleSideScrollerFramework/src/sssf/gsm/sprite/SpriteManager.cpp:214-243 | the per-axis increment, which starts at -1: it is 0 exactly when the camera is at a world edge (left or top with origin <= 0, right or bottom with origin + size >= world size) and the player moves toward that edge; otherwise it is the snapped step, or stays -1 when the snapped step is 0 |
| Camera.Follow | SimpleSideScrollerFramework/src/sssf/gsm/sprite/SpriteManager.cpp:199-257 | player centred: the move is (vx, vy) if the state is not "IDLE", and there is no move if it is; not centred: no move exactly when both axes are suppressed; each applied increment is in {-10, 0, 10}; a suppressed axis gets 0 and an unsuppressed axis gets the snapped step |
| FrameOrder.CameraEvents | SimpleSideScrollerFramework/src/sssf/gsm/sprite/SpriteManager.cpp:217-255 | at most one viewport move per pass: present exactly when the camera decision is a move, with its (dx, dy) and the world size as arguments |
| FrameOrder.UpdateTrace | SimpleSideScrollerFramework/src/sssf/gsm/sprite/SpriteManager.cpp:181-271 | the reference layout of one update pass: path updates for the player and the bots, the camera move if any, the player's animation, then each bot's think and animation; its length is 1 + bots + (0 or 1) + 1 + 2 * bots and the first call is the player's path update |
| FrameOrder.PathEvents | SimpleSideScrollerFramework/src/sssf/gsm/sprite/SpriteManager.cpp:183-192 | exactly one path update per sprite visited |
| FrameOrder.PathEventsAt | SimpleSideScrollerFramework/src/sssf/gsm/sprite/SpriteManager.cpp:184-192 | the i-th path update is for the i-th sprite |
| FrameOrder.AnimationEvents | SimpleSideScrollerFramework/src/sssf/gsm/sprite/SpriteManager.cpp:262-270 | exactly two calls per bot |
| FrameOrder.AnimationEventsAt | SimpleSideScrollerFramework/src/sssf/gsm/sprite/SpriteManager.cpp:263-270 | for bot i: call 2i is its think step and call 2i+1 is its animation update |
| FrameOrder.UpdateTraceOrder | SimpleSideScrollerFramework/src/sssf/gsm/sprite/SpriteManager.cpp:181-271 | exact layout of one update pass: the player's path update first; then one path update per bot in list order; then at most one viewport move; then the player's animation; then think and animate for each bot in list order; and no other call |
| FrameOrder.SpriteRenderItems | SimpleSideScrollerFramework/src/sssf/gsm/sprite/SpriteManager.cpp:26-54 | at most one item per sprite, present exactly when the viewport test on (x, y, texture width, texture height) passes; screen position is world position minus the viewport origin; z, image, alpha, size and rotation come from the sprite and its type |
| FrameOrder.RenderList | SimpleSideScrollerFramework/src/sssf/gsm/sprite/SpriteManager.cpp:74-82 | no more items than sprites |
| FrameOrder.RenderListAppend | SimpleSideScrollerFramework/src/sssf/gsm/sprite/SpriteManager.cpp:71-82 | rendering a + b submits a's items and then b's, so submission follows sprite order |
| FrameOrder.RenderListNoneInView | SimpleSideScrollerFramework/src/sssf/gsm/sprite/SpriteManager.cpp:36-53 | a list with no sprite in view yields no render item |
| FrameOrder.RenderListCount | SimpleSideScrollerFramework/src/sssf/gsm/sprite/SpriteManager.cpp:36-82 | for any mix of visible and hidden sprites, the number of render items equals the number of sprites that pass the viewport test (counted by the helper VisibleCount) |
| FrameOrder.RenderListAllInView | SimpleSideScrollerFramework/src/sssf/gsm/sprite/SpriteManager.cpp:36-53 | when every sprite is visible, there is one item per sprite and item i belongs to sprite i |
| FrameOrder.RenderPlayerFirst | SimpleSideScrollerFramework/src/sssf/gsm/sprite/SpriteManager.cpp:71-82 | the player's item, if it is visible, comes before every bot's item |
| Manager.SpriteManager.constructor | SimpleSideScrollerFramework/src/sssf/gsm/sprite/SpriteManager.h:47 | empty catalog, no bots, a fresh player that is not a bot |
| Manager.SpriteManager.GetNumberOfSprites | SimpleSideScrollerFramework/src/sssf/gsm/sprite/SpriteManager.h:51 | the number of bots; the player is not among them |
| Manager.SpriteManager.GetPlayer | SimpleSideScrollerFramework/src/sssf/gsm/sprite/SpriteManager.h:52 | always the same non-null player object, which is not a bot |
| Manager.SpriteManager.SetPathfinder | SimpleSideScrollerFramework/src/sssf/gsm/sprite/SpriteManager.h:55-65 | afterwards the getter GetPathfinder (SpriteManager.h:55) returns the given pointer; only the pathfinder field may change |
| Manager.SpriteManager.BotsInIterationOrder | SimpleSideScrollerFramework/src/sssf/gsm/sprite/SpriteManager.h:53-54 | walking from the begin iterator (GetBotsIterator, position 0) to the end iterator (GetEndOfBotsIterator, position |bots|), dereferencing each with BotAt, visits exactly the bot list, in order |
| Manager.SpriteManager.AddSpriteType | SimpleSideScrollerFramework/src/sssf/gsm/sprite/SpriteManager.cpp:105-109 | appends the type at the end; returns the old size (new size - 1); the lookup at that index gives the new type; earlier lookups are unchanged |
| Manager.SpriteManager.GetSpriteType | SimpleSideScrollerFramework/src/sssf/gsm/sprite/SpriteManager.cpp:124-130 | Some(spriteTypes[i]) if and only if i < catalog size, otherwise None; as a function it reads state and never changes it |
| Manager.SpriteManager.AddBot | SimpleSideScrollerFramework/src/sssf/gsm/sprite/SpriteManager.cpp:91-94 | the bot list becomes the old list followed by the new bot |
| Manager.SpriteManager.MakeRandomBot | SimpleSideScrollerFramework/src/sssf/gsm/sprite/SpriteManager.cpp:273-285 | appends one new bot and keeps the existing bots in order; the new bot has state "IDLE", alpha 255, position (initX, initY) and the given type; it is registered with physics and then given its bounding volume |
| Manager.SpriteManager.RemoveBot | SimpleSideScrollerFramework/src/sssf/gsm/sprite/SpriteManager.cpp:165-174 | always returns null; given null with at least 10 bots, the list loses its last 10 entries; otherwise the list is unchanged |
| Manager.SpriteManager.ResetBots | SimpleSideScrollerFramework/src/sssf/gsm/sprite/SpriteManager.cpp:287-295 | count and order unchanged; every bot's x grows by 200 per occurrence in the list; y unchanged; only x fields of bots change; the player does not move |
| Manager.SpriteManager.ClearSprites | SimpleSideScrollerFramework/src/sssf/gsm/sprite/SpriteManager.cpp:114-118 | changes nothing |
| Manager.SpriteManager.UnloadSprites | SimpleSideScrollerFramework/src/sssf/gsm/sprite/SpriteManager.cpp:136-163 | changes nothing |
| Manager.SpriteManager.Update | SimpleSideScrollerFramework/src/sssf/gsm/sprite/SpriteManager.cpp:181-271 | the calls made are exactly the update trace for the current player, the current bot list and the camera decision taken on the player's centre, velocity and state (read by the helper Sprites.PlayerViewOf, as at lines 199-202 and 219); the loops use the bot iterators |
| Manager.SpriteManager.AddSpriteItemsToRenderList | SimpleSideScrollerFramework/src/sssf/gsm/sprite/SpriteManager.cpp:61-84 | when the world is renderable: the render items of the player and then of each bot, in list order; otherwise none |

## Left out

- The collaborators are not modelled: the render list and graphics, the
  viewport, physics, the pathfinder's `updatePath`, bot AI (`think`),
  `updateSprite` and `affixTightAABBBoundingVolume`. Each call to one of them
  is recorded as an `Event` or a render item, in call order. What these calls
  do to sprite state is not modelled. In particular, the camera decision reads
  the player's centre and velocity as they are when `Update` starts, not as a
  path update might have left them.
- The viewport's `isPlayerCentered` and `areWorldCoordinatesInViewport` are
  uninterpreted function parameters. The clamping inside `moveViewport` is not
  modelled: the decision records the arguments passed to it.
- The `Game` object, the game state manager and the GUI are replaced by
  parameters: whether the world is renderable, the viewport's origin, size
  and centre, and the world size.
- Positions, velocities and rotation are integers. Float storage, `round`, and
  the float-to-int truncation of the velocities are not modelled.
- Camera.Follow: the C++ `int` arithmetic (`viewportX + viewportWidth`,
  `playerX - viewportCenterX`) can overflow in 32 bits. That overflow is not
  modelled, because coordinates are assumed to stay far below 2^31.
- Manager.SpriteManager.AddSpriteType: the returned index is an unbounded
  `nat`, so the `unsigned int` wrap-around past 2^32 entries is not modelled.
- Manager.SpriteManager.GetNumberOfSprites: the conversion of the list size
  to `int` is not modelled.
- `resetBots` draws two `rand()` numbers per bot and never uses them; they are
  not modelled.
- `addSpriteToRenderList` builds a local `RenderItem` and sets its `id` to the
  frame index, then discards it. That dead local is not modelled.
- The code that `unloadSprites` has commented out, and the `clearSprites`
  body, are not modelled (both methods do nothing here). No memory management
  is modelled.
- The `BotRecycler` field is never used, so it is not modelled.
- The `RandomJumpingBot` AI parameters (30, 120, 1) and its AI state are not
  modelled.
- The C++ constructor leaves `pathfinder` uninitialised; the model starts it
  at null. `Update` requires a non-null pathfinder, because the C++ code
  dereferences it.
- A sprite's type may be null (`None`). Rendering dereferences it, so
  `AddSpriteItemsToRenderList` requires every sprite to have a type when the
  world is renderable.
- The C++ catalog and bot list hold raw pointers, so `addSpriteType(NULL)` and
  `addBot(NULL)` are legal there, and `getSpriteType` then returns NULL for an
  index in range. Here catalog entries and bots are never null, so null
  entries are not modelled.
