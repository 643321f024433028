/**
  The entities the sprite manager holds and the calls it makes into the rest
  of the engine. Sprite types are shared, never-mutated descriptors; sprites
  (the player and the bots) are objects whose fields the engine updates in
  place; the pathfinder is only ever passed along, so it has identity and no
  state here.
*/
module Sprites {
  import opened Wrappers
  import opened Camera

  /** A shared visual descriptor: many sprites may refer to one type. */
  datatype SpriteType = SpriteType(id: nat, textureWidth: int, textureHeight: int)

  /** The centre of the tight bounding box around a sprite's current frame. */
  datatype BoundingVolume = BoundingVolume(centerX: int, centerY: int)

  /**
    A sprite with its physical properties (position and velocity), its
    animation state and its sprite type. `isBot` stands for the sprite's
    static type: bots are the only sprites the bot list may hold, and the
    player is not one of them.
  */
  class AnimatedSprite {
    const isBot: bool
    var x: int
    var y: int
    var z: int
    var vx: int
    var vy: int
    var boundingVolume: BoundingVolume
    var spriteType: Option<SpriteType>
    var state: string
    var alpha: int
    var imageId: int
    var rotation: int

    /** A sprite at the origin, at rest, with no sprite type yet. */
    constructor (isBot: bool)
      ensures this.isBot == isBot && spriteType == None
      ensures x == 0 && y == 0 && z == 0 && vx == 0 && vy == 0
    {
      this.isBot := isBot;
      x, y, z := 0, 0, 0;
      vx, vy := 0, 0;
      boundingVolume := BoundingVolume(0, 0);
      spriteType := None;
      state := "";
      alpha := 0;
      imageId := 0;
      rotation := 0;
    }
  }

  /** The pathfinder, known only by its identity. */
  class GridPathfinder {
    constructor () {}
  }

  /** A call the sprite manager makes into a collaborator. */
  datatype Event =
    | UpdatePath(pathfinder: GridPathfinder, sprite: AnimatedSprite)
    | MoveViewport(dx: int, dy: int, worldWidth: int, worldHeight: int)
    | UpdateSprite(sprite: AnimatedSprite)
    | Think(bot: AnimatedSprite)
    | AddCollidableObject(sprite: AnimatedSprite)
    | AffixTightBoundingVolume(sprite: AnimatedSprite)

  /** One draw command of the world render list, in screen coordinates. */
  datatype RenderItem = RenderItem(imageId: int, x: int, y: int, z: int, alpha: int,
                                   width: int, height: int, rotation: int)

  /** What the camera decision reads of the player sprite. */
  function PlayerViewOf(s: AnimatedSprite): PlayerView
    reads s
  {
    PlayerView(s.boundingVolume.centerX, s.boundingVolume.centerY, s.vx, s.vy, s.state)
  }
}
