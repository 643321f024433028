/**
  The sprite manager of one game level: the player sprite, the ordered list of
  bots, the append-only catalog of sprite types and the pathfinder.
*/
module Manager {
  import opened Wrappers
  import opened Camera
  import opened Sprites
  import opened FrameOrder

  /** Horizontal distance every bot is shifted by when the bots are reset. */
  const ResetShiftX: int := 200
  /** Number of bots dropped from the end of the list by one removal. */
  const RemovalBatch: nat := 10
  /** Opacity of a freshly made bot (fully opaque). */
  const FullAlpha: int := 255

  /** A position in the bot list, from the first bot (0) to one past the last. */
  type BotIterator = nat

  class SpriteManager {
    var spriteTypes: seq<SpriteType>
    var bots: seq<AnimatedSprite>
    /** The player is held by value: it is the same object for the manager's whole life. */
    const player: AnimatedSprite
    var pathfinder: GridPathfinder?

    /** The player is not a bot, and the bot list holds only bots. */
    ghost predicate Valid()
      reads this
    {
      !player.isBot && forall i :: 0 <= i < |bots| ==> bots[i].isBot
    }

    constructor ()
      ensures Valid() && fresh(player)
      ensures spriteTypes == [] && bots == [] && pathfinder == null
    {
      spriteTypes := [];
      bots := [];
      player := new AnimatedSprite(false);
      pathfinder := null;
    }

    // -------------------------------------------------------------------------
    // Accessors
    // -------------------------------------------------------------------------

    /** Number of bots; the player is not counted. */
    function GetNumberOfSprites(): (n: nat)
      requires Valid()
      reads this
      ensures n == |bots|
      ensures player !in bots
    {
      |bots|
    }

    /** The player sprite: always the same object, never null and never a bot. */
    function GetPlayer(): (p: AnimatedSprite)
      requires Valid()
      reads this
      ensures p == player && !p.isBot && p !in bots
    {
      player
    }

    function GetBotsIterator(): BotIterator
    {
      0
    }

    function GetEndOfBotsIterator(): BotIterator
      reads this
    {
      |bots|
    }

    /** The bot an iterator points at. */
    function BotAt(it: BotIterator): AnimatedSprite
      requires it < |bots|
      reads this
    {
      bots[it]
    }

    function GetPathfinder(): GridPathfinder?
      reads this
    {
      pathfinder
    }

    method SetPathfinder(initPathfinder: GridPathfinder?)
      modifies this`pathfinder
      ensures GetPathfinder() == initPathfinder
    {
      pathfinder := initPathfinder;
    }

    /** Walking the bot list from its first iterator to its end iterator visits the bots in list order. */
    method BotsInIterationOrder() returns (visited: seq<AnimatedSprite>)
      ensures visited == bots
    {
      visited := [];
      var it := GetBotsIterator();
      while it != GetEndOfBotsIterator()
        invariant 0 <= it <= |bots|
        invariant visited == bots[..it]
        decreases |bots| - it
      {
        visited := visited + [BotAt(it)];
        it := it + 1;
      }
    }

    // -------------------------------------------------------------------------
    // Sprite-type catalog
    // -------------------------------------------------------------------------

    /** Appends a sprite type and returns its index, the catalog's old size. */
    method AddSpriteType(spriteTypeToAdd: SpriteType) returns (index: nat)
      modifies this`spriteTypes
      ensures spriteTypes == old(spriteTypes) + [spriteTypeToAdd]
      ensures index == |old(spriteTypes)| && index == |spriteTypes| - 1
      ensures GetSpriteType(index) == Some(spriteTypeToAdd)
      ensures forall i :: 0 <= i < |old(spriteTypes)| ==> GetSpriteType(i) == old(GetSpriteType(i))
    {
      spriteTypes := spriteTypes + [spriteTypeToAdd];
      index := |spriteTypes| - 1;
    }

    /** The sprite type at `typeIndex`, or None (the null pointer) when the index is out of range. */
    function GetSpriteType(typeIndex: nat): (r: Option<SpriteType>)
      reads this
      ensures r.Some? <==> typeIndex < |spriteTypes|
      ensures r.Some? ==> r.value == spriteTypes[typeIndex]
    {
      if typeIndex < |spriteTypes| then Some(spriteTypes[typeIndex]) else None
    }

    // -------------------------------------------------------------------------
    // Bot collection
    // -------------------------------------------------------------------------

    method AddBot(botToAdd: AnimatedSprite)
      requires Valid() && botToAdd.isBot
      modifies this`bots
      ensures Valid() && bots == old(bots) + [botToAdd]
    {
      bots := bots + [botToAdd];
    }

    /**
      Makes a new bot of the given sprite type at (initX, initY), idle and
      fully opaque, registers it with physics, appends it to the bot list and
      fits its bounding volume; `events` are the physics and bounding-volume calls.
    */
    method MakeRandomBot(randomJumpingBotType: SpriteType, initX: int, initY: int)
      returns (events: seq<Event>)
      requires Valid()
      modifies this`bots
      ensures Valid()
      ensures |bots| == |old(bots)| + 1 && bots[..|old(bots)|] == old(bots)
      ensures var bot := bots[|old(bots)|];
        fresh(bot) && bot.isBot && bot.x == initX && bot.y == initY &&
        bot.spriteType == Some(randomJumpingBotType) && bot.state == "IDLE" && bot.alpha == FullAlpha &&
        events == [AddCollidableObject(bot), AffixTightBoundingVolume(bot)]
    {
      var bot := new AnimatedSprite(true);
      events := [AddCollidableObject(bot)];
      bot.x, bot.y := initX, initY;
      bot.spriteType := Some(randomJumpingBotType);
      bot.state := "IDLE";
      bot.alpha := FullAlpha;
      AddBot(bot);
      events := events + [AffixTightBoundingVolume(bot)];
    }

    /**
      Ignores which bot it is given: when given null and at least ten bots are
      present it drops the last ten; in every case it returns null.
    */
    method RemoveBot(botToRemove: AnimatedSprite?) returns (removed: AnimatedSprite?)
      requires Valid()
      modifies this`bots
      ensures Valid() && removed == null
      ensures bots == if botToRemove == null && |old(bots)| >= RemovalBatch
                      then old(bots)[..|old(bots)| - RemovalBatch]
                      else old(bots)
    {
      if botToRemove == null {
        if |bots| >= RemovalBatch {
          for i := 0 to RemovalBatch
            invariant bots == old(bots)[..|old(bots)| - i]
          {
            bots := bots[..|bots| - 1];
          }
        }
      }
      removed := null;
    }

    /**
      Shifts every bot right by 200; a bot listed k times is shifted k times.
      Nothing else about the bots, the list or the player changes.
    */
    method ResetBots()
      requires Valid()
      modifies bots`x
      ensures bots == old(bots)
      ensures forall b :: b in bots ==> b.x == old(b.x) + ResetShiftX * multiset(bots)[b]
      ensures forall b :: b in bots ==> b.y == old(b.y)
      ensures player.x == old(player.x)
    {
      var it := GetBotsIterator();
      while it != GetEndOfBotsIterator()
        invariant 0 <= it <= |bots|
        invariant forall b :: b in bots ==> b.x == old(b.x) + ResetShiftX * multiset(bots[..it])[b]
        decreases |bots| - it
      {
        assert bots[..it + 1] == bots[..it] + [bots[it]];
        var bot := BotAt(it);
        bot.x := bot.x + ResetShiftX;
        it := it + 1;
      }
      assert bots[..it] == bots;
    }

    /** As shipped, clears nothing. */
    method ClearSprites()
      ensures unchanged(this)
    {
    }

    /** As shipped, releases nothing. */
    method UnloadSprites()
      ensures unchanged(this)
    {
    }

    // -------------------------------------------------------------------------
    // Per-frame passes
    // -------------------------------------------------------------------------

    /**
      One update pass: path updates for the player and then each bot, the
      camera decision, then animation for the player and then each bot. The
      calls are returned in the order they are made.
    */
    method Update(viewport: ViewportView, worldWidth: int, worldHeight: int,
                  isPlayerCentered: (int, int) -> bool) returns (trace: seq<Event>)
      requires pathfinder != null
      ensures trace == UpdateTrace(pathfinder, player, bots,
                                   Follow(FollowInput(PlayerViewOf(player), viewport, worldWidth, worldHeight),
                                          isPlayerCentered),
                                   worldWidth, worldHeight)
    {
      // pathfinding
      trace := [UpdatePath(pathfinder, player)];
      var it := GetBotsIterator();
      while it != GetEndOfBotsIterator()
        invariant 0 <= it <= |bots|
        invariant trace == PathEvents(pathfinder, [player] + bots[..it])
        decreases |bots| - it
      {
        assert ([player] + bots[..it + 1])[..it + 1] == [player] + bots[..it];
        trace := trace + [UpdatePath(pathfinder, BotAt(it))];
        it := it + 1;
      }
      assert [player] + bots[..it] == [player] + bots;

      // the viewport follows the player
      var move := Follow(FollowInput(PlayerViewOf(player), viewport, worldWidth, worldHeight), isPlayerCentered);
      if move.Some? {
        trace := trace + [MoveViewport(move.value.dx, move.value.dy, worldWidth, worldHeight)];
      }

      // animation
      trace := trace + [UpdateSprite(player)];
      ghost var before := trace;
      it := GetBotsIterator();
      while it != GetEndOfBotsIterator()
        invariant 0 <= it <= |bots|
        invariant trace == before + AnimationEvents(bots[..it])
        decreases |bots| - it
      {
        assert bots[..it + 1][..it] == bots[..it];
        var bot := BotAt(it);
        trace := trace + [Think(bot), UpdateSprite(bot)];
        it := it + 1;
      }
      assert bots[..it] == bots;
    }

    /**
      One render pass: when the world is renderable, the render items of the
      player and then of each bot, in list order; otherwise none.
    */
    method AddSpriteItemsToRenderList(worldRenderable: bool, viewport: ViewportView,
                                      inViewport: (int, int, int, int) -> bool)
      returns (items: seq<RenderItem>)
      requires worldRenderable ==> Typed([player] + bots)
      ensures items == if worldRenderable then RenderList([player] + bots, viewport, inViewport) else []
    {
      items := [];
      if worldRenderable {
        assert ([player] + bots)[0] == player;
        items := SpriteRenderItems(player, viewport, inViewport);
        assert [player][..0] == [];
        var it := GetBotsIterator();
        while it != GetEndOfBotsIterator()
          invariant 0 <= it <= |bots|
          invariant Typed([player] + bots[..it])
          invariant items == RenderList([player] + bots[..it], viewport, inViewport)
          decreases |bots| - it
        {
          assert ([player] + bots)[it + 1] == bots[it];
          assert ([player] + bots[..it + 1])[..it + 1] == [player] + bots[..it];
          items := items + SpriteRenderItems(BotAt(it), viewport, inViewport);
          it := it + 1;
        }
        assert [player] + bots[..it] == [player] + bots;
      }
    }
  }
}
