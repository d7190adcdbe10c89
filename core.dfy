/** The engine and the world: the classes whose methods update the game state in place.
    Every method is proved to change its fields exactly as the functions of `Physics`,
    `Dispatch` and `Menus` say, and the properties are proved about those functions. */
module Core {
  import opened Characters
  import opened Collision
  import opened Physics
  import opened Dispatch
  import opened Menus

  const GAME_OVER: string := "Game Over!"
  const YOU_WIN: string := "You Win!"

  /** The player wins once its right edge is within this distance of the background's end. */
  const WIN_MARGIN: int := 50

  /** pygame's code for the Down arrow, the key held to hide. */
  const KEY_DOWN: nat := 274

  /** The entries of the start menu. */
  const MENU_ENTRIES: seq<string> := ["Start", "Quit"]

  /** The sprite an enemy shows after the sight test of a tick and, when it saw the player,
      `player_spotted`: the detected one if it saw the player and has one, the normal one if
      the test fell through, and the one it had otherwise. */
  function SightImage(before: Sprite, seen: bool, fellThrough: bool, hasDetectedImage: bool): (r: Sprite)
    ensures seen && hasDetectedImage ==> r == Detected
    ensures !seen && fellThrough ==> r == Normal
    ensures r != before ==> (seen && hasDetectedImage) || (!seen && fellThrough)
  {
    if seen then (if hasDetectedImage then Detected else before)
    else if fellThrough then Normal
    else before
  }

  /** The `putNarrative` calls of one playing frame, in order: a spotting during the world's
      tick, then the win check, then the cloak check. The last one that fires leaves its text. */
  function Verdict(spotted: bool, won: bool, lost: bool): (r: Option<string>)
    ensures r.None? <==> !spotted && !won && !lost
    ensures lost ==> r == Some(GAME_OVER)
    ensures won && !lost ==> r == Some(YOU_WIN)
    ensures spotted && !won && !lost ==> r == Some(GAME_OVER)
  {
    var afterTick := if spotted then Some(GAME_OVER) else None;
    var afterWin := if won then Some(YOU_WIN) else afterTick;
    if lost then Some(GAME_OVER) else afterWin
  }

  /** A player with no cloak left is caught even while walking into the goal. */
  lemma OutOfCloakBeatsWinning(spotted: bool)
    ensures Verdict(spotted, true, true) == Some(GAME_OVER)
  {
  }

  class Engine {
    const width: int
    const height: int
    var keyHandlers: Bindings
    var started: bool
    var narrate: bool
    var narrateText: string

    /** A new engine of the given window size: no handlers, not started, not narrating. */
    constructor (width: int, height: int)
      ensures this.width == width && this.height == height
      ensures keyHandlers == map[] && !started && !narrate && narrateText == ""
    {
      this.width, this.height := width, height;
      keyHandlers := map[];
      started := false;
      narrate := false;
      narrateText := "";
    }

    /** `register_key_handler`. */
    method RegisterKeyHandler(key: nat, handler: Handler)
      modifies this`keyHandlers
      ensures keyHandlers == Register(old(keyHandlers), key, handler)
    {
      keyHandlers := keyHandlers[key := HandlersOf(keyHandlers, key) + [handler]];
    }

    /** `putNarrative`: switch to narration with this text. Nothing switches it off again. */
    method PutNarrative(text: string)
      modifies this`narrate, this`narrateText
      ensures narrate && narrateText == text
    {
      narrate := true;
      narrateText := text;
    }

    method Stop()
      modifies this`started
      ensures !started
    {
      started := false;
    }

    /** `Engine.tick`: a window-close event quits at once; otherwise the handlers of the held keys
        run, key by key in `order` (how the bindings happen to be enumerated) and in registration
        order within a key, until one of them quits. `quit` says the process ends. */
    method Tick(world: World, order: seq<nat>, keysDown: seq<bool>, closeRequested: bool) returns (quit: bool)
      requires forall k :: k in order <==> k in keyHandlers
      requires forall i, j :: 0 <= i < j < |order| ==> order[i] != order[j]
      modifies world`x, world.player`x, world.player`y, world.player`facing, world.player`dy,
               world.player`jumping
      ensures closeRequested ==> quit && world.Snapshot() == old(world.Snapshot())
      ensures !closeRequested ==>
                Run(world.Snapshot(), quit)
                == RunAll(old(world.Snapshot()), Pressed(keyHandlers, order, keysDown), world.Measures())
    {
      if closeRequested {
        return true;
      }
      ghost var start := world.Snapshot();
      ghost var st := world.Measures();
      var k := 0;
      while k < |order|
        invariant 0 <= k <= |order|
        invariant RunAll(start, Pressed(keyHandlers, order[..k], keysDown), st) == Run(world.Snapshot(), false)
      {
        var key := order[k];
        assert order[..k + 1][..k] == order[..k];
        if key < |keysDown| && keysDown[key] {
          var hs := HandlersOf(keyHandlers, key);
          ghost var done := Pressed(keyHandlers, order[..k], keysDown);
          assert Pressed(keyHandlers, order[..k + 1], keysDown) == done + hs;
          RunAllAppend(start, done, hs, st);
          var quits := RunHandlers(world, hs);
          if quits {
            assert order == order[..k + 1] + order[k + 1..];
            PressedAppend(keyHandlers, order[..k + 1], order[k + 1..], keysDown);
            RunAllAppend(start, done + hs, Pressed(keyHandlers, order[k + 1..], keysDown), st);
            return true;
          }
        } else {
          ghost var done := Pressed(keyHandlers, order[..k], keysDown);
          assert Pressed(keyHandlers, order[..k + 1], keysDown) == done + [] == done;
        }
        k := k + 1;
      }
      assert order[..k] == order;
      quit := false;
    }

    /** The handlers of one held key, in registration order, until one of them quits. */
    method RunHandlers(world: World, hs: seq<Handler>) returns (quit: bool)
      modifies world`x, world.player`x, world.player`y, world.player`facing, world.player`dy,
               world.player`jumping
      ensures Run(world.Snapshot(), quit) == RunAll(old(world.Snapshot()), hs, world.Measures())
    {
      ghost var start := world.Snapshot();
      var j := 0;
      while j < |hs|
        invariant 0 <= j <= |hs|
        invariant RunAll(start, hs[..j], world.Measures()) == Run(world.Snapshot(), false)
      {
        assert hs[..j + 1][..j] == hs[..j];
        match hs[j] {
          case QuitGame =>
            QuitStopsTheRest(start, hs[..j], hs[j..], [], world.Measures());
            assert hs[..j] + hs[j..] + [] == hs;
            return true;
          case JumpAction =>
            world.PlayerJump();
          case WalkAction(d) =>
            world.PlayerWalk(d);
        }
        j := j + 1;
      }
      assert hs[..j] == hs;
      quit := false;
    }

    /** `Engine.init`: the start menu's loop over batches of events, before the game. Enter on
        Start starts the session (`start`); the session's own loop is `Frame`, one call per frame. */
    method Init(world: World, batches: seq<seq<MenuEvent>>, medkitHeight: int) returns (outcome: MenuOutcome)
      modifies this`started, world`medkits
      ensures outcome == MenuRun(0, batches, |MENU_ENTRIES|)
      ensures outcome == Started ==>
                started && world.medkits == InitialMedkits(world.width, world.height, world.floor, medkitHeight)
      ensures outcome != Started ==> started == old(started) && world.medkits == old(world.medkits)
    {
      var menu := new Menu();
      menu.Init(MENU_ENTRIES);
      var _ := menu.Draw(0);
      var b := 0;
      while b < |batches|
        invariant 0 <= b <= |batches|
        invariant menu.count == |MENU_ENTRIES|
        invariant MenuRun(menu.selection, batches[b..], |MENU_ENTRIES|) == MenuRun(0, batches, |MENU_ENTRIES|)
        invariant started == old(started) && world.medkits == old(world.medkits)
      {
        ghost var from := menu.selection;
        var ph := HandleBatch(menu, batches[b]);
        assert batches[b..][0] == batches[b] && batches[b..][1..] == batches[b + 1..];
        match ph {
          case Quitting => return Quit;
          case Exiting => return Exit;
          case Browsing(_, start) =>
            if start {
              Start(world, medkitHeight);
              return Started;
            }
        }
        b := b + 1;
      }
      outcome := Waiting;
    }

    /** One pass of the `for event in pygame.event.get()` loop of `Engine.init` over a batch of
        events. The result says how it ended; an event that ends the process ends the pass. */
    method HandleBatch(menu: Menu, batch: seq<MenuEvent>) returns (ph: MenuPhase)
      requires menu.count == |MENU_ENTRIES|
      modifies menu`selection
      ensures ph == OnBatch(Browsing(old(menu.selection), false), batch, |MENU_ENTRIES|)
      ensures ph.Browsing? ==> menu.selection == ph.selection
    {
      ghost var from := menu.selection;
      var start := false;
      var e := 0;
      while e < |batch|
        invariant 0 <= e <= |batch|
        invariant OnBatch(Browsing(from, false), batch[..e], |MENU_ENTRIES|) == Browsing(menu.selection, start)
      {
        assert batch[..e + 1][..e] == batch[..e];
        match batch[e] {
          case KeyDown(key) =>
            if key == Up {
              var _ := menu.Draw(-1);
            } else if key == Down {
              var _ := menu.Draw(1);
            } else if key == Return {
              var position := menu.GetPosition();
              if position == 0 {
                start := true;
              } else if position == 1 {
                MenuEnds(Browsing(from, false), batch, e + 1, Quitting);
                return Quitting;
              }
            } else if key == Escape {
              MenuEnds(Browsing(from, false), batch, e + 1, Exiting);
              return Exiting;
            }
          case WindowClosed =>
            MenuEnds(Browsing(from, false), batch, e + 1, Exiting);
            return Exiting;
          case OtherEvent =>
        }
        e := e + 1;
      }
      assert batch[..e] == batch;
      ph := Browsing(menu.selection, start);
    }

    /** The part of `Engine.start` before its loop: mark the session started and lay out the medkits. */
    method Start(world: World, medkitHeight: int)
      modifies this`started, world`medkits
      ensures started && world.medkits == InitialMedkits(world.width, world.height, world.floor, medkitHeight)
    {
      started := true;
      world.medkits := [Medkit(world.width / 3, world.height - world.floor - medkitHeight),
                        Medkit(2 * (world.width / 3), world.height - world.floor - medkitHeight)];
    }

    /** One iteration of the loop of `Engine.start`. While narrating, only the key handlers run.
        Otherwise the world ticks (which may narrate a spotting), the medkits are collected, the
        handlers run, and unless they quit the win and cloak checks follow. `tickScene` is the
        player and camera after the world's tick, and `spotted` says whether an enemy saw the
        player then. */
    method Frame(world: World, order: seq<nat>, keysDown: seq<bool>, closeRequested: bool)
      returns (quit: bool, ghost spotted: bool, ghost tickScene: Scene)
      requires world.engine == this
      requires world.EnemiesDistinct()
      requires forall k :: k in order <==> k in keyHandlers
      requires forall i, j :: 0 <= i < j < |order| ==> order[i] != order[j]
      modifies this`narrate, this`narrateText, world`x, world`medkits,
               world.player`x, world.player`y, world.player`dy, world.player`jumping, world.player`visible, world.player`cloak, world.player`facing,
               world.enemies`x, world.enemies`facing, world.enemies`image
      // while narrating: only the handlers run
      ensures old(narrate) ==>
                && !spotted && tickScene == old(world.Snapshot())
                && narrate && narrateText == old(narrateText) && world.medkits == old(world.medkits)
                && forall i :: 0 <= i < |world.enemies| ==>
                     world.enemies[i].Position() == old(world.enemies[i].Position())
                     && world.enemies[i].image == old(world.enemies[i].image)
      // otherwise: the world's tick, its enemies, the spotting and the medkits
      ensures !old(narrate) ==>
                tickScene == Physics.Tick(old(world.Snapshot()), IsDown(KEY_DOWN, keysDown), world.statics, world.Measures())
      ensures !old(narrate) ==>
                forall i :: 0 <= i < |world.enemies| ==>
                  var e := world.enemies[i];
                  && e.Position() == PatrolStep(old(e.Position()), e.patrolLeft, e.patrolRight, e.width, e.speed)
                  && e.image == SightImage(old(e.image), SeenBy(e, tickScene.player, world.player.width),
                                           FallsThrough(e.y, e.facing, tickScene.player), e.hasDetectedImage)
      ensures !old(narrate) ==>
                (spotted <==> exists i :: 0 <= i < |world.enemies| && SeenBy(world.enemies[i], tickScene.player, world.player.width))
      ensures !old(narrate) ==> world.medkits == Sweep(old(world.medkits), 0, tickScene.player.x + world.player.width)
      // the handlers, from the scene the frame had reached
      ensures var from := if old(narrate) then old(world.Snapshot())
                          else Collected(tickScene, |old(world.medkits)| - |world.medkits|);
              && (closeRequested ==> quit && world.Snapshot() == from)
              && (!closeRequested ==>
                    Run(world.Snapshot(), quit) == RunAll(from, Pressed(keyHandlers, order, keysDown), world.Measures()))
      // the narration: the spotting, then, unless a handler quit, the win and cloak checks
      ensures !old(narrate) ==>
                var v := Verdict(spotted, !quit && world.Won(), !quit && world.player.cloak <= 0.0);
                narrate == v.Some? && (v.Some? ==> narrateText == v.value)
    {
      if narrate {
        quit := Tick(world, order, keysDown, closeRequested);
        spotted, tickScene := false, old(world.Snapshot());
      } else {
        quit, spotted, tickScene := Play(world, order, keysDown, closeRequested);
      }
    }

    /** The world's tick and the medkit collection of a frame while not narrating. */
    method Advance(world: World, downHeld: bool) returns (ghost spotted: bool, ghost tickScene: Scene)
      requires world.engine == this && !narrate
      requires world.EnemiesDistinct()
      modifies this`narrate, this`narrateText, world`x, world`medkits,
               world.player`x, world.player`y, world.player`dy, world.player`jumping, world.player`visible, world.player`cloak,
               world.enemies`x, world.enemies`facing, world.enemies`image
      ensures tickScene == Physics.Tick(old(world.Snapshot()), downHeld, world.statics, world.Measures())
      ensures forall i :: 0 <= i < |world.enemies| ==>
                var e := world.enemies[i];
                && e.Position() == PatrolStep(old(e.Position()), e.patrolLeft, e.patrolRight, e.width, e.speed)
                && e.image == SightImage(old(e.image), SeenBy(e, tickScene.player, world.player.width),
                                         FallsThrough(e.y, e.facing, tickScene.player), e.hasDetectedImage)
      ensures spotted <==> exists i :: 0 <= i < |world.enemies| && SeenBy(world.enemies[i], tickScene.player, world.player.width)
      ensures narrate == spotted && (spotted ==> narrateText == GAME_OVER)
      ensures world.medkits == Sweep(old(world.medkits), 0, tickScene.player.x + world.player.width)
      ensures world.Snapshot() == Collected(tickScene, |old(world.medkits)| - |world.medkits|)
    {
      world.Tick(downHeld);
      tickScene := world.Snapshot();
      spotted := narrate;
      ghost var kits := world.medkits;
      world.Render();
      assert world.Snapshot() == Collected(tickScene, |kits| - |world.medkits|);
    }

    /** A frame while not narrating. */
    method Play(world: World, order: seq<nat>, keysDown: seq<bool>, closeRequested: bool)
      returns (quit: bool, ghost spotted: bool, ghost tickScene: Scene)
      requires world.engine == this && !narrate
      requires world.EnemiesDistinct()
      requires forall k :: k in order <==> k in keyHandlers
      requires forall i, j :: 0 <= i < j < |order| ==> order[i] != order[j]
      modifies this`narrate, this`narrateText, world`x, world`medkits,
               world.player`x, world.player`y, world.player`dy, world.player`jumping, world.player`visible, world.player`cloak, world.player`facing,
               world.enemies`x, world.enemies`facing, world.enemies`image
      ensures tickScene == Physics.Tick(old(world.Snapshot()), IsDown(KEY_DOWN, keysDown), world.statics, world.Measures())
      ensures forall i :: 0 <= i < |world.enemies| ==>
                var e := world.enemies[i];
                && e.Position() == PatrolStep(old(e.Position()), e.patrolLeft, e.patrolRight, e.width, e.speed)
                && e.image == SightImage(old(e.image), SeenBy(e, tickScene.player, world.player.width),
                                         FallsThrough(e.y, e.facing, tickScene.player), e.hasDetectedImage)
      ensures spotted <==> exists i :: 0 <= i < |world.enemies| && SeenBy(world.enemies[i], tickScene.player, world.player.width)
      ensures world.medkits == Sweep(old(world.medkits), 0, tickScene.player.x + world.player.width)
      ensures var from := Collected(tickScene, |old(world.medkits)| - |world.medkits|);
              && (closeRequested ==> quit && world.Snapshot() == from)
              && (!closeRequested ==>
                    Run(world.Snapshot(), quit) == RunAll(from, Pressed(keyHandlers, order, keysDown), world.Measures()))
      ensures var v := Verdict(spotted, !quit && world.Won(), !quit && world.player.cloak <= 0.0);
              narrate == v.Some? && (v.Some? ==> narrateText == v.value)
    {
      spotted, tickScene := Advance(world, IsDown(KEY_DOWN, keysDown));
      quit := Tick(world, order, keysDown, closeRequested);
      if !quit {
        Conclude(world);
      }
    }

    /** The win check and then the cloak check that end a frame whose handlers did not quit. */
    method Conclude(world: World)
      requires narrate ==> narrateText == GAME_OVER
      modifies this`narrate, this`narrateText
      ensures var v := Verdict(old(narrate), world.Won(), world.player.cloak <= 0.0);
              narrate == v.Some? && (v.Some? ==> narrateText == v.value)
    {
      if world.Won() {
        PutNarrative(YOU_WIN);
      }
      if world.player.cloak <= 0.0 {
        PutNarrative(GAME_OVER);
      }
    }
  }

  /** Whether the enemy, where it now stands, sees a player in state p of width pw. */
  predicate SeenBy(e: PatrollingEnemy, p: PlayerState, pw: int)
    reads e
  {
    Sees(e.x, e.y, e.facing, e.viewDistance, p, pw)
  }

  /** The scene after the medkit loop collected `kits` medkits: 50 more cloak for each. */
  function Collected(sc: Scene, kits: int): (r: Scene)
    ensures r.camera == sc.camera && r.player.(cloak := sc.player.cloak) == sc.player
    ensures kits > 0 ==> r.player.cloak > sc.player.cloak
    ensures kits == 0 ==> r == sc
  {
    sc.(player := sc.player.(cloak := sc.player.cloak + MEDKIT_CLOAK * (kits as real)))
  }

  /** A handler that quits ends the run where it stands, whatever was to follow. */
  lemma QuitStopsTheRest(sc: Scene, done: seq<Handler>, rest: seq<Handler>, later: seq<Handler>, st: Stage)
    requires !RunAll(sc, done, st).quit && rest != [] && rest[0] == QuitGame
    ensures RunAll(sc, done + rest + later, st) == Run(RunAll(sc, done, st).scene, true)
  {
    var r := RunAll(sc, done, st);
    assert (done + [QuitGame])[..|done|] == done;
    assert RunAll(sc, done + [QuitGame], st) == Run(r.scene, true);
    assert done + rest + later == (done + [QuitGame]) + (rest[1..] + later);
    RunAllAppend(sc, done + [QuitGame], rest[1..] + later, st);
  }

  /** An event that ends the process decides the whole menu run. */
  lemma MenuEnds(from: MenuPhase, batch: seq<MenuEvent>, n: nat, ending: MenuPhase)
    requires 0 < n <= |batch| && from.Browsing? && !ending.Browsing?
    requires OnBatch(from, batch[..n], |MENU_ENTRIES|) == ending
    ensures OnBatch(from, batch, |MENU_ENTRIES|) == ending
  {
    assert batch == batch[..n] + batch[n..];
    OnBatchAppend(from, batch[..n], batch[n..], |MENU_ENTRIES|);
    EndingAbsorbs(ending, batch[n..], |MENU_ENTRIES|);
  }

  class World {
    const player: Player
    const engine: Engine
    var x: int
    const y: int
    const width: int
    const height: int
    const floor: int
    const gravity: int
    var enemies: seq<PatrollingEnemy>
    var statics: seq<StaticRect>
    var medkits: seq<Medkit>

    /** The measures that never change: background, floor, gravity, window width, player size. */
    function Measures(): Stage {
      Stage(width, height, floor, gravity, engine.width, player.width, player.height, player.speed)
    }

    /** The player and the camera scroll. */
    function Snapshot(): Scene
      reads this, player
    {
      Scene(player.State(), x)
    }

    /** Each enemy is a separate object. */
    predicate EnemiesDistinct()
      reads this
    {
      forall i, j :: 0 <= i < j < |enemies| ==> enemies[i] != enemies[j]
    }

    predicate Won()
      reads this, player
      ensures player.x == width - player.width ==> Won()
      ensures Won() ==> player.x > width - player.width - WIN_MARGIN
    {
      player.x + player.width > width - WIN_MARGIN
    }

    /** A new world over a background of the given size; the player is clamped into it at once. */
    constructor (backgroundWidth: nat, backgroundHeight: nat, player: Player, engine: Engine,
                 x: int, y: int, floor: int, gravity: int)
      modifies player`x, player`y
      ensures this.player == player && this.engine == engine && this.y == y
      ensures width == backgroundWidth && height == backgroundHeight
      ensures this.floor == floor && this.gravity == gravity
      ensures enemies == [] && statics == [] && medkits == []
      ensures Snapshot() == Move(Scene(old(player.State()), x), 0, 0, Measures())
      ensures Clamped(Snapshot(), Measures())
    {
      this.player, this.engine := player, engine;
      this.x, this.y := x, y;
      width, height := backgroundWidth, backgroundHeight;
      this.floor, this.gravity := floor, gravity;
      enemies, statics, medkits := [], [], [];
      new;
      MovePlayer(0, 0);
    }

    /** `World(background, player, engine, floor=floor)`, as the game builds its world: the
        default scroll (0, 0) and the default gravity. */
    constructor Default(backgroundWidth: nat, backgroundHeight: nat, player: Player, engine: Engine, floor: int)
      modifies player`x, player`y
      ensures this.player == player && this.engine == engine && y == 0
      ensures width == backgroundWidth && height == backgroundHeight
      ensures this.floor == floor && gravity == DEFAULT_GRAVITY
      ensures enemies == [] && statics == [] && medkits == []
      ensures Snapshot() == Move(Scene(old(player.State()), 0), 0, 0, Measures())
      ensures Clamped(Snapshot(), Measures())
    {
      this.player, this.engine := player, engine;
      x, y := 0, 0;
      width, height := backgroundWidth, backgroundHeight;
      this.floor, gravity := floor, DEFAULT_GRAVITY;
      enemies, statics, medkits := [], [], [];
      new;
      MovePlayer(0, 0);
    }

    /** `move_player(dx, dy)`. */
    method MovePlayer(dx: int, dy: int)
      modifies this`x, player`x, player`y
      ensures Snapshot() == Move(old(Snapshot()), dx, dy, Measures())
    {
      player.x := player.x + dx;
      player.y := player.y + dy;
      if player.x < 0 {
        player.x := 0;
      } else if player.x + player.width > width {
        player.x := width - player.width;
      }
      assert player.x == ClampX(old(player.x) + dx, player.width, width);
      if player.y < floor {
        player.y := floor;
      }
      if player.y + player.height > height {
        player.y := height - player.height;
      }
      assert player.y == ClampY(old(player.y) + dy, player.height, floor, height);
      FollowPlayer();
    }

    /** The camera part of `move_player`. */
    method FollowPlayer()
      modifies this`x
      ensures x == Scroll(old(x), player.x, player.width, engine.width, width)
    {
      var playerScreenX := player.x - x;
      var leftCutoff := LeftCutoff(engine.width);
      var rightCutoff := RightCutoff(engine.width);
      if playerScreenX < leftCutoff {
        x := player.x - leftCutoff;
      } else if playerScreenX + player.width > rightCutoff {
        x := player.x - rightCutoff + player.width;
      }
      if x < 0 {
        x := 0;
      } else if x > width - engine.width {
        x := width - engine.width;
      }
    }

    /** `player_walk(direction)`. */
    method PlayerWalk(direction: int)
      modifies this`x, player`x, player`y, player`facing
      ensures Snapshot() == Walk(old(Snapshot()), direction, Measures())
    {
      if player.visible {
        MovePlayer(direction * player.speed, 0);
        if direction != player.facing {
          player.facing := direction;
        }
      }
    }

    /** `player_jump`. */
    method PlayerJump()
      modifies player`dy, player`jumping, player`y
      ensures Snapshot() == Jump(old(Snapshot()), Measures())
    {
      if !player.jumping && player.visible {
        player.dy := -gravity * 15;
        player.jumping := true;
        player.y := player.y + player.dy;
      }
    }

    /** `World.tick`, with the state of the Down key passed in: fall, hide, correct against each
        static, then move each enemy and let it look for the player. */
    method Tick(downHeld: bool)
      requires EnemiesDistinct()
      modifies this`x, player`x, player`y, player`dy, player`jumping, player`visible, player`cloak,
               enemies`x, enemies`facing, enemies`image, engine`narrate, engine`narrateText
      ensures Snapshot() == Physics.Tick(old(Snapshot()), downHeld, statics, Measures())
      ensures forall i :: 0 <= i < |enemies| ==>
                var e := enemies[i];
                && e.Position() == PatrolStep(old(e.Position()), e.patrolLeft, e.patrolRight, e.width, e.speed)
                && e.image == SightImage(old(e.image), e.Spots(player),
                                         FallsThrough(e.y, e.facing, player.State()), e.hasDetectedImage)
      ensures engine.narrate == (old(engine.narrate) || exists i :: 0 <= i < |enemies| && enemies[i].Spots(player))
      ensures engine.narrateText ==
                if exists i :: 0 <= i < |enemies| && enemies[i].Spots(player) then GAME_OVER
                else old(engine.narrateText)
    {
      TickPlayer(downHeld);
      SpotAll();
    }

    /** The player part of `World.tick`: fall, hide, and the statics loop. */
    method TickPlayer(downHeld: bool)
      modifies this`x, player`x, player`y, player`dy, player`jumping, player`visible, player`cloak
      ensures Snapshot() == Physics.Tick(old(Snapshot()), downHeld, statics, Measures())
    {
      Fall();
      ghost var fallen := Snapshot();
      if downHeld {
        player.visible := false;
        player.cloak := player.cloak - HIDE_COST;
      } else {
        player.visible := true;
      }
      assert player.State() == Hide(fallen.player, downHeld);
      ResolveStatics();
    }

    /** The statics loop of `World.tick`: each static in turn corrects the player's position. */
    method ResolveStatics()
      modifies player`x, player`y, player`dy, player`jumping
      ensures player.State() == ResolveAll(old(player.State()), statics, Measures())
    {
      var i := 0;
      while i < |statics|
        invariant 0 <= i <= |statics|
        invariant player.State() == ResolveAll(old(player.State()), statics[..i], Measures())
      {
        assert statics[..i + 1][..i] == statics[..i];
        var newPos := Colliding(statics[i], player.x, player.y, player.width, player.height);
        if newPos.Some? {
          if player.y != newPos.value.y {
            player.dy := 0;
            player.jumping := false;
          }
          player.x := newPos.value.x;
          player.y := newPos.value.y;
        }
        i := i + 1;
      }
      assert statics[..i] == statics;
    }

    /** The falling step of `World.tick`. */
    method Fall()
      modifies this`x, player`x, player`y, player`dy, player`jumping
      ensures Snapshot() == Physics.Fall(old(Snapshot()), Measures())
    {
      if player.y > floor {
        MovePlayer(0, player.dy);
        player.dy := player.dy + gravity;
        if player.y <= floor {
          player.dy := 0;
          player.jumping := false;
        }
      }
    }

    /** The enemies loop of `World.tick`. */
    method SpotAll()
      requires EnemiesDistinct()
      modifies enemies`x, enemies`facing, enemies`image, engine`narrate, engine`narrateText
      ensures forall i :: 0 <= i < |enemies| ==>
                var e := enemies[i];
                && e.Position() == PatrolStep(old(e.Position()), e.patrolLeft, e.patrolRight, e.width, e.speed)
                && e.image == SightImage(old(e.image), e.Spots(player),
                                         FallsThrough(e.y, e.facing, player.State()), e.hasDetectedImage)
      ensures engine.narrate == (old(engine.narrate) || exists i :: 0 <= i < |enemies| && enemies[i].Spots(player))
      ensures engine.narrateText ==
                if exists i :: 0 <= i < |enemies| && enemies[i].Spots(player) then GAME_OVER
                else old(engine.narrateText)
    {
      ghost var p := player.State();
      var j := 0;
      while j < |enemies|
        invariant 0 <= j <= |enemies|
        invariant forall i :: 0 <= i < j ==>
                    var e := enemies[i];
                    && e.Position() == PatrolStep(old(e.Position()), e.patrolLeft, e.patrolRight, e.width, e.speed)
                    && e.image == SightImage(old(e.image), SeenBy(e, p, player.width),
                                             FallsThrough(e.y, e.facing, p), e.hasDetectedImage)
        invariant forall i :: j <= i < |enemies| ==>
                    enemies[i].Position() == old(enemies[i].Position()) && enemies[i].image == old(enemies[i].image)
        invariant engine.narrate == (old(engine.narrate) || exists i :: 0 <= i < j && SeenBy(enemies[i], p, player.width))
        invariant engine.narrateText ==
                    if exists i :: 0 <= i < j && SeenBy(enemies[i], p, player.width) then GAME_OVER
                    else old(engine.narrateText)
      {
        var e := enemies[j];
        assert forall i :: 0 <= i < |enemies| && i != j ==> enemies[i] != e;
        Watch(e);
        j := j + 1;
      }
    }

    /** One iteration of the enemies loop: the enemy moves, looks, and on seeing the player spots it. */
    method Watch(enemy: PatrollingEnemy)
      modifies enemy`x, enemy`facing, enemy`image, engine`narrate, engine`narrateText
      ensures enemy.Position() == PatrolStep(old(enemy.Position()), enemy.patrolLeft, enemy.patrolRight,
                                             enemy.width, enemy.speed)
      ensures enemy.image == SightImage(old(enemy.image), enemy.Spots(player),
                                        FallsThrough(enemy.y, enemy.facing, player.State()), enemy.hasDetectedImage)
      ensures engine.narrate == (old(engine.narrate) || enemy.Spots(player))
      ensures engine.narrateText == if enemy.Spots(player) then GAME_OVER else old(engine.narrateText)
    {
      enemy.Move();
      var seen := enemy.CanSee(player);
      if seen {
        PlayerSpotted(enemy);
      }
    }

    /** `player_spotted`: show the detected sprite, if the enemy has one, and lose. */
    method PlayerSpotted(enemy: PatrollingEnemy)
      modifies enemy`image, engine`narrate, engine`narrateText
      ensures enemy.image == if enemy.hasDetectedImage then Detected else old(enemy.image)
      ensures engine.narrate && engine.narrateText == GAME_OVER
    {
      if enemy.hasDetectedImage && enemy.image != Detected {
        enemy.image := Detected;
      }
      Lose();
    }

    /** `lose`. */
    method Lose()
      modifies engine`narrate, engine`narrateText
      ensures engine.narrate && engine.narrateText == GAME_OVER
    {
      engine.PutNarrative(GAME_OVER);
    }

    /** The medkit loop of `World.render`: each kit the player's right edge has reached adds 50 to
        the cloak and is removed from the list while the loop runs over it. */
    method Render()
      modifies this`medkits, player`cloak
      ensures medkits == Sweep(old(medkits), 0, player.x + player.width)
      ensures player.cloak == old(player.cloak) + MEDKIT_CLOAK * ((|old(medkits)| - |medkits|) as real)
    {
      var i := 0;
      while i < |medkits|
        invariant Sweep(medkits, i, player.x + player.width) == Sweep(old(medkits), 0, player.x + player.width)
        invariant |medkits| <= |old(medkits)|
        invariant player.cloak == old(player.cloak) + MEDKIT_CLOAK * ((|old(medkits)| - |medkits|) as real)
        decreases |medkits| - i
      {
        var coords := medkits[i];
        if player.x + player.width >= coords.x {
          ghost var before := |old(medkits)| - |medkits|;
          player.cloak := player.cloak + MEDKIT_CLOAK;
          medkits := RemoveFirst(medkits, coords);
          assert |old(medkits)| - |medkits| == before + 1;
          assert (before + 1) as real == before as real + 1.0;
        }
        i := i + 1;
      }
    }
  }
}
