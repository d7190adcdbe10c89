/** The arithmetic of `World`, on values: clamping the player to the background, scrolling the
    camera, walking, jumping, falling, hiding, static collisions and collecting medkits.
    The class `Core.World` is proved to change its fields exactly as these functions say. */
module Physics {
  import opened Characters
  import opened Collision

  /** The fixed measures of a world: background size, floor height, gravity, the width of the
      window (the engine's width), and the player's size and speed. */
  datatype Stage = Stage(width: int, height: int, floor: int, gravity: int, viewWidth: int,
                         playerWidth: nat, playerHeight: nat, playerSpeed: int)

  /** What the movement code changes: the player and the camera's horizontal scroll. */
  datatype Scene = Scene(player: PlayerState, camera: int)

  /** The horizontal clamp of `move_player`: keep the player on the background. */
  function ClampX(x: int, pw: int, width: int): (r: int)
    ensures pw <= width ==> 0 <= r <= width - pw
    ensures 0 <= x && x + pw <= width ==> r == x
  {
    if x < 0 then 0 else if x + pw > width then width - pw else x
  }

  /** The vertical clamp of `move_player`: first lift to the floor, then lower below the top. */
  function ClampY(y: int, ph: int, floor: int, height: int): (r: int)
    ensures floor + ph <= height ==> floor <= r <= height - ph
    ensures floor <= y && y + ph <= height ==> r == y
  {
    var lifted := if y < floor then floor else y;
    if lifted + ph > height then height - ph else lifted
  }

  /** The window's middle third, where the camera keeps the player (integer division, as in
      the source; `/` rounds down for a positive divisor in both languages). */
  function LeftCutoff(viewWidth: int): (r: int)
    ensures 3 * r <= viewWidth < 3 * r + 3
  {
    viewWidth * 1 / 3
  }

  function RightCutoff(viewWidth: int): (r: int)
    ensures 3 * r <= 2 * viewWidth < 3 * r + 3
    ensures viewWidth >= 0 ==> LeftCutoff(viewWidth) <= r
  {
    viewWidth * 2 / 3
  }

  /** The camera part of `move_player`: slide so that the player at px (width pw) is back in the
      middle third of the window, then keep the camera inside the level. */
  function Scroll(camera: int, px: int, pw: int, viewWidth: int, width: int): (r: int)
    ensures viewWidth <= width ==> 0 <= r <= width - viewWidth
    ensures (0 < r < width - viewWidth && pw <= RightCutoff(viewWidth) - LeftCutoff(viewWidth))
            ==> LeftCutoff(viewWidth) <= px - r && px - r + pw <= RightCutoff(viewWidth)
    ensures (0 <= camera <= width - viewWidth && LeftCutoff(viewWidth) <= px - camera
             && px - camera + pw <= RightCutoff(viewWidth)) ==> r == camera
  {
    var left, right := LeftCutoff(viewWidth), RightCutoff(viewWidth);
    var slid := if px - camera < left then px - left
                else if px - camera + pw > right then px - right + pw
                else camera;
    if slid < 0 then 0 else if slid > width - viewWidth then width - viewWidth else slid
  }

  /** The bounds `move_player` establishes, each under the condition that makes it satisfiable. */
  predicate Clamped(sc: Scene, st: Stage) {
    && (st.playerWidth <= st.width ==> 0 <= sc.player.x <= st.width - st.playerWidth)
    && (st.floor + st.playerHeight <= st.height ==>
          st.floor <= sc.player.y <= st.height - st.playerHeight)
    && (st.viewWidth <= st.width ==> 0 <= sc.camera <= st.width - st.viewWidth)
  }

  /** `World.move_player(dx, dy)`. */
  function Move(sc: Scene, dx: int, dy: int, st: Stage): (r: Scene)
    ensures Clamped(r, st)
    ensures r.player.(x := sc.player.x, y := sc.player.y) == sc.player
    ensures (0 <= sc.player.x + dx && sc.player.x + dx + st.playerWidth <= st.width)
            ==> r.player.x == sc.player.x + dx
    ensures (st.floor <= sc.player.y + dy && sc.player.y + dy + st.playerHeight <= st.height)
            ==> r.player.y == sc.player.y + dy
  {
    var x := ClampX(sc.player.x + dx, st.playerWidth, st.width);
    var y := ClampY(sc.player.y + dy, st.playerHeight, st.floor, st.height);
    Scene(sc.player.(x := x, y := y), Scroll(sc.camera, x, st.playerWidth, st.viewWidth, st.width))
  }

  /** `World.player_walk(direction)`: a visible player turns to `direction` and moves by
      direction * speed; a hidden one does not move. */
  function Walk(sc: Scene, direction: int, st: Stage): (r: Scene)
    ensures !sc.player.visible ==> r == sc
    ensures sc.player.visible ==>
              && r.player.facing == direction
              && r.player.x == ClampX(sc.player.x + direction * st.playerSpeed, st.playerWidth, st.width)
              && Clamped(r, st)
    ensures r.player.(x := sc.player.x, y := sc.player.y, facing := sc.player.facing) == sc.player
    ensures (Clamped(sc, st) && st.floor + st.playerHeight <= st.height) ==> r.player.y == sc.player.y
  {
    if sc.player.visible then
      var moved := Move(sc, direction * st.playerSpeed, 0, st);
      moved.(player := moved.player.(facing := direction))
    else
      sc
  }

  /** The world's default gravity (`World(..., gravity=-2)`), which the game keeps. */
  const DEFAULT_GRAVITY: int := -2

  /** The jump impulse: fifteen times the gravity, against it. */
  function JumpImpulse(st: Stage): (r: int)
    ensures st.gravity < 0 ==> r > 0
    ensures st.gravity == DEFAULT_GRAVITY ==> r == 30
  {
    -st.gravity * 15
  }

  /** `World.player_jump`: a visible player that is not already jumping gets the upward impulse
      and rises by it at once, without clamping and without moving the camera. */
  function Jump(sc: Scene, st: Stage): (r: Scene)
    ensures (sc.player.jumping || !sc.player.visible) ==> r == sc
    ensures (!sc.player.jumping && sc.player.visible) ==>
              && r.player.jumping
              && r.player.dy == JumpImpulse(st)
              && r.player.y == sc.player.y + JumpImpulse(st)
    ensures r.camera == sc.camera
    ensures r.player.(y := sc.player.y, dy := sc.player.dy, jumping := sc.player.jumping) == sc.player
  {
    if !sc.player.jumping && sc.player.visible then
      Scene(sc.player.(dy := JumpImpulse(st), jumping := true, y := sc.player.y + JumpImpulse(st)), sc.camera)
    else
      sc
  }

  /** The first step of `World.tick`: a player above the floor moves by dy (through
      `move_player`), gravity is added to dy, and a player back on (or under) the floor lands. */
  function Fall(sc: Scene, st: Stage): (r: Scene)
    ensures sc.player.y <= st.floor ==> r == sc
    ensures sc.player.y > st.floor ==>
              && Clamped(r, st)
              && (st.floor + st.playerHeight <= st.height ==> r.player.y >= st.floor)
              && (r.player.y <= st.floor ==> r.player.dy == 0 && !r.player.jumping)
              && (r.player.y > st.floor ==>
                    r.player.dy == sc.player.dy + st.gravity && r.player.jumping == sc.player.jumping)
    ensures r.player.(x := sc.player.x, y := sc.player.y, dy := sc.player.dy,
                      jumping := sc.player.jumping) == sc.player
  {
    if sc.player.y > st.floor then
      var moved := Move(sc, 0, sc.player.dy, st);
      var p := moved.player.(dy := sc.player.dy + st.gravity);
      if p.y <= st.floor then moved.(player := p.(dy := 0, jumping := false))
      else moved.(player := p)
    else
      sc
  }

  /** Cloak spent by one tick of hiding. */
  const HIDE_COST: real := 0.5

  /** The hiding step of `World.tick`: holding Down hides the player and spends cloak;
      otherwise the player is visible and the cloak is untouched. */
  function Hide(p: PlayerState, downHeld: bool): (r: PlayerState)
    ensures downHeld ==> !r.visible && r.cloak == p.cloak - HIDE_COST
    ensures !downHeld ==> r.visible && r.cloak == p.cloak
    ensures r.(visible := p.visible, cloak := p.cloak) == p
  {
    if downHeld then p.(visible := false, cloak := p.cloak - HIDE_COST) else p.(visible := true)
  }

  /** One iteration of the statics loop of `World.tick`: move the player to the corrected position,
      cancelling the vertical motion only when the correction changed the height. */
  function Resolve(p: PlayerState, s: StaticRect, st: Stage): (r: PlayerState)
    ensures Colliding(s, p.x, p.y, st.playerWidth, st.playerHeight).None? ==> r == p
    ensures Colliding(s, p.x, p.y, st.playerWidth, st.playerHeight).Some? ==>
              Pos(r.x, r.y) == Colliding(s, p.x, p.y, st.playerWidth, st.playerHeight).value
    ensures r.y != p.y ==> r.dy == 0 && !r.jumping
    ensures r.y == p.y ==> r.dy == p.dy && r.jumping == p.jumping
    ensures r.(x := p.x, y := p.y, dy := p.dy, jumping := p.jumping) == p
  {
    match Colliding(s, p.x, p.y, st.playerWidth, st.playerHeight)
    case None => p
    case Some(pos) =>
      var q := if p.y != pos.y then p.(dy := 0, jumping := false) else p;
      q.(x := pos.x, y := pos.y)
  }

  /** The whole statics loop: each static in list order corrects the position left by the previous ones. */
  function ResolveAll(p: PlayerState, statics: seq<StaticRect>, st: Stage): (r: PlayerState)
    ensures r.facing == p.facing && r.visible == p.visible && r.cloak == p.cloak
    ensures (forall i :: 0 <= i < |statics| ==> Colliding(statics[i], p.x, p.y, st.playerWidth, st.playerHeight).None?)
            ==> r == p
  {
    if statics == [] then p
    else
      var before := ResolveAll(p, statics[..|statics| - 1], st);
      Resolve(before, statics[|statics| - 1], st)
  }

  /** Running into the same static twice corrects no more than running into it once. */
  lemma ResolveIdempotent(p: PlayerState, s: StaticRect, st: Stage)
    requires s.width > 0 && s.height > 0 && st.playerWidth > 0 && st.playerHeight > 0
    ensures Resolve(Resolve(p, s, st), s, st) == Resolve(p, s, st)
  {
    if Colliding(s, p.x, p.y, st.playerWidth, st.playerHeight).Some? {
      CollidingStable(s, p.x, p.y, st.playerWidth, st.playerHeight);
    }
  }

  /** The player part of `World.tick`: fall, hide, then the statics. The camera moves only in the fall. */
  function Tick(sc: Scene, downHeld: bool, statics: seq<StaticRect>, st: Stage): (r: Scene)
    ensures r.camera == Fall(sc, st).camera
    ensures r.player.visible == !downHeld
    ensures r.player.cloak == if downHeld then sc.player.cloak - HIDE_COST else sc.player.cloak
    ensures r.player.facing == sc.player.facing
  {
    var fallen := Fall(sc, st);
    Scene(ResolveAll(Hide(fallen.player, downHeld), statics, st), fallen.camera)
  }

  /** A player at x=0 with speed 15, walking right on an open background, ends up at x=15. */
  lemma WalkExample(p: PlayerState, st: Stage)
    requires p.x == 0 && p.visible && st.playerSpeed == 15 && 15 + st.playerWidth <= st.width
    ensures Walk(Scene(p, 0), RIGHT, st).player.x == 15
  {
  }

  /** A player with 0.5 of cloak who hides for one tick is left with none, so out of cloak. */
  lemma HideExample(sc: Scene, st: Stage)
    requires sc.player.cloak == 0.5
    ensures Tick(sc, true, [], st).player.cloak == 0.0
    ensures Tick(sc, true, [], st).player.cloak <= 0.0
  {
  }

  // ---- medkits ----

  /** A medkit lying at (x, y). */
  datatype Medkit = Medkit(x: int, y: int)

  /** Cloak restored by one medkit. */
  const MEDKIT_CLOAK: real := 50.0

  /** The two medkits `Engine.start` lays out, at one and two thirds of the background's width,
      resting on the floor (y counted here from the top of the background, as the source does). */
  function InitialMedkits(width: int, height: int, floor: int, medkitHeight: int): (r: seq<Medkit>)
    ensures |r| == 2 && r[0].y == r[1].y == height - floor - medkitHeight
    ensures r[0].x == width / 3 && r[1].x == 2 * r[0].x
    ensures width >= 0 ==> 0 <= r[0].x <= r[1].x <= width
  {
    [Medkit(width / 3, height - floor - medkitHeight), Medkit(2 * (width / 3), height - floor - medkitHeight)]
  }

  /** Where `m` first occurs in `l`. */
  function FirstIndex(l: seq<Medkit>, m: Medkit): (k: nat)
    requires m in l
    ensures k < |l| && l[k] == m && m !in l[..k]
  {
    if l[0] == m then 0
    else
      assert l[1..][..FirstIndex(l[1..], m)] == l[1..FirstIndex(l[1..], m) + 1];
      FirstIndex(l[1..], m) + 1
  }

  /** Python's `list.remove`: drop the first element equal to m; the others keep their order. */
  function RemoveFirst(l: seq<Medkit>, m: Medkit): (r: seq<Medkit>)
    ensures m in l ==> r == l[..FirstIndex(l, m)] + l[FirstIndex(l, m) + 1..]
    ensures m in l ==> |r| == |l| - 1
    ensures m !in l ==> r == l
  {
    if l == [] then []
    else if l[0] == m then
      l[1..]
    else
      var rest := RemoveFirst(l[1..], m);
      assert m in l ==> [l[0]] + rest == l[..FirstIndex(l, m)] + l[FirstIndex(l, m) + 1..] by {
        if m in l {
          assert m in l[1..];
          var k := FirstIndex(l[1..], m);
          assert FirstIndex(l, m) == k + 1;
          assert rest == l[1..][..k] + l[1..][k + 1..];
          ConsSplit(l, k);
        }
      }
      assert m !in l ==> [l[0]] + rest == l by {
        if m !in l {
          assert m !in l[1..];
          assert l == [l[0]] + l[1..];
        }
      }
      [l[0]] + rest
  }

  /** `list.remove` takes exactly one occurrence of m out of the list, if there is one. */
  lemma RemoveFirstMultiset(l: seq<Medkit>, m: Medkit)
    ensures multiset(RemoveFirst(l, m)) == multiset(l) - multiset{m}
  {
    if m in l {
      var k := FirstIndex(l, m);
      assert l == l[..k] + [m] + l[k + 1..];
    }
  }

  /** Cutting element k out of the tail is cutting element k + 1 out of the whole. */
  lemma ConsSplit(l: seq<Medkit>, k: nat)
    requires k + 1 < |l|
    ensures [l[0]] + (l[1..][..k] + l[1..][k + 1..]) == l[..k + 1] + l[k + 2..]
  {
    assert l[..k + 1] == [l[0]] + l[1..][..k];
    assert l[k + 2..] == l[1..][k + 1..];
  }

  /** The medkit loop of `World.render`, from index i of the list on. A kit whose x the player's
      right edge has reached is collected and removed from the list being iterated; the loop's
      index advances all the same, so the kit that moved into the removed one's place is not
      examined in this pass. */
  function Sweep(l: seq<Medkit>, i: nat, edge: int): (r: seq<Medkit>)
    ensures |r| <= |l|
    ensures (forall m :: m in l ==> m.x > edge) ==> r == l
    decreases |l| - i
  {
    if i >= |l| then l
    else if edge >= l[i].x then Sweep(RemoveFirst(l, l[i]), i + 1, edge)
    else Sweep(l, i + 1, edge)
  }

  /** The kits out of the player's reach, in list order. */
  function Far(l: seq<Medkit>, edge: int): (r: seq<Medkit>)
    ensures forall m :: m in r ==> m in l && m.x > edge
  {
    if l == [] then []
    else if l[0].x > edge then [l[0]] + Far(l[1..], edge)
    else Far(l[1..], edge)
  }

  lemma {:induction false} RemoveFirstKeepsFar(l: seq<Medkit>, m: Medkit, edge: int)
    requires m.x <= edge
    ensures Far(RemoveFirst(l, m), edge) == Far(l, edge)
  {
    if l != [] && l[0] != m {
      RemoveFirstKeepsFar(l[1..], m, edge);
      assert ([l[0]] + RemoveFirst(l[1..], m))[1..] == RemoveFirst(l[1..], m);
    }
  }

  /** Kits out of reach are never collected: they all stay, in their original order. */
  lemma {:induction false} SweepKeepsFar(l: seq<Medkit>, i: nat, edge: int)
    ensures Far(Sweep(l, i, edge), edge) == Far(l, edge)
    decreases |l| - i
  {
    if i < |l| {
      if edge >= l[i].x {
        RemoveFirstKeepsFar(l, l[i], edge);
        SweepKeepsFar(RemoveFirst(l, l[i]), i + 1, edge);
      } else {
        SweepKeepsFar(l, i + 1, edge);
      }
    }
  }

  /** Only kits within reach are collected, each at most as often as it occurs: what the sweep
      leaves is a sub-multiset of the list, and everything it took out was within reach. */
  lemma {:induction false} SweepTakesOnlyReachable(l: seq<Medkit>, i: nat, edge: int)
    ensures multiset(Sweep(l, i, edge)) <= multiset(l)
    ensures forall m :: m in multiset(l) - multiset(Sweep(l, i, edge)) ==> m.x <= edge
    decreases |l| - i
  {
    if i < |l| {
      if edge >= l[i].x {
        RemoveFirstMultiset(l, l[i]);
        SweepTakesOnlyReachable(RemoveFirst(l, l[i]), i + 1, edge);
      } else {
        SweepTakesOnlyReachable(l, i + 1, edge);
      }
    }
  }

  /** When every kit is within reach, a pass collects only every other one: from index i it
      leaves (|l| + i) / 2 kits, so from the start half of them, rounded down. */
  lemma {:induction false} SweepAllReachable(l: seq<Medkit>, i: nat, edge: int)
    requires i <= |l|
    requires forall m :: m in l ==> m.x <= edge
    ensures |Sweep(l, i, edge)| == (|l| + i) / 2
    decreases |l| - i
  {
    if i < |l| {
      assert l[i] in l && edge >= l[i].x;
      var l' := RemoveFirst(l, l[i]);
      assert Sweep(l, i, edge) == Sweep(l', i + 1, edge) && |l'| == |l| - 1;
      RemoveFirstKeepsOthers(l, l[i]);
      if i + 1 <= |l'| {
        SweepAllReachable(l', i + 1, edge);
      } else {
        assert Sweep(l', i + 1, edge) == l';
      }
    }
  }

  /** Everything left after `list.remove` was in the list. */
  lemma RemoveFirstKeepsOthers(l: seq<Medkit>, m: Medkit)
    ensures forall x :: x in RemoveFirst(l, m) ==> x in l
  {
    RemoveFirstMultiset(l, m);
    forall x | x in RemoveFirst(l, m)
      ensures x in l
    {
      assert x in multiset(RemoveFirst(l, m));
    }
  }

  /** With both starting medkits in reach, the first pass collects only the first one; the
      second, moved into the first one's place, waits for the next pass. */
  lemma BothMedkitsInReach(width: nat, height: int, floor: int, medkitHeight: int, edge: int)
    requires edge >= 2 * (width / 3)
    ensures var kits := InitialMedkits(width, height, floor, medkitHeight);
            Sweep(kits, 0, edge) == [kits[1]] && Sweep(Sweep(kits, 0, edge), 0, edge) == []
  {
    var kits := InitialMedkits(width, height, floor, medkitHeight);
    assert RemoveFirst(kits, kits[0]) == [kits[1]];
    assert RemoveFirst([kits[1]], kits[1]) == [];
  }
}
