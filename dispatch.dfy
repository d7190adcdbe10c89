/** Key handlers: how `Engine.register_key_handler` collects them and what running the
    handlers of the held keys does to the world (`Engine.tick`). */
module Dispatch {
  import opened Physics

  /** What a registered handler does. The game binds 'q' to quitting, Up to jumping and
      Left/Right to walking in that direction. */
  datatype Handler = QuitGame | JumpAction | WalkAction(direction: int)

  /** Key codes (pygame's) to their handlers, in registration order. */
  type Bindings = map<nat, seq<Handler>>

  /** The handlers bound to a key; none for a key never registered (a `defaultdict(list)`). */
  function HandlersOf(m: Bindings, key: nat): seq<Handler> {
    if key in m then m[key] else []
  }

  /** `register_key_handler(key, handler)`: append the handler to the key's list, creating it. */
  function Register(m: Bindings, key: nat, h: Handler): (r: Bindings)
    ensures r.Keys == m.Keys + {key}
    ensures HandlersOf(r, key) == HandlersOf(m, key) + [h]
    ensures forall k :: k != key ==> HandlersOf(r, k) == HandlersOf(m, k)
  {
    m[key := HandlersOf(m, key) + [h]]
  }

  datatype Registration = Registration(key: nat, handler: Handler)

  /** A series of registrations, in order. */
  function RegisterAll(m: Bindings, regs: seq<Registration>): Bindings {
    if regs == [] then m
    else Register(RegisterAll(m, regs[..|regs| - 1]), regs[|regs| - 1].key, regs[|regs| - 1].handler)
  }

  /** The handlers of the registrations made for `key`, in the order they were made. */
  function BoundTo(regs: seq<Registration>, key: nat): seq<Handler> {
    if regs == [] then []
    else if regs[|regs| - 1].key == key then BoundTo(regs[..|regs| - 1], key) + [regs[|regs| - 1].handler]
    else BoundTo(regs[..|regs| - 1], key)
  }

  /** After any series of registrations, a key's handlers are the earlier ones followed by exactly
      those registered for it, in registration order; registrations for other keys do not matter. */
  lemma {:induction false} RegisterAllInOrder(m: Bindings, regs: seq<Registration>, key: nat)
    ensures HandlersOf(RegisterAll(m, regs), key) == HandlersOf(m, key) + BoundTo(regs, key)
  {
    if regs != [] {
      RegisterAllInOrder(m, regs[..|regs| - 1], key);
    }
  }

  /** `keys_down[key]` for a key inside the table of key states; keys beyond it count as up. */
  predicate IsDown(key: nat, keysDown: seq<bool>)
    ensures key >= |keysDown| ==> !IsDown(key, keysDown)
  {
    key < |keysDown| && keysDown[key]
  }

  /** The handlers one `Engine.tick` calls: for each key in `order` (the order the bindings are
      enumerated in) that is held, all of its handlers in registration order. */
  function Pressed(m: Bindings, order: seq<nat>, keysDown: seq<bool>): (r: seq<Handler>)
    ensures (forall k :: k in order ==> !IsDown(k, keysDown)) ==> r == []
  {
    if order == [] then []
    else
      var last := order[|order| - 1];
      Pressed(m, order[..|order| - 1], keysDown) + (if IsDown(last, keysDown) then HandlersOf(m, last) else [])
  }

  lemma {:induction false} PressedAppend(m: Bindings, a: seq<nat>, b: seq<nat>, keysDown: seq<bool>)
    ensures Pressed(m, a + b, keysDown) == Pressed(m, a, keysDown) + Pressed(m, b, keysDown)
    decreases |b|
  {
    if b == [] {
      assert a + b == a;
    } else {
      assert (a + b)[..|a + b| - 1] == a + b[..|b| - 1];
      PressedAppend(m, a, b[..|b| - 1], keysDown);
    }
  }

  /** A handler is called exactly when a held key in the enumeration is bound to it. */
  lemma {:induction false} PressedIffHeld(m: Bindings, order: seq<nat>, keysDown: seq<bool>, h: Handler)
    ensures h in Pressed(m, order, keysDown) <==>
            exists i :: 0 <= i < |order| && IsDown(order[i], keysDown) && h in HandlersOf(m, order[i])
  {
    if order != [] {
      var init := order[..|order| - 1];
      PressedIffHeld(m, init, keysDown, h);
      if h in Pressed(m, order, keysDown) && h !in Pressed(m, init, keysDown) {
        var i := |order| - 1;
        assert IsDown(order[i], keysDown) && h in HandlersOf(m, order[i]);
      }
      if exists i :: 0 <= i < |order| && IsDown(order[i], keysDown) && h in HandlersOf(m, order[i]) {
        var i :| 0 <= i < |order| && IsDown(order[i], keysDown) && h in HandlersOf(m, order[i]);
        if i < |init| {
          assert init[i] == order[i];
        }
      }
    }
  }

  /** What a handler other than quitting does to the world. */
  function Apply(sc: Scene, h: Handler, st: Stage): (r: Scene)
    ensures !sc.player.visible ==> r == sc
    ensures r.player.visible == sc.player.visible && r.player.cloak == sc.player.cloak
    ensures h.WalkAction? && sc.player.visible ==> r.player.facing == h.direction
  {
    match h
    case QuitGame => sc
    case JumpAction => Jump(sc, st)
    case WalkAction(d) => Walk(sc, d, st)
  }

  /** Where running handlers leaves the world, and whether one of them quit the game. */
  datatype Run = Run(scene: Scene, quit: bool)

  /** Running handlers in order; quitting ends the process, so nothing after it runs. */
  function RunAll(sc: Scene, hs: seq<Handler>, st: Stage): (r: Run)
    ensures r.scene.player.visible == sc.player.visible && r.scene.player.cloak == sc.player.cloak
    ensures r.quit ==> hs != []
  {
    if hs == [] then Run(sc, false)
    else
      var before := RunAll(sc, hs[..|hs| - 1], st);
      if before.quit then before
      else if hs[|hs| - 1] == QuitGame then Run(before.scene, true)
      else Run(Apply(before.scene, hs[|hs| - 1], st), false)
  }

  lemma {:induction false} RunAllAppend(sc: Scene, a: seq<Handler>, b: seq<Handler>, st: Stage)
    ensures RunAll(sc, a + b, st)
         == var r := RunAll(sc, a, st); if r.quit then r else RunAll(r.scene, b, st)
    decreases |b|
  {
    if b == [] {
      assert a + b == a;
    } else {
      assert (a + b)[..|a + b| - 1] == a + b[..|b| - 1];
      RunAllAppend(sc, a, b[..|b| - 1], st);
    }
  }

  /** The run quits exactly when a quitting handler is among those run. */
  lemma {:induction false} RunAllQuits(sc: Scene, hs: seq<Handler>, st: Stage)
    ensures RunAll(sc, hs, st).quit <==> QuitGame in hs
  {
    if hs != [] {
      RunAllQuits(sc, hs[..|hs| - 1], st);
      assert hs == hs[..|hs| - 1] + [hs[|hs| - 1]];
    }
  }

  /** While the player is hidden, no handler moves it or the camera. */
  lemma {:induction false} HiddenIgnoresHandlers(sc: Scene, hs: seq<Handler>, st: Stage)
    requires !sc.player.visible
    ensures RunAll(sc, hs, st).scene == sc
  {
    if hs != [] {
      HiddenIgnoresHandlers(sc, hs[..|hs| - 1], st);
    }
  }
}
