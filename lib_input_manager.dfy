/**
 * lib/inputManager.ts: the closure `useInput` returns, which merges the
 * virtual buttons, a touch gesture and (on devices without touch support)
 * the keyboard into one `{ move, fire }` reading.
 */
module InputManager {
  import opened Js

  /** The touch controller's current state; `touchX` is null without a touch. */
  datatype Touch = Touch(leftHeld: bool, rightHeld: bool, fireHeld: bool, touchX: Option<real>, firing: bool)

  /** `keys.current[k]` read as a boolean: a key never pressed is undefined, hence false. */
  predicate Held(keys: map<string, bool>, k: string)
  {
    k in keys && keys[k]
  }

  /** -1, 0 or 1 from a pair of direction flags. */
  function Axis(left: bool, right: bool): (a: int)
    ensures -1 <= a <= 1
    ensures a == 0 <==> left == right
  {
    (if right then 1 else 0) - (if left then 1 else 0)
  }

  predicate KeyFire(keys: map<string, bool>)
  {
    Held(keys, " ") || Held(keys, "space") || Held(keys, "arrowup") || Held(keys, "w")
  }

  function KeyAxis(keys: map<string, bool>): int
  {
    Axis(Held(keys, "arrowleft") || Held(keys, "a"), Held(keys, "arrowright") || Held(keys, "d"))
  }

  /** A touch counts as a steer when it is more than 5 px from the player. */
  predicate Steers(touch: Touch, playerX: real)
  {
    touch.touchX.Some? && Abs(touch.touchX.value - playerX) > 5.0
  }

  /**
   * One reading. `touchSupported` is `'ontouchstart' in window`;
   * `playerX` is what `getPlayerX()` returns.
   */
  method ReadInput(touch: Touch, keys: map<string, bool>, touchSupported: bool, playerX: real)
    returns (move: int, fire: bool)
    ensures -1 <= move <= 1
    ensures Steers(touch, playerX) ==> move == (if touch.touchX.value > playerX then 1 else -1)
    ensures !Steers(touch, playerX) && Axis(touch.leftHeld, touch.rightHeld) != 0 ==>
              move == Axis(touch.leftHeld, touch.rightHeld)
    ensures !Steers(touch, playerX) && Axis(touch.leftHeld, touch.rightHeld) == 0 ==>
              move == (if touchSupported then 0 else KeyAxis(keys))
    ensures fire <==> touch.fireHeld || (touch.touchX.Some? && touch.firing) || (!touchSupported && KeyFire(keys))
  {
    move := 0;
    fire := false;

    if touch.leftHeld { move := move - 1; }
    if touch.rightHeld { move := move + 1; }
    if touch.fireHeld { fire := true; }

    if touch.touchX.Some? {
      var dx := touch.touchX.value - playerX;
      if Abs(dx) > 5.0 {
        move := if dx > 0.0 then 1 else -1;
      }
      fire := touch.firing || fire;
    }

    if !touchSupported {
      var left := Held(keys, "arrowleft") || Held(keys, "a");
      var right := Held(keys, "arrowright") || Held(keys, "d");
      fire := fire || Held(keys, " ") || Held(keys, "space") || Held(keys, "arrowup") || Held(keys, "w");
      if move == 0 {
        move := (if right then 1 else 0) - (if left then 1 else 0);
      }
    }
  }
}
