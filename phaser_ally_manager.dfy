/**
 * Allied ships following the player in the Phaser build
 * (phaser/systems/AllyManager.ts): a formation's ships become allies held at
 * fixed offsets from the player. Each ally sprite is created fresh, so the
 * allies are values in the manager's list; destroying a sprite is counted.
 */
module PhaserAllies {
  import opened Js
  import PhaserPlayer

  /** A ship of the formation, by its position in percent of the canvas. */
  datatype AllyShip = AllyShip(x_norm: real, y_norm: real)

  /** An entry of `allies`: the sprite's position, its offset and its behaviour. */
  datatype Ally = Ally(x: real, y: real, offsetX: real, offsetY: real, behavior: string)

  /** The entry `applyFormation` creates for one ship, at the player's position. */
  function NewAlly(s: AllyShip, px: real, py: real, width: real, height: real, behavior: Option<string>): Ally
  {
    Ally(px, py, (s.x_norm - 50.0) / 100.0 * width, (s.y_norm - 50.0) / 100.0 * height, Coalesce(behavior, "follow"))
  }

  /** An ally as `update` leaves it: at the player's position plus its offset. */
  function Follow(a: Ally, px: real, py: real): Ally
  {
    a.(x := px + a.offsetX, y := py + a.offsetY)
  }

  class AllyManager {
    const player: PhaserPlayer.Player
    var allies: seq<Ally>
    var destroyed: nat      // sprites destroyed so far

    constructor (player0: PhaserPlayer.Player)
      ensures player == player0
      ensures allies == [] && destroyed == 0
    {
      player := player0;
      allies := [];
      destroyed := 0;
    }

    /**
     * Every earlier ally is destroyed; one new ally per ship, in order,
     * replaces them. `width` and `height` are the scene's size at the call.
     */
    method ApplyFormation(ships: seq<AllyShip>, behavior: Option<string>, width: real, height: real)
      modifies this`allies, this`destroyed
      ensures destroyed == old(destroyed) + |old(allies)|
      ensures |allies| == |ships|
      ensures forall k :: 0 <= k < |ships| ==> allies[k] == NewAlly(ships[k], player.x, player.y, width, height, behavior)
    {
      destroyed := destroyed + |allies|;
      var list: seq<Ally> := [];
      var i := 0;
      while i < |ships|
        invariant 0 <= i <= |ships|
        invariant |list| == i
        invariant forall k :: 0 <= k < i ==> list[k] == NewAlly(ships[k], player.x, player.y, width, height, behavior)
      {
        list := list + [NewAlly(ships[i], player.x, player.y, width, height, behavior)];
        i := i + 1;
      }
      allies := list;
    }

    method Update()
      modifies this`allies
      ensures |allies| == |old(allies)|
      ensures forall k :: 0 <= k < |allies| ==> allies[k] == Follow(old(allies[k]), player.x, player.y)
    {
      var i := 0;
      while i < |allies|
        invariant 0 <= i <= |allies| && |allies| == |old(allies)|
        invariant forall k :: 0 <= k < i ==> allies[k] == Follow(old(allies[k]), player.x, player.y)
        invariant forall k :: i <= k < |allies| ==> allies[k] == old(allies[k])
      {
        var a := allies[i];
        allies := allies[i := a.(x := player.x + a.offsetX, y := player.y + a.offsetY)];
        i := i + 1;
      }
    }
  }

  /**
   * Following keeps offsets and behaviour, leaves the ally exactly at
   * player + offset whatever it was before, and is idempotent.
   */
  lemma FollowKeepsOffsets(a: Ally, px: real, py: real)
    ensures Follow(a, px, py).offsetX == a.offsetX && Follow(a, px, py).offsetY == a.offsetY
    ensures Follow(a, px, py).behavior == a.behavior
    ensures Follow(a, px, py).x - px == a.offsetX && Follow(a, px, py).y - py == a.offsetY
    ensures Follow(Follow(a, px, py), px, py) == Follow(a, px, py)
  {
  }

  /** A ship at the canvas centre sits on the player; the offset is linear in the percentage. */
  lemma CentreShipOnPlayer(px: real, py: real, width: real, height: real, behavior: Option<string>)
    ensures var a := Follow(NewAlly(AllyShip(50.0, 50.0), px, py, width, height, behavior), px, py);
      a.x == px && a.y == py
    ensures NewAlly(AllyShip(100.0, 0.0), px, py, width, height, None) == Ally(px, py, width / 2.0, -height / 2.0, "follow")
  {
  }
}
