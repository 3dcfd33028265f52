/** A trigger volume that hands its own jump height and gravity to the
    first-person player entering it, after remembering the player's values. */
module GravityZone {
  import opened Locomotion
  import opened FirstPerson

  /** The tag that marks the player's game object. */
  const PlayerTag: string := "Player"

  class GravityLevel {
    var JumpHeight: real
    var Gravity: real
    var oldJumpHeight: real
    var oldGravity: real

    /** The field initialisers. */
    constructor ()
      ensures JumpHeight == 1.2 && Gravity == -15.0
      ensures oldJumpHeight == 1.2 && oldGravity == -15.0
    {
      JumpHeight, Gravity := 1.2, -15.0;
      oldJumpHeight, oldGravity := 1.2, -15.0;
    }

    /** OnTriggerEnter. `otherTag` is the entering object's tag and `player`
        its FirstPersonController component. Only a Player-tagged object
        is affected: its values are saved, then replaced by the zone's. The
        zone's own values never change. */
    method OnTriggerEnter(otherTag: string, player: FirstPersonController)
      modifies this`oldJumpHeight, this`oldGravity, player`JumpHeight, player`Gravity
      ensures JumpHeight == old(JumpHeight) && Gravity == old(Gravity)
      ensures otherTag != PlayerTag ==>
                oldJumpHeight == old(oldJumpHeight) && oldGravity == old(oldGravity) &&
                player.JumpHeight == old(player.JumpHeight) && player.Gravity == old(player.Gravity)
      ensures otherTag == PlayerTag ==>
                oldJumpHeight == old(player.JumpHeight) && oldGravity == old(player.Gravity) &&
                player.JumpHeight == JumpHeight && player.Gravity == Gravity
    {
      if otherTag == PlayerTag {
        oldJumpHeight := player.JumpHeight;
        oldGravity := player.Gravity;
        player.JumpHeight := JumpHeight;
        player.Gravity := Gravity;
      }
    }
  }

  /** Entering the same zone twice: the player ends with the zone's values
      either way, but the second entry overwrites the saved values with the
      zone's own, so the player's original values are lost. */
  method EnterTwice(zone: GravityLevel, player: FirstPersonController)
    modifies zone`oldJumpHeight, zone`oldGravity, player`JumpHeight, player`Gravity
    ensures player.JumpHeight == zone.JumpHeight && player.Gravity == zone.Gravity
    ensures zone.oldJumpHeight == zone.JumpHeight && zone.oldGravity == zone.Gravity
  {
    zone.OnTriggerEnter(PlayerTag, player);
    zone.OnTriggerEnter(PlayerTag, player);
  }

  /** A zone with jump height 2 and gravity -20 entered by a default player:
      the player's defaults are saved, and the next launch uses the zone's
      values, so the launch speed squared becomes 80 instead of 36. */
  method LowGravityScenario() returns (saved: JumpSettings, launchSquared: real)
    ensures saved.jumpHeight == 1.2 && saved.gravity == -15.0
    ensures launchSquared == 80.0
  {
    var player := new FirstPersonController();
    var zone := new GravityLevel();
    zone.JumpHeight := 2.0;
    zone.Gravity := -20.0;
    zone.OnTriggerEnter(PlayerTag, player);
    saved := JumpSettings(zone.oldJumpHeight, zone.oldGravity, player.JumpTimeout, player.FallTimeout);
    launchSquared := LaunchArgument(player.Settings());
  }
}
