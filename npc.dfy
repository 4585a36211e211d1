/**
 * NPC steering (`npc_input`): every NPC looks at the player, and walks towards it
 * while the two are more than 2 units apart in the ground plane.
 */
module Npc {
  import opened Vectors
  import opened Helpers
  import opened Wrappers
  import opened Ecs
  import opened Controls

  /** The chase threshold on the ground-plane distance. */
  const ChaseDistance: real := 2.0

  /** The NPC is farther than `ChaseDistance` from the player once both are projected onto the ground. */
  predicate Chases(npc: Vec3, player: Vec3) {
    LengthAbove(Sub(ProjectOntoPlane(npc, UnitY), ProjectOntoPlane(player, UnitY)), ChaseDistance)
  }

  /** The input one NPC gets: look at the player; walk to it, normalised, when far enough. */
  function NpcInput(input: Input, npc: Vec3, player: Vec3, norm: Vec3 -> Vec3): (r: Input)
    requires IsNormalizer(norm)
    ensures r.attack == input.attack && r.jump == input.jump && r.switchHands == input.switchHands
  {
    var toPlayer := Sub(player, npc);
    var movement :=
      if Chases(npc, player) then
        match TryNormalize(toPlayer, norm)
        case Some(u) => u
        case None => Zero
      else Zero;
    input.(lookingDirection := toPlayer, movementDirection := movement)
  }

  /** The chase test is a test on the horizontal separation alone: `dx^2 + dz^2 > 4`. */
  lemma ChasesIff(npc: Vec3, player: Vec3)
    ensures Chases(npc, player) <==> Sq(npc.x - player.x) + Sq(npc.z - player.z) > 4.0
  {
    ProjectOntoPlaneSub(npc, player, UnitY);
    ProjectOntoGround(Sub(npc, player));
    var d := Sub(ProjectOntoPlane(npc, UnitY), ProjectOntoPlane(player, UnitY));
    assert d == Vec3(npc.x - player.x, 0.0, npc.z - player.z);
    calc {
      LengthSq(d);
      Sq(npc.x - player.x) + 0.0 * 0.0 + Sq(npc.z - player.z);
      Sq(npc.x - player.x) + Sq(npc.z - player.z);
    }
  }

  /** Heights never matter: moving either one vertically does not change the decision. */
  lemma {:induction false} ChasesIgnoresHeight(npc: Vec3, player: Vec3, npcY: real, playerY: real)
    ensures Chases(npc, player) == Chases(npc.(y := npcY), player.(y := playerY))
  {
    ChasesIff(npc, player);
    ChasesIff(npc.(y := npcY), player.(y := playerY));
  }

  /**
   * The NPC always looks at the player. When it chases, it walks along the unit
   * vector towards the player in 3-D (the zero fallback of `try_normalize` is never
   * taken, because the two are apart); otherwise it stands still.
   */
  lemma {:induction false} NpcSteering(input: Input, npc: Vec3, player: Vec3, norm: Vec3 -> Vec3)
    requires IsNormalizer(norm)
    ensures var r := NpcInput(input, npc, player, norm);
      && r.lookingDirection == Sub(player, npc)
      && (Chases(npc, player) ==>
            r.movementDirection == norm(Sub(player, npc))
            && LengthSq(r.movementDirection) == 1.0
            && SameDirection(r.movementDirection, Sub(player, npc)))
      && (!Chases(npc, player) ==> r.movementDirection == Zero)
  {
    if Chases(npc, player) {
      ChasesApart(npc, player);
    }
  }

  /** Two positions that are apart horizontally are different points. */
  lemma ChasesApart(npc: Vec3, player: Vec3)
    requires Chases(npc, player)
    ensures Sub(player, npc) != Zero
  {
    ChasesIff(npc, player);
  }

  /** One NPC entity: the `Npc` marker with its `peaceful` flag, its `Transform` and its `Input`. */
  class NpcBody {
    const peaceful: bool
    var translation: Vec3
    var input: Input

    constructor (peaceful: bool, translation: Vec3, input: Input)
      ensures this.peaceful == peaceful && this.translation == translation && this.input == input
    {
      this.peaceful := peaceful;
      this.translation := translation;
      this.input := input;
    }
  }

  /**
   * `npc_input`: with a player, every NPC's input is steered towards the first
   * player's translation; with no player, nothing changes. `peaceful` is not read.
   */
  method NpcInputSystem(npcs: seq<NpcBody>, players: seq<Vec3>, norm: Vec3 -> Vec3)
    requires IsNormalizer(norm)
    requires Distinct(npcs)
    modifies npcs`input
    ensures |players| == 0 ==> forall n :: n in npcs ==> n.input == old(n.input)
    ensures |players| > 0 ==> forall n :: n in npcs ==> n.input == NpcInput(old(n.input), n.translation, players[0], norm)
  {
    if |players| > 0 {
      var player := players[0];
      for i := 0 to |npcs|
        invariant forall k :: 0 <= k < i ==> npcs[k].input == NpcInput(old(npcs[k].input), npcs[k].translation, player, norm)
        invariant forall k :: i <= k < |npcs| ==> npcs[k].input == old(npcs[k].input)
      {
        var n := npcs[i];
        var toPlayer := Sub(player, n.translation);
        n.input := n.input.(lookingDirection := toPlayer);
        if Chases(n.translation, player) {
          n.input := n.input.(movementDirection := match TryNormalize(toPlayer, norm) case Some(u) => u case None => Zero);
        } else {
          n.input := n.input.(movementDirection := Zero);
        }
      }
    }
  }
}
