/**
 * The aiming reticle: every frame each character with a `Reticle` casts a ray along
 * its looking direction and draws a line up to what it hits, coloured after the kind
 * of thing it hits. The material handles are modelled by the names of the six
 * materials, and the polyline asset store by the list of polylines added to it.
 */
module Reticles {
  import opened Vectors
  import opened Wrappers
  import opened Ecs
  import opened Controls

  /** `ReticleReceiveType`: how an entity the reticle points at wants to be shown. */
  datatype ReceiveType = PlayerTarget | EnemyTarget | FriendlyTarget | ObjectTarget

  datatype Brightness = Full | Faint

  datatype Reticle = Reticle(brightness: Brightness, enabled: bool)

  /** `Reticle::default()`: a faint reticle that is switched off. */
  function DefaultReticle(): (r: Reticle)
    ensures r.brightness == Faint && !r.enabled
  {
    Reticle(Faint, false)
  }

  /**
   * A material handle: one of the six handles of the `ReticleMaterials` resource, or
   * `Unset`, the default handle a new reticle bundle carries, which names none of them.
   */
  datatype Material = PlayerMaterial | EnemyMaterial | FriendlyMaterial | ObjectMaterial | DefaultMaterial | NoColor | Unset

  /** The material for a receiver type under full brightness. */
  function ReceiverMaterial(t: ReceiveType): (m: Material)
    ensures m in {PlayerMaterial, EnemyMaterial, FriendlyMaterial, ObjectMaterial}
    ensures m == PlayerMaterial <==> t == PlayerTarget
    ensures m == EnemyMaterial <==> t == EnemyTarget
    ensures m == FriendlyMaterial <==> t == FriendlyTarget
    ensures m == ObjectMaterial <==> t == ObjectTarget
  {
    match t
    case PlayerTarget => PlayerMaterial
    case EnemyTarget => EnemyMaterial
    case FriendlyTarget => FriendlyMaterial
    case ObjectTarget => ObjectMaterial
  }

  /** The range of the reticle's ray. */
  const MaxRayDistance: real := 1000.0

  /** A ray cast request to the physics world. */
  datatype RayCast = RayCast(origin: Vec3, direction: Vec3, maxToi: real, solid: bool, exclude: Entity)

  /** The first collider along a ray and its time of impact. */
  datatype Hit = Hit(entity: Entity, toi: real)

  /** The ray a reticle casts: from the character, along the unit looking direction, up to 1000, skipping the character itself. */
  function ReticleRay(origin: Vec3, direction: Vec3, self: Entity): (q: RayCast)
    ensures q.origin == origin && q.direction == direction
    ensures q.maxToi == MaxRayDistance && q.solid && q.exclude == self
  {
    RayCast(origin, direction, MaxRayDistance, true, self)
  }

  /** The colour and the length of a drawn reticle line. */
  datatype Shading = Shading(material: Material, distance: real)

  /**
   * The decision table: on a hit, the line ends at the time of impact and, under full
   * brightness, takes the colour of the receiver type of the hit entity (no colour when
   * the entity has none); on a miss the line is 1000 long, with the default material
   * under full brightness. A faint reticle is never coloured.
   */
  function Shade(reticle: Reticle, hit: Option<Hit>, receivers: map<Entity, ReceiveType>): (s: Shading)
    ensures hit.Some? ==> s.distance == hit.value.toi
    ensures hit.None? ==> s.distance == MaxRayDistance
    ensures reticle.brightness == Faint ==> s.material == NoColor
    ensures s.material == DefaultMaterial <==> reticle.brightness == Full && hit.None?
    ensures hit.Some? && hit.value.entity !in receivers ==> s.material == NoColor
    ensures reticle.brightness == Full && hit.Some? && hit.value.entity in receivers ==>
      s.material == ReceiverMaterial(receivers[hit.value.entity])
    ensures s.material in {PlayerMaterial, EnemyMaterial, FriendlyMaterial, ObjectMaterial} <==>
      reticle.brightness == Full && hit.Some? && hit.value.entity in receivers
    ensures s.material != Unset
  {
    match hit
    case Some(Hit(entity, toi)) =>
      var color :=
        if entity in receivers then
          match reticle.brightness
          case Full => ReceiverMaterial(receivers[entity])
          case Faint => NoColor
        else NoColor;
      Shading(color, toi)
    case None =>
      var color := match reticle.brightness
        case Full => DefaultMaterial
        case Faint => NoColor;
      Shading(color, MaxRayDistance)
  }

  /**
   * Each receiver type has its own material handle. (The player, enemy and friendly
   * materials are created with the same colour and width, but as separate assets.)
   */
  lemma ReceiverMaterialInjective(a: ReceiveType, b: ReceiveType)
    ensures ReceiverMaterial(a) == ReceiverMaterial(b) <==> a == b
  {
  }

  /**
   * What one reticle draws this frame: nothing when it is disabled or its looking
   * direction is zero, otherwise the shading of what the ray along the normalised
   * looking direction hits. `castRay` is the physics world's answer to a ray cast.
   */
  function Drawn(reticle: Reticle, looking: Vec3, origin: Vec3, self: Entity,
                 receivers: map<Entity, ReceiveType>, castRay: RayCast -> Option<Hit>,
                 norm: Vec3 -> Vec3): (d: Option<Shading>)
    requires IsNormalizer(norm)
    ensures d.None? <==> !reticle.enabled || looking == Zero
  {
    match TryNormalize(looking, norm)
    case Some(dir) =>
      if reticle.enabled then Some(Shade(reticle, castRay(ReticleRay(origin, dir, self)), receivers)) else None
    case None => None
  }

  /** When a line is drawn, the ray is cast along the unit looking direction. */
  lemma DrawnCastsAlongLook(reticle: Reticle, looking: Vec3, origin: Vec3, self: Entity,
                            receivers: map<Entity, ReceiveType>, castRay: RayCast -> Option<Hit>,
                            norm: Vec3 -> Vec3)
    requires IsNormalizer(norm)
    requires reticle.enabled && looking != Zero
    ensures var ray := ReticleRay(origin, norm(looking), self);
      && LengthSq(ray.direction) == 1.0 && SameDirection(ray.direction, looking)
      && Drawn(reticle, looking, origin, self, receivers, castRay, norm) == Some(Shade(reticle, castRay(ray), receivers))
  {
  }

  /** The polyline for a decision: from the origin straight ahead (-Z) for the distance, or empty. */
  function LineOf(d: Option<Shading>): (line: seq<Vec3>)
    ensures d.None? <==> line == []
  {
    match d
    case Some(s) => [Zero, Scale(s.distance, NegZ)]
    case None => []
  }

  /** A drawn line has two vertices, starts at the origin and ends `distance` ahead along -Z. */
  lemma LineShape(s: Shading)
    ensures var line := LineOf(Some(s));
      && |line| == 2 && line[0] == Zero
      && line[1].x == 0.0 && line[1].y == 0.0 && line[1].z == -s.distance
      && LengthSq(line[1]) == Sq(s.distance)
  {
    var e := Scale(s.distance, NegZ);
    calc {
      LengthSq(e);
      0.0 * 0.0 + 0.0 * 0.0 + (-s.distance) * (-s.distance);
      Sq(s.distance);
    }
  }

  /** The material after a decision: the shading's, or the old one when nothing is drawn. */
  function MaterialAfter(d: Option<Shading>, oldMaterial: Material): (m: Material)
    ensures m != oldMaterial ==> d.Some? && m == d.value.material
    ensures d.None? ==> m == oldMaterial
    ensures d.Some? ==> m == d.value.material
  {
    match d
    case Some(s) => s.material
    case None => oldMaterial
  }

  /** `Assets<Polyline>`: adding a polyline returns the handle of the new entry. */
  class PolylineStore {
    var lines: seq<seq<Vec3>>

    constructor ()
      ensures lines == []
    {
      lines := [];
    }

    method Add(vertices: seq<Vec3>) returns (handle: nat)
      modifies this
      ensures lines == old(lines) + [vertices]
      ensures handle == |old(lines)| && lines[handle] == vertices
    {
      handle := |lines|;
      lines := lines + [vertices];
    }
  }

  /** One entity with a reticle: its global translation, `Input`, `Reticle` and the two handles. */
  class ReticleBody {
    const entity: Entity
    var translation: Vec3
    var input: Input
    var reticle: Reticle
    var material: Material
    var line: Option<nat>

    /** A reticle bundle: the default reticle, and default handles that point at no material and no polyline. */
    constructor (entity: Entity, translation: Vec3, input: Input)
      ensures this.entity == entity && this.translation == translation && this.input == input
      ensures reticle == DefaultReticle() && material == Unset && line == None
    {
      this.entity := entity;
      this.translation := translation;
      this.input := input;
      this.reticle := DefaultReticle();
      this.material := Unset;
      this.line := None;
    }
  }

  /** The decision for one reticle entity, read from its components. */
  function DrawnFor(r: ReticleBody, receivers: map<Entity, ReceiveType>, castRay: RayCast -> Option<Hit>,
                    norm: Vec3 -> Vec3): Option<Shading>
    requires IsNormalizer(norm)
    reads r`reticle, r`input, r`translation
  {
    Drawn(r.reticle, r.input.lookingDirection, r.translation, r.entity, receivers, castRay, norm)
  }

  /**
   * After the system ran, reticle `r` holds polyline handle `handle`, that polyline is
   * `line`, and both match the reticle's decision; `oldMaterial` is its material before.
   */
  predicate Drew(r: ReticleBody, handle: nat, line: seq<Vec3>, oldMaterial: Material,
                 receivers: map<Entity, ReceiveType>, castRay: RayCast -> Option<Hit>, norm: Vec3 -> Vec3)
    requires IsNormalizer(norm)
    reads r
  {
    var d := DrawnFor(r, receivers, castRay, norm);
    && r.line == Some(handle)
    && line == LineOf(d)
    && r.material == MaterialAfter(d, oldMaterial)
  }

  /** The body of the `draw_reticle` loop for one reticle entity. */
  method DrawOne(r: ReticleBody, receivers: map<Entity, ReceiveType>,
                 store: PolylineStore, castRay: RayCast -> Option<Hit>, norm: Vec3 -> Vec3)
    requires IsNormalizer(norm)
    modifies r`material, r`line, store
    ensures store.lines == old(store.lines) + [LineOf(DrawnFor(r, receivers, castRay, norm))]
    ensures Drew(r, |old(store.lines)|, store.lines[|old(store.lines)|], old(r.material), receivers, castRay, norm)
  {
    var handle: nat;
    match TryNormalize(r.input.lookingDirection, norm) {
      case Some(dir) =>
        if r.reticle.enabled {
          var shading := Shade(r.reticle, castRay(ReticleRay(r.translation, dir, r.entity)), receivers);
          r.material := shading.material;
          handle := store.Add([Zero, Scale(shading.distance, NegZ)]);
        } else {
          handle := store.Add([]);
        }
      case None =>
        handle := store.Add([]);
    }
    r.line := Some(handle);
  }

  /**
   * `draw_reticle`: every reticle, in query order, gets a fresh polyline (the next
   * handle of the store) holding its line, or an empty one when nothing is drawn; the
   * material is replaced only when a line is drawn. The store only grows here: the
   * polylines the reticles held before are not freed.
   */
  method DrawReticleSystem(reticles: seq<ReticleBody>, receivers: map<Entity, ReceiveType>,
                           store: PolylineStore, castRay: RayCast -> Option<Hit>, norm: Vec3 -> Vec3)
    requires IsNormalizer(norm)
    requires Distinct(reticles)
    modifies reticles`material, reticles`line, store
    ensures |store.lines| == |old(store.lines)| + |reticles|
    ensures store.lines[..|old(store.lines)|] == old(store.lines)
    ensures forall i :: 0 <= i < |reticles| ==>
      Drew(reticles[i], |old(store.lines)| + i, store.lines[|old(store.lines)| + i], old(reticles[i].material),
           receivers, castRay, norm)
  {
    ghost var base := |store.lines|;
    for i := 0 to |reticles|
      invariant |store.lines| == base + i
      invariant store.lines[..base] == old(store.lines)
      invariant forall k :: 0 <= k < i ==>
        Drew(reticles[k], base + k, store.lines[base + k], old(reticles[k].material), receivers, castRay, norm)
      invariant forall k :: i <= k < |reticles| ==> reticles[k].material == old(reticles[k].material)
    {
      DrawOne(reticles[i], receivers, store, castRay, norm);
    }
  }
}
