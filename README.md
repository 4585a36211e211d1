# endless-sea: character, controls, reticle and inventory systems in Dafny

This project models the gameplay core of endless-sea, a Bevy game written in Rust:

- the character locomotion systems (`force_movement`, `impulse_movement`, `update_grounded`) and the character bundle's defaults;
- the ground-plane projection helper;
- NPC steering;
- health and the death rule;
- the player's controls (button mapping, camera follow, looking direction from mouse or gamepad);
- the aiming reticle's colour and line decision;
- the inventory panel's item listing.

Each ECS system is a method over the sequence of entities its query yields, in query order. Every entity kind is a class whose fields are the components the systems overwrite. Each method is proved against a pure per-entity function, and the properties are proved about those functions.

Vectors are exact `real` triples. `try_normalize` needs a square root, so the normaliser is a parameter constrained by a law (`Vectors.IsNormalizer`: unit length and the same direction for every nonzero input). Length comparisons are made on squared lengths. The physics queries (`cast_shape`, `cast_ray`) and the camera's unprojection are also parameters: functions from the query to its answer.

Modules:

| file | module | models |
|---|---|---|
| vectors.dfy | `Vectors` | `Vec3` arithmetic, squared lengths, `try_normalize` over a normaliser |
| helpers.dfy | `Helpers` | `project_onto`, `project_onto_plane` |
| ecs.dfy | `Ecs` | entity ids, "first match of a query", distinct query results |
| character.dfy | `Character` | character.rs, against the input record `CharacterInput { direction, jump: JumpState }` |
| controls.dfy | `Controls` | the newer `character::Input` record used by player.rs, npc.rs and reticle.rs |
| npc.dfy | `Npc` | npc.rs |
| object.dfy | `Object` | object.rs |
| player.dfy | `Player` | player.rs |
| reticle.dfy | `Reticles` | reticle.rs |
| ui.dfy | `Ui` | ui.rs |

## Model

| member | source | states |
|---|---|---|
| Vectors.TryNormalize | src/character.rs:42-44 | `try_normalize` fails exactly on the zero vector; otherwise it gives a unit vector pointing the same way |
| Helpers.ProjectOnto | src/helpers.rs:4 | the projection onto a nonzero `n` is parallel to `n` |
| Helpers.ProjectOntoPlane | src/helpers.rs:3-5 | splits `v` in two: the result is orthogonal to `n` (its dot product with `n` is 0), and with the projection onto `n` it adds up to `v` |
| Helpers.RejectionUnique | src/helpers.rs:3-5 | the split is unique: any vector orthogonal to `n` that differs from `v` by a multiple of `n` is the plane projection of `v` |
| Helpers.ProjectOntoPlaneFixesOrthogonal | src/helpers.rs:3-5 | a vector already orthogonal to `n` comes back unchanged |
| Helpers.ProjectOntoPlaneIdempotent | src/helpers.rs:3-5 | projecting twice is projecting once |
| Helpers.ProjectOntoGround | src/helpers.rs:3-5 | with `n = Y`, `(x, y, z)` becomes `(x, 0, z)`, which the callers in character.rs and npc.rs rely on |
| Helpers.ProjectOntoPlaneSub | src/npc.rs:25-27 | projection is linear over differences; `Npc.ChasesIff` uses it to turn the difference of the projected positions into the projected difference |
| Character.DefaultMovementProperties | src/character.rs:208-214 | the bundle defaults: stopped friction 4, acceleration 20, damping 60, max speed 10, jump impulse 6 |
| Character.VelocityDirectionDifference | src/character.rs:42-49 | the damping difference is horizontal (its y is 0), and it is zero for a character at rest |
| Character.DirectionalForce | src/character.rs:57-62 | the directional push lies along the input direction, and it is zero once the character is not under the speed cap |
| Character.ForceMovement | src/character.rs:51-71 | no input direction gives friction `stopped_friction` and a zero force; any input direction gives friction 0 |
| Character.UnderMaxSpeedIff | src/character.rs:52-56 | `UnderMaxSpeed`, the speed check, holds exactly when `max_speed > 0` and `(v·d)² < max_speed²·|d|²`, i.e. the size of the velocity's component along the input, whichever way it points, is below `max_speed` |
| Character.SpeedGate | src/character.rs:52-65 | the force is `acceleration·d` plus damping below the speed cap, and the damping alone at or above it |
| Character.AtRestNoDamping | src/character.rs:42-49 | at zero velocity the damping term vanishes; the force is `acceleration·d` when `max_speed > 0`, and zero otherwise |
| Character.DampingIsHorizontal | src/character.rs:42-49 | the damping difference has no vertical part, and horizontally it is the input minus the unit velocity |
| Character.VerticalForce | src/character.rs:57-65 | in moving mode the vertical force is `acceleration·d.y` below the speed cap and 0 otherwise |
| Character.JumpImpulse | src/character.rs:92-101 | the impulse has no horizontal part, and an airborne character gets none |
| Character.JumpGate | src/character.rs:92-101 | on the ground with `JumpPressed` the impulse is `(0, jump_impulse, 0)`; `Normal`, `Charging` or airborne give zero; for a nonzero strength the impulse is nonzero iff grounded with `JumpPressed` |
| Character.GroundProbe | src/character.rs:117-131 | the probe starts 0.05 above the character, goes straight down at most 0.2, and excludes the character's own collider |
| Character.CharacterBody.constructor | src/character.rs:194-224 | a spawned character is on the ground, at rest, with zero force, friction and impulse, the default tuning, and the default input |
| Character.ForceMovementSystem | src/character.rs:34-74 | only the first character of the query gets the force and friction of `ForceMovement`; with no character nothing changes |
| Character.ImpulseMovementSystem | src/character.rs:85-102 | every character's impulse becomes its `JumpImpulse` |
| Character.UpdateGroundedSystem | src/character.rs:114-136 | every character is on the ground exactly when its own probe hits |
| Npc.NpcInput | src/npc.rs:22-36 | NPC steering never touches attack, jump or hand switching |
| Npc.ChasesIff | src/npc.rs:25-27 | `Chases`, the NPC's decision, holds exactly when `dx² + dz² > 4`: the ground-plane distance exceeds 2 |
| Npc.ChasesIgnoresHeight | src/npc.rs:25-27 | the heights of the NPC and the player never change the decision |
| Npc.ChasesApart | src/npc.rs:25-32 | a chasing NPC is at a point other than the player's, so the fallback of `try_normalize` is never taken |
| Npc.NpcSteering | src/npc.rs:22-35 | the NPC looks at the player; when chasing it walks along the unit 3-D vector towards the player, and otherwise stands still |
| Npc.NpcInputSystem | src/npc.rs:21-37 | with a player, every NPC gets `NpcInput` for the first player's position; with none, no NPC changes; `peaceful` is not read |
| Object.DefaultHealth | src/object.rs:14-21 | default health is 1 of 1, and a fresh entity is alive |
| Object.Survivors | src/object.rs:35-38 | an entity survives iff its current health is above 0, and it keeps its own health value |
| Object.RemovingDoomedLeavesSurvivors | src/object.rs:35-38 | despawning exactly the dead entities leaves exactly the survivors |
| Object.SurvivorsIdempotent | src/object.rs:34-40 | a second run of the rule removes nothing more |
| Object.SurvivorsIgnoreMaxHealth | src/object.rs:36 | the maximum health plays no part in the decision |
| Object.ZeroHealthDies | src/tests/character_tests.rs:137-171 | an entity at exactly zero health is despawned |
| Object.World.Death | src/object.rs:34-40 | after the rule, the world holds exactly the survivors, each with its unchanged health |
| Player.Clamp | src/player.rs:131-132 | a clamped axis lies in `[-1, 1]`; an axis already inside is unchanged, and an axis outside goes to the nearer bound |
| Player.MapPlayerInput | src/player.rs:129-152 | the button mapping leaves the looking direction alone |
| Player.MovementMapping | src/player.rs:130-137 | with Move held the direction is `(-x, 0, y)` of the clamped stick; otherwise it is zero; its y is always 0 |
| Player.AttackFrom | src/player.rs:140-146 | primary iff ShootPrimary was just pressed (it wins over ShootSecondary), secondary iff only ShootSecondary was, none iff neither |
| Player.ButtonMapping | src/player.rs:140-152 | primary attack iff ShootPrimary was just pressed, secondary iff only ShootSecondary was, none iff neither; jump is Jump held; switch is SwitchWeapon just pressed |
| Player.PlayerInputSystem | src/player.rs:119-154 | the first player's input becomes `MapPlayerInput` of its old input and its action state |
| Player.CameraFollowPlayer | src/player.rs:101-117 | the first camera ends up at the first player's position plus `(0, 9, -6)`; with no player the camera stays where it was; with no camera nothing changes |
| Player.CursorToNdc | src/player.rs:188-197 | a cursor inside the window maps into `[-1, 1]` on both axes |
| Player.CursorToNdcFormula | src/player.rs:188-197 | cursor `(cx, cy)` maps to `(2cx/w - 1, 1 - 2cy/h)`; `(0, 0)` maps to `(-1, 1)` and `(w, h)` maps to `(1, -1)` |
| Player.NdcRoundTrip | src/player.rs:188-197 | the NDC map is a bijection: its inverse gives the cursor back, both ways round |
| Player.MouseLook | src/player.rs:185-238 | a mouse candidate needs a mouse motion event and a cursor in the window; with both, it is `MouseCandidate` of the ray the camera gives for the cursor's NDC; it is orthogonal to `up` |
| Player.MouseCandidateInPlane | src/player.rs:216-235 | `MouseCandidate`: a candidate exists iff `|ray·up| > 0.0001`; it is orthogonal to `up`, and the point it reaches lies on the cursor ray's line |
| Player.GamepadCandidate | src/player.rs:240-253 | a gamepad candidate needs Look held and is `(-x, 0, y)` of the clamped right stick |
| Player.GamepadCandidateGate | src/player.rs:240-253 | a gamepad candidate exists iff Look is held and the clamped stick is longer than 0.6; it is flat and nonzero |
| Player.ChooseLook | src/player.rs:254-256 | the chosen direction is nonzero and is one of the two candidates; a nonzero mouse candidate is always the one chosen |
| Player.LookPreference | src/player.rs:254-259 | a nonzero mouse candidate wins; without one the gamepad's is used; a zero vector is never chosen |
| Player.PlayerLookingInputSystem | src/player.rs:172-262 | the first player's looking direction becomes the chosen candidate; with no candidate, no player or no camera it is unchanged |
| Reticles.DefaultReticle | src/reticle.rs:19-30 | the default reticle is faint and disabled |
| Reticles.ReticleRay | src/reticle.rs:86-95 | the ray starts at the character, goes along the given direction, reaches 1000, is solid, and excludes the character itself |
| Reticles.Shade | src/reticle.rs:96-136 | the distance is the time of impact on a hit and 1000 on a miss; faint is always `no_color`; `default` iff full brightness and a miss; an entity without a receiver type gives `no_color`; under full brightness a receiver type picks its own material, and only then |
| Reticles.ReceiverMaterial | src/reticle.rs:100-119 | player, enemy, friendly and object targets pick the player, enemy, friendly and object materials respectively, each exactly for its own type; never `default` or `no_color` |
| Reticles.ReceiverMaterialInjective | src/reticle.rs:100-119 | each receiver type has its own material handle; the player, enemy and friendly handles are distinct assets of the same colour and width (src/reticle.rs:154-171) |
| Reticles.Drawn | src/reticle.rs:84 | nothing is drawn exactly when the reticle is disabled or the looking direction is zero |
| Reticles.DrawnCastsAlongLook | src/reticle.rs:84-95 | a drawn reticle casts its ray along the unit looking direction |
| Reticles.LineOf | src/reticle.rs:139-145 | the polyline is empty exactly when nothing is drawn |
| Reticles.LineShape | src/reticle.rs:139-141 | a drawn line has two vertices: the origin, and the point `distance` ahead along -Z |
| Reticles.MaterialAfter | src/reticle.rs:138-145 | when a line is drawn the material becomes the shading's material; when nothing is drawn it is unchanged |
| Reticles.PolylineStore.Add | src/reticle.rs:139-144 | adding a polyline appends it to the store and returns the handle of the new entry |
| Reticles.DrawOne | src/reticle.rs:84-145 | one reticle gets the next handle, holding its line or an empty one; the material changes only when a line is drawn |
| Reticles.DrawReticleSystem | src/reticle.rs:81-146 | every reticle, in query order, gets its own new polyline; the material changes only when a line is drawn; the store's earlier entries are unchanged |
| Ui.Listed | src/ui.rs:111-115 | the items are the hand item, then the belt item, then the backpack in order; an empty slot adds no entry |
| Ui.Intersperse | src/ui.rs:127-135 | `n >= 1` items give `2n - 1` sections and none give none |
| Ui.IntersperseAt | src/ui.rs:127-135 | the items sit at the even positions in their order and the separator at every odd one |
| Ui.EvensOfIntersperse | src/ui.rs:127-135 | dropping the separators gives the items back |
| Ui.NoOuterSeparator | src/ui.rs:127-135 | the sections start with the first item and end with the last: no leading or trailing separator |
| Ui.InventorySections | src/ui.rs:111-135 | `n` listed items give `2n - 1` sections and none give none, so there is no trailing separator; dropping the separators gives the listed items back; every odd section is the separator |
| Ui.UpdateInventory | src/ui.rs:109-137 | the first panel's text is replaced wholesale by the sections of the first player's inventory; with no inventory it is unchanged |

## Left out

- Floating point: vectors and health are exact reals. `f32`/`f64` rounding, NaN and infinities are not modelled.
- Square roots: `normalize`/`try_normalize` are a normaliser parameter constrained by `Vectors.IsNormalizer`. `length() < m` and `length() > m` are compared squared.
- Helpers.ProjectOnto, Helpers.ProjectOntoPlane: require a nonzero `n`, where Bevy would return NaN. `project_onto_plane` is always called with `Vec3::Y`. `project_onto` is called in the speed check with the input direction, which the branch at src/character.rs:51 has just found nonzero.
- Physics: Rapier's `cast_shape` and `cast_ray` are function parameters from the query to its answer. The shape cast's rotation and collider shape are not part of the query record. Forces and impulses are outputs; their integration is not modelled.
- Character.ForceMovementSystem: the "No player character found!" message on an empty query is console output and is not modelled.
- Character.CharacterBody.constructor: of the bundle, only the components the systems read or write are modelled. The rigid body, capsule collider, mass, restitution, locked axes and friction combine rule are not.
- `JumpState` stopwatches are carried as a number and never read. Jump charging is not implemented in the source.
- character.rs uses the input record `CharacterInput { direction, jump: JumpState }`, while player.rs, npc.rs and reticle.rs use `character::Input { movement_direction, looking_direction, attack, jump, switch_hands }`. Each file is modelled against its own record (`Character.CharacterInput`, `Controls.Input`).
- Player.PlayerLookingInputSystem, Player.MouseLook: require a positive width and height only of a window that holds a cursor. The source divides by them only on the cursor path (src/player.rs:185-197), where a zero-size window would yield non-finite NDC. The primary-window lookup that panics without a window is replaced by a window parameter. Whether a mouse motion event arrived is a boolean parameter.
- Camera matrices: the inverse projection and `project_point3` are a parameter per camera, mapping NDC to the near and far world points of the cursor ray.
- Input bindings: the leafwing key and gamepad tables are not modelled. An action state gives the held and just-pressed actions and the raw stick pairs.
- Reticle materials: the six `ReticleMaterials` handles are represented by their names. Their colours and widths (asset creation) are not modelled. A new reticle bundle holds the default handles, modelled as `Unset` and no polyline; neither names an asset of the store.
- Reticles.DrawReticleSystem: the polyline store only grows. In Bevy, the polyline a reticle held before is freed once the handle replacing it (src/reticle.rs:139, 144) drops its last strong reference. Asset freeing is not modelled.
- Reticle receivers: `ReticleReceiveType` components are a map from entity to type.
- Ui.UpdateInventory: items are their display text. The font, size and colour of each text section, and the panel layout, are not modelled.
- Terrain generation, item.rs, animations, asset holders, materials, scene spawning, the launchers and the Unity script are not part of this model. They are stubs, engine glue or I/O.
- Combat, cooldowns and item pickup are not implemented in the modelled files.
- Despawning is recursive in the source. The model removes the entity's `Health` entry; children are not modelled.
