# LX56 projectile engine and feature settings, modelled in Dafny

OpenLieroX replays the original Liero Xtreme 0.56 ("LX56") projectile
physics identically on every client. This project models the discrete
decisions of that engine, which live in `src/common/PhysicsLX56_Projectiles.cpp`,
and proves properties about them:

- **Collision on the integer grid.** The map-border side mask, the fast
  grid-cell reject and the pixel scan of a projectile's bounding box, and
  the per-hit-type resolution of a terrain hit. The resolution truncates
  the velocity, sets blocked sides, restores positions and stops slow axes.
- **Event conditions.**
  - the LX56 timer;
  - the repeating timer with its `PermanentMode` duty cycle;
  - the worm-hit filter (`canMatch`, `match`);
  - the terrain-hit mask test;
  - the death and fallback events;
  - the projectile-hit collection with its minimum and maximum hit counts.
- **The per-step accumulator.**
  - `Proj_Action::applyTo` folds an action and its chain of
    `additionalAction`s into a `Proj_DoActionInfo`.
  - `Proj_DoActionInfo::execute` turns that into deletion, a new velocity
    and radius, and an ordered list of engine calls.
- **Spawn determinism.**
  - The `Proj_SpawnParent` accessors.
  - `Proj_SpawnInfo::apply`: the shot's random-index walk, the grid snap,
    the rotation-increment fix-up and the fields of each spawned child.

A second, small part models the settings table of `include/FeatureList.h`:
- `_FeatureSettings`: one slot per feature, initialised to the unset values,
  with `hostGet` and `olderClientsSupportSetting`.
- `FeatureCompatibleSettingList`: a name-keyed map with `set`, `find` and
  `clear`.

Files and modules:

| file | module | contents |
|---|---|---|
| `base.dfy` | `Base` | vectors, 2x2 matrices, C truncation (`Trunc`, `CMod`, `CDiv`), `size_t` conversion, flag constants |
| `content.dfy` | `Content` | action types, `Action`, `SpawnInfo`, the shared projectile descriptor `ProjDesc`, collision types |
| `terrain.dfy` | `Terrain` | the map (pixel flags plus coarse grid flags), the scan specification and its lemmas |
| `projectile.dfy` | `Projectiles` | the `Projectile` class with `MapBoundsCollision`, `TerrainCollision`, `HandleCollision` |
| `events.dfy` | `Events` | all event checks |
| `actions.dfy` | `Actions` | `applyTo`, `hasAnyEffect`, the `DoActionInfo` accumulator and `execute` |
| `spawn.dfy` | `Spawn` | spawn parents, the `Shot` record and `Proj_SpawnInfo::apply` |
| `features.dfy` | `Features` | `_FeatureSettings` and `FeatureCompatibleSettingList` |

Code that changes state in place is modelled as methods on classes:
- projectile fields: `CollisionSide`, position, velocity, radius, timer
  state, `used`;
- the accumulator;
- the shot's `nRandom`;
- the descriptor's `RotIncrement`;
- the settings array and the settings map.

Each such method is proved equal to a specification function, and the
properties are proved about those functions. Calls into the rest of the game
are recorded as values of the `Actions.Effect` datatype:
- explosions, holes, dirt, injuries, worm pushes, sounds;
- velocity changes of other objects;
- spawns.

The model never performs these calls. Randomness, the physics clock and
angle-to-vector conversion are parameters (`Spawn.Env`).

`PermanentMode` follows the code, which may differ from how the mode is
sometimes described. With `PermanentMode = P > 0`, the timer fires on every
fire count `c` with `c % (P+1) != 0`, which is P of every P+1 counts. With
`-P`, it fires when `c % (P+1) == 0`, which is 1 of every P+1 counts
(`Events.TimerDutyWindow`).

`Events.Death` (`health < 0`) and `Actions.DoActionInfo.Fallback` (no
effect collected) are predicates stated directly on the source's condition.
`Actions.HasAnyEffect` is characterised against `Actions.Quiet`, the
accumulator a fresh `Proj_DoActionInfo` holds. `Actions.ImpactHasEffect` and
`Actions.ExecuteWithoutEffect` relate these predicates to the rest of the
model.

## Model

| member | source | states |
|---|---|---|
| Projectiles.BoundsMask | src/common/PhysicsLX56_Projectiles.cpp:71-89 | each side bit is set iff the box around (px, py) crosses that map edge; no other bit is set |
| Projectiles.BoundsMaskZeroIffInside | src/common/PhysicsLX56_Projectiles.cpp:71-89 | the border mask is empty iff the whole box lies inside the map |
| Projectiles.BorderIsInside | src/common/PhysicsLX56_Projectiles.cpp:73-76 | a box touching the left edge (px - radius.x == 0) is inside; one pixel further left is not |
| Projectiles.Projectile.MapBoundsCollision | src/common/PhysicsLX56_Projectiles.cpp:71-89 | `CollisionSide` becomes exactly the border mask, and the result is true iff the mask is non-empty |
| Projectiles.Projectile.TerrainCollision | src/common/PhysicsLX56_Projectiles.cpp:94-142 | the nested loops compute exactly the scan specification: the fast reject, then the full box scan |
| Projectiles.Projectile.ScanPixel | src/common/PhysicsLX56_Projectiles.cpp:119-137 | one scanned pixel changes the running result exactly as the scan specification's per-pixel step: nothing outside the circle, side counts and flags for a solid pixel |
| Terrain.GridIndexInRange | src/common/PhysicsLX56_Projectiles.cpp:103-106 | a corner cell index of an in-map point lies inside the grid-flag array |
| Terrain.FullScanMeaning | src/common/PhysicsLX56_Projectiles.cpp:113-139 | collided iff some scanned in-shape pixel is dirt or rock; onlyDirt iff none is rock; each side count is positive iff a solid pixel lies on that side |
| Terrain.CentreRowNeutral | src/common/PhysicsLX56_Projectiles.cpp:125-128 | solid pixels on row py change neither the top nor the bottom count |
| Terrain.CentreColumnNeutral | src/common/PhysicsLX56_Projectiles.cpp:129-132 | solid pixels on column px change neither the left nor the right count |
| Terrain.NoSolidUnderEmptyCorners | src/common/PhysicsLX56_Projectiles.cpp:101-109 | for a box smaller than a cell whose four corner cells are empty, no pixel of the box is solid, when grid flags cover pixel flags |
| Terrain.FastRejectSound | src/common/PhysicsLX56_Projectiles.cpp:100-110 | the fast reject never changes the result: the scan with the shortcut equals the full scan when grid flags cover pixel flags |
| Projectiles.NewSides | src/common/PhysicsLX56_Projectiles.cpp:184-210 | a side bit is added iff that side is blocked and the truncated velocity on its axis is non-zero and points toward it |
| Projectiles.NewSidesNotOpposite | src/common/PhysicsLX56_Projectiles.cpp:184-210 | left and right are never added together, nor top and bottom |
| Projectiles.Damp | src/common/PhysicsLX56_Projectiles.cpp:212-216 | a velocity component whose truncation has magnitude below 2 becomes 0; any other is kept |
| Projectiles.ResolveHit | src/common/PhysicsLX56_Projectiles.cpp:147-219 | the collision stands unless the hit type is go-through; explode on dirt changes nothing; other non-bouncing types restore old position and velocity; bounce/nothing add the new sides and damp; bounce restores blocked axes |
| Projectiles.Projectile.HandleCollision | src/common/PhysicsLX56_Projectiles.cpp:147-219 | the result and the new position, velocity and side mask are exactly the resolution of the hit |
| Projectiles.Projectile.BlockX | src/common/PhysicsLX56_Projectiles.cpp:184-196 | the side mask gains exactly the horizontal new sides; x is reset to the old x iff bouncing and horizontally blocked |
| Projectiles.Projectile.BlockY | src/common/PhysicsLX56_Projectiles.cpp:198-210 | the side mask gains exactly the vertical new sides; y is reset to the old y iff bouncing and vertically blocked |
| Projectiles.Projectile.BlockContact | src/common/PhysicsLX56_Projectiles.cpp:180-216 | the bounce/nothing tail updates position, velocity and side mask as the block specification says |
| Projectiles.TerrainHitMask | src/common/PhysicsLX56_Projectiles.cpp:308-311 | a terrain hit always carries the terrain bit and never the border bit; it carries the dirt bit iff the contact was dirt only |
| Events.LX56Timer | src/common/PhysicsLX56_Projectiles.cpp:752-759 | fires iff Time > 0 and Time + TimeVar * f < life; firing sets `timerHit` and changes nothing else |
| Events.LX56TimerStaysDue | src/common/PhysicsLX56_Projectiles.cpp:752-759 | once due, the LX56 timer stays due as life grows |
| Events.TimerStep | src/common/PhysicsLX56_Projectiles.cpp:761-800 | a spent one-shot timer returns exactly PermanentMode == 1; when life reaches last + Delay, the count grows by one and last becomes life, otherwise the state is kept; fires on a new count in mode 0, or by the duty cycle |
| Events.CheckTimerEvent | src/common/PhysicsLX56_Projectiles.cpp:761-800 | the timer table changes only at this timer's entry, to the step's new state, and the result is the step's verdict |
| Events.DutyComplement | src/common/PhysicsLX56_Projectiles.cpp:795-798 | modes P and -P fire on complementary counts |
| Events.FireCountPrefix | src/common/PhysicsLX56_Projectiles.cpp:795-798 | within a window of P+1 counts starting at a multiple of P+1, the first j counts fire j-1 times (mode P > 0) or once (mode -P) |
| Events.TimerDutyWindow | src/common/PhysicsLX56_Projectiles.cpp:795-798 | every window of P+1 counts fires P times in mode P and once in mode -P |
| Events.Match | src/common/PhysicsLX56_Projectiles.cpp:864-879 | each flag excludes the cases it forbids: SameWorm another worm, DiffWorm and Enemy the owner itself, SameTeam another team, DiffTeam the same team, TeamMate another worm outside team games and another team in them, Enemy the same team in team games; a filter with no flag matches everything |
| Events.CanMatch | src/common/PhysicsLX56_Projectiles.cpp:847-862 | the filter is rejected iff SameWorm comes with DiffWorm, DiffTeam or Enemy, or SameTeam with DiffTeam or Enemy, or TeamMate with Enemy |
| Events.Death | src/common/PhysicsLX56_Projectiles.cpp:900-902 | the death event fires iff the projectile's health is below zero |
| Events.WormHit | src/common/PhysicsLX56_Projectiles.cpp:881-884 | fires iff the collision is with a worm and that worm matches the filter |
| Events.CanMatchSoundInTeamGame | src/common/PhysicsLX56_Projectiles.cpp:847-862 | in a team game, a filter that `canMatch` rejects matches no collision |
| Events.CanMatchRejectsMatchableOutsideTeamGame | src/common/PhysicsLX56_Projectiles.cpp:847-879 | outside team games, a rejected filter (SameTeam with Enemy) can still match |
| Events.TerrainHit | src/common/PhysicsLX56_Projectiles.cpp:888-897 | fires iff the collision is with terrain and its mask has the border bit if asked, the dirt bit if asked, and is exactly the terrain bit if rock is asked |
| Events.TerrainHitOnScan | src/common/PhysicsLX56_Projectiles.cpp:888-897 | for a scanned terrain hit, the rock event fires iff the contact had rock, the dirt event fires iff it was dirt only, and the border event never fires |
| Events.TerrainHitOnBorder | src/common/PhysicsLX56_Projectiles.cpp:888-897 | a map-border hit fires only the border event |
| Events.Collect | src/common/PhysicsLX56_Projectiles.cpp:803-821 | scanning candidates only adds to the hit set |
| Events.CheckProjHit | src/common/PhysicsLX56_Projectiles.cpp:828-843 | the hit set becomes the collected set; fires iff count >= MinHitCount and (MaxHitCount < 0 or count <= MaxHitCount), both compared as `size_t` |
| Events.CollectOnlyHits | src/common/PhysicsLX56_Projectiles.cpp:803-815 | every added projectile is a candidate passing every filter, and the projectile itself is never added |
| Events.CollectBoundedByMax | src/common/PhysicsLX56_Projectiles.cpp:818 | with MaxHitCount >= 0, the scan stops by MaxHitCount + 1 hits |
| Events.CollectBoundedByMin | src/common/PhysicsLX56_Projectiles.cpp:817 | with MaxHitCount < 0, the scan stops once MinHitCount hits are reached |
| Events.CollectComplete | src/common/PhysicsLX56_Projectiles.cpp:803-836 | unless the scan stopped early, every candidate passing the filters is in the hit set |
| Events.NegativeMinNeverFires | src/common/PhysicsLX56_Projectiles.cpp:840 | a negative MinHitCount, converted to `size_t`, makes the event never fire |
| Actions.ChainKinds | src/common/PhysicsLX56_Projectiles.cpp:743-747 | the action's own type is among the types of its chain |
| Actions.TypeCase | src/common/PhysicsLX56_Projectiles.cpp:587-680 | shake is raised to the action's shake by an explosion, or by dirt or green dirt on a timer hit, and otherwise kept; deleteAfter is set iff already set, or a carve on a timer or terrain hit, `Disappear2`, an injuring worm hit, or a pass-through type on a map-border hit outside both map axes; spawning is requested iff `Projectiles` is set and the action is not a bounce, go-through, nothing, or non-worm injure/disappear on a timer hit; timer is set iff already set or an explosion runs on a timer hit; explode, dirt and green dirt are set iff already set or the action has that type |
| Actions.SpawnAfter | src/common/PhysicsLX56_Projectiles.cpp:689-694 | with spawning on, a set spawn info is appended to `otherSpawns`, otherwise `spawnprojectiles` is set; with it off nothing changes; nothing is ever removed |
| Actions.ApplySpec | src/common/PhysicsLX56_Projectiles.cpp:575-748 | over the whole chain: shake and deleteAfter are monotone; explode, dirt and green dirt are set iff that type occurs in the chain; ChangeRadius and DiffOwnSpeed grow by the chain's sums; spawns are only appended |
| Actions.ChainShake | src/common/PhysicsLX56_Projectiles.cpp:588-633 | the chain's screen shake never drops below the starting shake, and an explosion lifts it to at least its own shake |
| Actions.ApplyShake | src/common/PhysicsLX56_Projectiles.cpp:588-747 | the shake after the chain is exactly the running maximum `ChainShake`, in which only the first action sees the timer hit |
| Actions.ApplyDeletes | src/common/PhysicsLX56_Projectiles.cpp:616-747 | the projectile is marked for deletion iff it already was or some action of the chain deletes it under the type case's rule |
| Actions.ApplySpawns | src/common/PhysicsLX56_Projectiles.cpp:585-747 | `otherSpawns` becomes the old list followed by the spawn infos of the chain's spawning actions that have one, in chain order |
| Actions.ApplyGeneral | src/common/PhysicsLX56_Projectiles.cpp:585-747 | the general-spawn flag is set iff it already was or some spawning action of the chain has no spawn info of its own |
| Actions.ApplyChangeOwnSpeed | src/common/PhysicsLX56_Projectiles.cpp:697-747 | the accumulated speed matrix acts as the chain's matrices applied in order after the earlier one |
| Actions.TimerHitSuppressesSpawn | src/common/PhysicsLX56_Projectiles.cpp:605-667 | a lone bounce, go-through or nothing action on a timer hit records no spawn |
| Actions.SpawnRecorded | src/common/PhysicsLX56_Projectiles.cpp:689-694 | a lone spawning action records its spawn info, or sets the general-spawn flag when it has none |
| Actions.WormPushed | src/common/PhysicsLX56_Projectiles.cpp:682-687 | a worm hit by any action other than bounce, go-through or nothing pushes that worm |
| Actions.HasAnyEffect | src/common/PhysicsLX56_Projectiles.cpp:955-965 | there is no effect iff the accumulator equals a fresh one apart from timer, damage, shake and sound |
| Actions.DoActionInfo.Fallback | src/common/PhysicsLX56_Projectiles.cpp:904-906 | the fallback event fires iff no explode, dirt, green dirt, deletion, spawn, own-speed overwrite, non-identity speed matrix, speed offset or radius change has been collected |
| Actions.ImpactHasEffect | src/common/PhysicsLX56_Projectiles.cpp:955-965 | an explode, dirt or green-dirt action anywhere in the chain makes `hasAnyEffect` true |
| Actions.DoActionInfo.ApplyTo | src/common/PhysicsLX56_Projectiles.cpp:575-748 | the accumulator and the engine calls are exactly the chain specification |
| Actions.DoActionInfo.ApplyType | src/common/PhysicsLX56_Projectiles.cpp:587-680 | the hit fields, engine calls and push/spawn flags are exactly the type case |
| Actions.DoActionInfo.ApplyImpact | src/common/PhysicsLX56_Projectiles.cpp:589-639 | for explode, bounce, carve, dirt and green dirt, the accumulator and the engine calls are exactly the type case |
| Actions.DoActionInfo.ApplyContact | src/common/PhysicsLX56_Projectiles.cpp:641-680 | for the remaining types, the accumulator and the engine calls are exactly the type case |
| Actions.DoActionInfo.PassThroughCase | src/common/PhysicsLX56_Projectiles.cpp:656-667 | the go-through tail deletes only a projectile outside a map corner after a border hit, never pushes, and spawns unless on a timer hit |
| Actions.DoActionInfo.Bookkeep | src/common/PhysicsLX56_Projectiles.cpp:689-741 | the spawn fields and the motion fields become their specifications after this action |
| Actions.DoActionInfo.ApplyAction | src/common/PhysicsLX56_Projectiles.cpp:587-741 | one action without its chain updates the accumulator exactly as the one-step specification says |
| Actions.DoActionInfo.ExplodeStep | src/common/PhysicsLX56_Projectiles.cpp:970-988 | the explosion and dirt calls are made in order, and deleteAfter is set when explode, dirt or green dirt is set |
| Actions.DoActionInfo.Perform | src/common/PhysicsLX56_Projectiles.cpp:970-1026 | the engine calls, the new velocity and the new radius are exactly their specifications |
| Actions.DoActionInfo.Reap | src/common/PhysicsLX56_Projectiles.cpp:1030-1041 | junk projectiles are marked for deletion, and a projectile marked for deletion becomes unused |
| Actions.HasAnyAction | src/common/PhysicsLX56_Projectiles.cpp:1030-1034 | the early-exit loop finds an action iff some event of the descriptor has one |
| Actions.NewVelocity | src/common/PhysicsLX56_Projectiles.cpp:990-995 | with no overwrite, identity matrix and zero offset the velocity is unchanged |
| Actions.NewRadius | src/common/PhysicsLX56_Projectiles.cpp:997-1001 | each radius component is non-negative and equals the sum with the change, or 0 when that sum is negative |
| Actions.AppendSpawns | src/common/PhysicsLX56_Projectiles.cpp:1016-1020 | the earlier calls are kept, and the i-th added call spawns the i-th entry of `otherSpawns` at the current time |
| Actions.ExecOrder | src/common/PhysicsLX56_Projectiles.cpp:970-1024 | the calls of `execute` are, in order: explosion and dirt, the trail spawn at the projectile's last simulation time, the general spawn at the current time, each other spawn at the current time in collection order, then the sound |
| Actions.ExecuteSpec | src/common/PhysicsLX56_Projectiles.cpp:967-1043 | deletes iff deleteAfter, explode, dirt or green dirt is set or the projectile is junk; the radius is non-negative and equals the sum when that is non-negative; there is at least one call per entry of `otherSpawns` (their order is stated by `Actions.ExecOrder`) |
| Actions.ExecuteWithoutEffect | src/common/PhysicsLX56_Projectiles.cpp:955-1043 | with no effect collected, velocity and a non-negative radius are unchanged, only the sound is played, and only junk is deleted |
| Actions.DoActionInfo.Execute | src/common/PhysicsLX56_Projectiles.cpp:967-1043 | deletion, velocity, radius and engine calls are exactly the execute specification; the projectile stays used iff it is not deleted |
| Actions.DoActionInfo.MoveStep | src/common/PhysicsLX56_Projectiles.cpp:990-1001 | the projectile's velocity and radius become the new velocity and radius |
| Actions.DoActionInfo.SpawnStep | src/common/PhysicsLX56_Projectiles.cpp:1005-1022 | the loop over `otherSpawns` appends one spawn call per entry, in order |
| Spawn.OwnerWorm | src/common/PhysicsLX56_Projectiles.cpp:322-329 | -1 with no parent, the shooting worm for a shot, the owner for a projectile |
| Spawn.FixedRandomIndex | src/common/PhysicsLX56_Projectiles.cpp:331-338 | -1 with no parent, the shot's `nRandom`, or the projectile's random index plus one |
| Spawn.FixedRandomFloat | src/common/PhysicsLX56_Projectiles.cpp:340-347 | -1 with no parent, the fixed random number at the shot's index, or the projectile's own random float |
| Spawn.Position | src/common/PhysicsLX56_Projectiles.cpp:349-361 | zero with no parent, 8 pixels along the shot's direction from the shot position, or the projectile's position |
| Spawn.Velocity | src/common/PhysicsLX56_Projectiles.cpp:363-370 | zero with no parent, the worm velocity of a shot, or the projectile's velocity |
| Spawn.Step | src/common/PhysicsLX56_Projectiles.cpp:420-459 | one child's `++, %255, *5, %255, ++, %255` walk keeps a non-negative index in [0, 255) |
| Spawn.RoundsInRange | src/common/PhysicsLX56_Projectiles.cpp:400-459 | after any positive number of children, a non-negative `nRandom` lies in [0, 255) |
| Spawn.MidIndexInRange | src/common/PhysicsLX56_Projectiles.cpp:420-447 | the index a shot child reads, after the first two steps, lies in [0, 255) |
| Spawn.SnapCentres | src/common/PhysicsLX56_Projectiles.cpp:449-452 | a snapped coordinate is S/2 modulo S, and for x >= 0 it is non-negative and within S of x |
| Spawn.SpawnPos | src/common/PhysicsLX56_Projectiles.cpp:449-452 | with both snap sizes at least 1 each coordinate is snapped; otherwise it is the truncated parent position plus the offset |
| Spawn.FixedIncrement | src/common/PhysicsLX56_Projectiles.cpp:413-415 | the rotation increment is never 0 afterwards, and a non-zero one is kept |
| Spawn.ChildAt | src/common/PhysicsLX56_Projectiles.cpp:400-459 | a child has the parent's owner, the spawn's descriptor and time; a projectile parent passes its random index plus one and its ignore time; otherwise the ignore time is physics time + 0.1; a shot child's index lies in [0, 255) |
| Spawn.Batch | src/common/PhysicsLX56_Projectiles.cpp:400-460 | one child per iteration |
| Spawn.BatchInherits | src/common/PhysicsLX56_Projectiles.cpp:400-460 | every child of a batch has the parent's owner and the spawn's descriptor, and the index guarantees of `ChildAt` |
| Spawn.DrawRot | src/common/PhysicsLX56_Projectiles.cpp:409-418 | the rotation is a draw below 360 / increment times the increment when random rotation applies, else 0; a zero increment becomes 1 first |
| Spawn.SpawnOne | src/common/PhysicsLX56_Projectiles.cpp:400-460 | one iteration returns exactly the child specification and advances a shot's `nRandom` by one step |
| Spawn.ApplySpawn | src/common/PhysicsLX56_Projectiles.cpp:394-462 | the children are exactly the batch specification for the parent as it was before; the shot's `nRandom` advances one step per child; the increment is fixed up once |
| Features.FeatureSettings.constructor | include/FeatureList.h:285-288 | every slot holds its feature's unset value |
| Features.FeatureSettings.SameSlot | include/FeatureList.h:290-293 | indexing by position and by `Feature*` read the same slot |
| Features.FeatureSettings.Set | include/FeatureList.h:290 | assignment through an index changes that slot and no other |
| Features.FeatureSettings.SetAt | include/FeatureList.h:291 | assignment through a `Feature*` changes that slot and no other |
| Features.FeatureSettings.HostGet | include/FeatureList.h:295-303 | the stored value, unchanged without a value hook, passed through the hook otherwise |
| Features.FeatureSettings.OlderClientsSupportMeaning | include/FeatureList.h:305-308 | an optional feature is always supported; otherwise it is supported iff the host value equals the unset value |
| Features.FeatureSettings.FreshSettingsSupported | include/FeatureList.h:285-308 | right after construction, every feature without a value hook is supported by older clients |
| Features.FindIn | include/FeatureList.h:263-268 | the lookup finds nothing iff no entry has the name, and otherwise the stored entry |
| Features.FindAfterSet | include/FeatureList.h:254-268 | after storing f, its name finds f and every other name finds what it found before |
| Features.SetKeepsKeyed | include/FeatureList.h:254 | storing keeps every entry under its own name |
| Features.FeatureCompatibleSettingList.constructor | include/FeatureList.h:252 | the list starts empty and keeps every entry under its own name |
| Features.FeatureCompatibleSettingList.Set | include/FeatureList.h:254 | the list is the old list with f stored under its name, and every entry stays under its own name |
| Features.FeatureCompatibleSettingList.SetFields | include/FeatureList.h:255-262 | the same as storing the record with exactly those four fields |
| Features.FeatureCompatibleSettingList.Find | include/FeatureList.h:263-268 | none iff no entry has the name, and otherwise the stored entry, whose own name is the one looked up |
| Features.FeatureCompatibleSettingList.Clear | include/FeatureList.h:269 | the list is empty and every name finds nothing |
| Events.CanMatchAcceptsUnmatchable | src/common/PhysicsLX56_Projectiles.cpp:858-859 | `canMatch` as written accepts TeamMate with DiffTeam, which no collision matches |
| Events.CanMatchFixedExact | src/common/PhysicsLX56_Projectiles.cpp:847-879 | in team games the corrected `canMatch` is exact: it accepts a filter iff some collision matches it |

## Left out

- The floating-point kinematics of `SimulateFrame` are not modelled: gravity, dampening, sub-steps and `enddt`. Only its hit masks are kept (`Projectiles.TerrainHitMask`, `Projectiles.BorderHitMask`).
- `FinalWormCollisionCheck` is not modelled, because it traces a normalised float path.
- The steering helpers `wormAngleDiff`, `getVelChangeForProj` and `nearest*Worm` are not modelled, because they use trigonometry and world search.
- The `HeadingTo*` branches of `applyTo` (lines 700-718) are not modelled, because they steer with trigonometry. The accumulated own-speed matrix leaves out their factors.
- `Proj_SpawnParent::angle` is an input of the spawn (`Env.parentAngle`), because it uses `atan2` and `FMOD`.
- Events.TimerStep: the global-clock branch of `Proj_TimerEvent` is given whether the next tick is due and the clock value as inputs. Its `FMOD` float arithmetic and game-speed scaling are not modelled.
- The rotation, animation and trail timers of `LX56_simulateProjectile_LowLevel` are not modelled, because they are float accumulators plus rendering calls.
- The outer loops `LX56_simulateProjectile(s)` are not modelled, because they depend on client globals and the network state.
- The `projPosMap` bucket walk of `Proj_ProjHitEvent::checkEvent` is given as a sequence of candidates in bucket order.
- `CProjectile::CollisionWith` and the shape tests are an opaque `Geometry` predicate, because their bodies are outside the modelled files.
- Engine calls are recorded as `Effect` values and never performed. This covers explosions, holes, dirt placement, injuries, sounds, spawns, worm pushes and setting other objects' velocities.
  - `CProjectile::Bounce` is one of these recorded calls (`BounceOff`). As a result, a later action in the `additionalAction` chain sees the velocity from before the bounce.
  - So are the dirt counts and `PushWorm`'s normalisation.
- Actions.DoActionInfo.ApplyType: the `__PJ_LBOUND`/`__PJ_UBOUND` error branch is not modelled, because the action-type datatype has no such values.
- `Proj_Action::operator=` and the `Feature` constructors are not modelled, because they only copy fields and manage memory.
- `featureArrayIndex` is not modelled; a `Feature*` is modelled as an offset into the feature array (`Features.FeaturePtr`).
- `getValueFct` is an optional Dafny function value, so the `boost::function` it stands for is not modelled.
- Floats are modelled as reals: no rounding or precision limits.
- The conversion of a float position to an integer vector is assumed to truncate toward zero (`Base.Trunc`).
- The numeric values of the `COL_*`, `PX_*` and `PJC_*` flags are chosen here as distinct single bits, because their defining headers are not part of this model. Only their distinctness is used.
- `GetRandomInt`, `GetFixedRandomNum`, `GetVecsFromAngle` and `GetPhysicsTime` are inputs of the spawn (`Spawn.Env`), because they are foreign randomness, maths and the clock.
- `Proj_Action::hasAction` is not modelled; the descriptor carries whether each event has an action.
- `CClient::SpawnProjectile` is not modelled; each spawned child is returned as a `Spawn.Child` value.

## Findings

| source | as written | input that shows it | evidently intended | confidence | as-written member | corrected member |
|---|---|---|---|---|---|---|
| src/common/PhysicsLX56_Projectiles.cpp:858-859 | the TeamMate branch of `canMatch` rejects only the Enemy flag | a worm-hit filter with TeamMate and DiffTeam: `canMatch` accepts it, but `match` fails for every worm and owner (a team mate is on the same team) | TeamMate also rejects DiffTeam, as SameTeam does | not executed | Events.CanMatchAcceptsUnmatchable | Events.CanMatchFixedExact |
