# BBQ engine and slash'n'smash actors, modelled in Dafny

This project models two layers of a small browser brawler written in JavaScript.

The first is the BBQ engine core:
- the actor's signal table and event list;
- the game state, which depth-sorts its actors every frame and calls `update` on each;
- the `BBQ.Utils.assign` / `BBQ.Utils.extends` helpers;
- the on-screen console: a log that keeps six entries, two status slots and a show/hide switch.

The second is the game's per-tick actor rules:
- physics integration with the depth clamp to [0, 70];
- the sprite-sheet frame crop;
- the player's and the keyboard cat's key flags, turned into velocity, facing and clip;
- the enemy's nearest-player search and chase;
- the street enemy's chase/attack rule and damage;
- the pet cat's tick counter;
- the stage, which registers actors and fans key events out to every player.

Modules follow the source files:

| module | file | source |
|---|---|---|
| `Js` | js.dfy | JS numbers (a real or NaN), values, `Math.sqrt` as a parameter |
| `BbqBase` | bbq_base.dfy | src/bbq-base.js |
| `BbqConsole` | bbq_console.dfy | src/bbq-console.js |
| `BbqState` | bbq_state.dfy | src/bbq-state.js |
| `Actors` | actors.dfy | src/actors.js |
| `Enemies` | enemies.dfy | src/enemies.js |
| `Creatures` | creatures.dfy | src/creatures.js |
| `GameCreatures` | game_creatures.dfy | src/game/creatures.js |
| `Stages` | stages.dfy | src/stages.js |

Modelling choices:
- **One `Actor` class.** A JS actor is one open object whose fields are written by `BBQ.Actor`, `PIXI.Sprite`, `BBQ.AnimatedActor` and the game constructors. So one class `BbqState.Actor` holds every such field, plus a constant `methods` naming the functions its prototype chain provides. Each prototype's behaviour is a set of methods taking `self: Actor` in the module of its source file, and each declares the fields it may change.
- **Numbers.** A JS number is `Js.Number`: an exact real or `NaN`. Comparisons with NaN are false; arithmetic and `Math.min`/`max` propagate it. `x || 0` turns NaN and 0 into 0.
- **Square root.** `Math.sqrt` is a parameter, required to be a square root (`Js.IsSqrt`) where a property depends on it.
- **Collaborators as parameters.** The player list that `findNearestPlayer` reads from `Game.app.state.players` is a parameter.
- **`play`.** `play(name)` of `BBQ.AnimatedActor`, which is not part of this model, records the clip name.
- **Step returns calls.** `State.step` sorts the actor layer in place on an array copy, then returns the `update` calls that `performLayer` makes (in order) rather than running them. The game modules sit above `BbqState`, and each kind's `update` is modelled in its own module (`Actors.PlayerUpdate`, `Enemies.Update`, ...). `emitSignal` likewise returns the call it makes.

The model follows the code as written; in particular:
- **One callback per signal name.** Binding again replaces the old callback; there is no subscriber list.
- **The event list is a stack.** `dequeueEvent` pops the newest entry.
- **Events are never turned into signals.** Nothing in the code drains the event list, so the model has no drain step.
- **The enemy never keeps its target.** It clears `follow` and re-acquires the nearest player in sight every tick. The tie rule is strict `<`, so on ties the earliest player wins.
- **No attack cooldown.** The street enemy hits on every tick in reach, with no random cooldown, and no hit-collision query exists.
- **`step` does no camera update.** The sort is `Array.prototype.sort`; the model's insertion sort is one admissible (stable) outcome.
- **The first player is a plain Character.** `enter` creates a plain `Game.Actors.Character` (not a `Player`) as the one player.
- **The pet cat moves at an undefined speed.** It calls `moveTo(player)` without a speed, so its velocity becomes NaN once it walks; a NaN velocity component then makes the same position component NaN.

## Model

| member | source | states |
|---|---|---|
| BbqState.Actor.constructor | src/bbq-state.js:26-35 | a new actor has an empty signal table and an empty event list |
| BbqState.Dispatch | src/bbq-state.js:55-60 | a call happens exactly when the name is bound to a function, and it calls that function with the actor as `this` and exactly the given arguments |
| BbqState.Actor.EmitSignal | src/bbq-state.js:55-62 | emitting returns the actor itself and makes exactly the call `Dispatch` describes; an unbound name makes none |
| BbqState.Actor.BindSignal | src/bbq-state.js:71-74 | the table changes at that name only, where the new callback replaces the old one; returns the actor |
| BbqState.BindThenDispatch | src/bbq-state.js:71-74 | after binding, emitting that name calls the new callback; every other name dispatches as before |
| BbqState.Actor.UnbindSignal | src/bbq-state.js:82-85 | the name is removed from the table and nothing else changes; returns the actor |
| BbqState.UnbindThenDispatch | src/bbq-state.js:82-85 | after unbinding, emitting that name calls nothing; every other name dispatches as before |
| BbqState.Actor.EnqueueEvent | src/bbq-state.js:93-96 | every argument is appended, in order, and the length grows by the argument count; returns the actor |
| BbqState.Actor.DequeueEvent | src/bbq-state.js:103-105 | removes and returns the last entry (LIFO); an empty list gives `undefined` and stays empty |
| BbqState.Actor.Play | src/actors.js:211 | `play(name)` leaves `name` as the actor's current clip |
| BbqState.SortActorsFunc | src/bbq-state.js:180-190 | -1, 1 or 0 exactly when the first depth is less than, greater than or neither (NaN included) compared with the second |
| BbqState.SortActorsFuncAntisymmetric | src/bbq-state.js:180-190 | swapping the two actors negates the comparator |
| BbqState.NeighboursOrderedIsSorted | src/bbq-state.js:138 | when every depth is a number, neighbours in comparator order means the whole list is non-decreasing by depth |
| BbqState.SwapDown | src/bbq-state.js:138 | exchanges two neighbours and leaves the rest; the contents stay a permutation |
| BbqState.InsertAt | src/bbq-state.js:138 | one insertion step: extends the ordered prefix by one, leaves the suffix alone, keeps a permutation |
| BbqState.SortByDepth | src/bbq-state.js:138 | sorting in place by `sortActorsFunc` yields a permutation of the old contents with every neighbour pair in comparator order |
| BbqState.Invocations | src/bbq-state.js:161-170 | no more calls than children; every call is `action` with the given arguments on a child that has it; every child that has it is called |
| BbqState.InvocationsSingle | src/bbq-state.js:164-168 | one child gives exactly one call when it has `action`, and none otherwise |
| BbqState.InvocationsAppend | src/bbq-state.js:163-169 | the calls for two runs of children are the first run's calls followed by the second's, so calls come in list order |
| BbqState.InvocationsCount | src/bbq-state.js:163-169 | a child that has `action` is called once per time it is listed; a child without it is never called |
| BbqState.State.constructor | src/bbq-state.js:113-122 | a new state has an empty actor layer |
| BbqState.Without | src/stages.js:50 | the actor is no longer listed, and a layer without it is returned unchanged |
| BbqState.WithoutCounts | src/stages.js:50 | taking an actor out removes every copy of it and leaves every other actor's count alone |
| BbqState.AddedOnce | src/stages.js:50 | after `addChild` the layer lists the actor exactly once and every other actor as often as before |
| BbqState.State.AddActor | src/stages.js:50 | `actors.addChild` takes the actor out of the layer if it is already there, then appends it; a new actor is simply appended |
| BbqState.State.PerformLayer | src/bbq-state.js:161-170 | returns the state and exactly the calls `Invocations` lists, in child order |
| BbqState.State.Step | src/bbq-state.js:136-144 | the layer ends as a permutation of its old contents in comparator order (non-decreasing by depth when all depths are numbers), then `update(delta)` is called on each actor that has it, in the new order |
| BbqBase.JsObject.constructor | src/bbq-base.js:49 | `Object.create(parent)` links a new object to its prototype chain |
| BbqBase.Constructor.constructor | src/bbq-base.js:49 | a function object holding the given `prototype` |
| BbqBase.Merged | src/bbq-base.js:31-37 | with no sources the target is returned; the result holds every key of the target and of every source |
| BbqBase.Assign | src/bbq-base.js:31-37 | the target's properties end as the merge of the old target with every source, in order (`Merged`) |
| BbqBase.MergedTakesLastSource | src/bbq-base.js:31-37 | a key some source holds ends with the value of the last source holding it |
| BbqBase.MergedKeepsUntouched | src/bbq-base.js:34-35 | a key no source holds keeps its presence and value; with no sources the target is unchanged |
| BbqBase.MergedKeys | src/bbq-base.js:31-37 | the merged keys are exactly the target's and the sources' keys |
| BbqBase.MergedIdempotent | src/bbq-base.js:34-35 | assigning the same source twice gives what assigning it once gave |
| BbqBase.Extends | src/bbq-base.js:47-52 | `classa` gets a fresh prototype whose parent is `classb.prototype` and whose own keys are exactly `proto`'s |
| BbqBase.ExtendedLookup | src/bbq-base.js:47-52 | through that prototype, `proto`'s keys shadow the parent's and every other key reads the parent's value |
| BbqConsole.Console.constructor | src/bbq-console.js:23-55 | the console starts hidden, with no log entries, an empty status slot and `---` in the fps slot |
| BbqConsole.Console.Status | src/bbq-console.js:63-66 | overwrites only the status slot; returns the console |
| BbqConsole.Console.Fps | src/bbq-console.js:74-77 | overwrites only the fps slot; returns the console |
| BbqConsole.Logged | src/bbq-console.js:85-94 | the new entry is last; the oldest is dropped exactly when more than five were shown; the survivors keep their order; at most six remain |
| BbqConsole.Console.Log | src/bbq-console.js:85-94 | the list becomes `Logged` of the old one and never exceeds six entries; the new entry is returned |
| BbqConsole.LogKeepsNewest | src/bbq-console.js:85-94 | from an empty list, any run of `log` calls leaves exactly the six newest contents, oldest first |
| BbqConsole.Console.Show | src/bbq-console.js:101-104 | the console is shown (`block`) whatever it was, so showing twice is showing once |
| BbqConsole.Console.Hide | src/bbq-console.js:111-114 | the console is hidden (`none`) whatever it was, so hiding twice is hiding once |
| BbqConsole.Toggled | src/bbq-console.js:121-124 | a hidden console becomes shown and anything else becomes hidden |
| BbqConsole.Console.Toggle | src/bbq-console.js:121-124 | the visibility flips |
| BbqConsole.ToggleTwice | src/bbq-console.js:121-124 | toggling twice restores a shown or hidden console |
| Actors.ClampDepth | src/actors.js:123-125 | a numeric depth ends within [0, 70]: kept when inside, else moved to the nearer bound; NaN stays NaN |
| Actors.Integrated | src/actors.js:121-125 | each coordinate stays a number exactly when it and the matching velocity component were numbers; a numeric depth ends within [0, 70] |
| Actors.IntegratedAtRest | src/actors.js:121-125 | at zero velocity a position with a depth in [0, 70] does not move |
| Actors.IntegratedHeading | src/actors.js:121-125 | over a positive time step x moves the way `velocity.x` points; y moves the way `velocity.y` points or not at all (the clamp) |
| Actors.Integrate | src/actors.js:121-125 | the position becomes `Integrated` of the old position and the current velocity; a numeric depth ends within [0, 70] |
| Actors.CharacterUpdate | src/actors.js:104-126 | a plain character (no `updateState`) only integrates: the new position is `Integrated` of the old one at its velocity, and a numeric depth with a numeric vertical velocity stays numeric within [0, 70] |
| Actors.FrameCell | src/actors.js:133-134 | column below 3, and row * 3 + column is the frame index |
| Actors.CropOrigin | src/actors.js:131-136 | the crop rectangle lies within the three-frame-wide row |
| Actors.CropOriginInjective | src/actors.js:133-134 | different frames crop at different places |
| Actors.Pressed | src/actors.js:232-242 | a tracked key's flag becomes `down`; every other flag is unchanged, and an untracked key changes nothing |
| Actors.PressThenRelease | src/creatures.js:161-203 | pressing then releasing a tracked key leaves it up and every other flag as before |
| Actors.Axis | src/actors.js:191-208 | +1 exactly when the first key is held, -1 exactly when only the second is, else 0 |
| Actors.Steered | src/actors.js:186-208 | the flags' velocity: right beats left, down beats up, components in {-1, 0, 1}; zero exactly when no flag is set |
| Actors.Length | src/actors.js:215-218 | the length is a number exactly when both components are |
| Actors.NormalizedComponent | src/actors.js:221-222 | the `|| 0` guard: the result is always a number |
| Actors.Normalized | src/actors.js:215-222 | both normalised components are numbers |
| Actors.NormalizedComponentZero | src/actors.js:221-222 | a zero component stays zero whatever the length (0/0 gives NaN, then 0) |
| Actors.NormalizedKeepsSigns | src/actors.js:215-222 | normalising keeps each component's sign, and the zero vector stays zero |
| Actors.UnitLengthPositive | src/actors.js:215-218 | a non-zero flag velocity has positive length |
| Actors.PlayerGroundVelocity | src/actors.js:186-222 | on the ground the final velocity has the sign of the flags' choice in each component, and is zero exactly when no flag is set |
| Actors.NewCharacter | src/actors.js:30-65 | a character starts with 100 health, at rest, with no key held |
| Actors.NewPlayer | src/actors.js:149-155 | a player is a character with `keyEvent` bound as the `keyEvent` signal |
| Actors.PlayerUpdateState | src/actors.js:180-223 | jumping: flags unread, clip and facing kept, velocity normalised at 1.8. Otherwise: velocity is the flags' choice normalised at 1.5, facing follows the horizontal choice, and `walk` is played exactly when a flag is set, else `idle` |
| Actors.PlayerKeyEvent | src/actors.js:232-247 | an arrow key sets only its own flag to `down`; `jump` is played exactly for `c` pressed |
| Actors.PlayerUpdate | src/actors.js:104-126 | velocity, facing and clip as `PlayerUpdateState` leaves them; then the position becomes `Integrated` of the old position at that velocity (pace 25), so a numeric depth stays numeric within [0, 70] |
| Actors.SquaredDistance | src/actors.js:330-337 | a number exactly when all coordinates are, and then non-negative |
| Actors.Distance | src/actors.js:330-338 | a number exactly when the squared distance is |
| Actors.DistanceComparesAsSquares | src/actors.js:330-337 | distances compare as their squares do, so which player is nearer does not depend on the square root |
| Actors.InSight | src/actors.js:313 | a player in sight has a numeric distance below 60; NaN is never in sight |
| Actors.InSightIffSquare | src/actors.js:313 | `distance < 60` exactly when the squared distance is below 3600 |
| Actors.DistancesFrom | src/actors.js:309-311 | one distance per player, in list order, each `distanceTo` that player |
| Actors.Nearest | src/actors.js:309-321 | the picked index is a valid index whose distance is in sight |
| Actors.NearestIsClosest | src/actors.js:302-321 | the pick is at least as close as every player in sight |
| Actors.NearestUnique | src/actors.js:302-321 | at most one index is the pick |
| Actors.FindNearestPlayer | src/actors.js:302-321 | returns and stores in `follow` none exactly when no player is within 60; otherwise the player within 60 that no other is strictly closer than, the earliest on ties |
| Actors.Direction | src/actors.js:350-351 | `difference / distance` is a number exactly when both are and the distance is non-zero |
| Actors.DirectionSign | src/actors.js:350-351 | dividing by a positive distance keeps the difference's sign |
| Actors.Toward | src/actors.js:349-351 | the normal is a number in both components exactly when the distance is a non-zero number; at distance 0 both components are NaN |
| Actors.TowardPointsAtTarget | src/actors.js:349-351 | at a positive distance both normal components are numbers with the sign of the coordinate differences |
| Actors.Pushed | src/actors.js:354-355 | `velocity += norm * speed` keeps a component a number exactly when velocity, normal and speed are |
| Actors.MoveTo | src/actors.js:347-356 | the velocity gains the normal towards the target scaled by `speed`; nothing else changes |
| Actors.FacingToward | src/actors.js:290 | -1 exactly when the actor is right of the target, else 1 |
| Actors.BeyondReach | src/actors.js:284 | beyond reach implies a numeric distance |
| Actors.BeyondReachIffSquare | src/actors.js:284 | `distance > 10` exactly when the squared distance exceeds 100 |
| Actors.ChaseHeadsForTarget | src/actors.js:284-287 | beyond reach, the chase velocity is finite and points at the target in each component |
| Actors.Approach | src/actors.js:283-291 | beyond 10, `moveTo(player, 1)` and `walk`; otherwise velocity kept and `idle`; faces the player either way |
| Actors.EnemyUpdateState | src/actors.js:268-294 | jumping: nothing changes. Otherwise `follow` is the nearest player in sight (as `FindNearestPlayer`); none found: velocity zero, `idle`, facing kept; found: faces it, and beyond 10 chases it at speed 1 playing `walk`, else stands `idle` |
| Actors.EnemyUpdate | src/actors.js:104-126 | `follow`, velocity, facing and clip as `EnemyUpdateState` leaves them, stated against the old positions; then the position becomes `Integrated` of the old position at that velocity, so a numeric depth stays numeric within [0, 70] unless the enemy was jumping with a NaN vertical velocity |
| Enemies.NewStreetEnemy | src/enemies.js:31-65 | a street enemy starts with health = healthMax = 50 and damageHP = 5, at rest |
| Enemies.Damage | src/enemies.js:127-138 | with the target's health above 0: the health drops by exactly `pkt`, the target moves by (+10, +10) and the enemy by (-10, +10) (both on the enemy itself when it follows itself); otherwise nothing changes |
| Enemies.InReach | src/enemies.js:180 | an actor in reach has numeric coordinates, as does its target |
| Enemies.ReachIsWithinChase | src/enemies.js:148-180 | an enemy in attack reach always passes the signed `x - follow.x < 70` test |
| Enemies.KnockbackKeepsVertical | src/enemies.js:132-135 | the knockback does not change which of the two stands lower |
| Enemies.UpdateState | src/enemies.js:143-197 | faces the target. Out of reach: plays `walk`, `velocity.x` equals the facing and is +1 exactly when `x <= follow.x`, nothing is damaged or moved. Chase side: `velocity.y` points at the target; `x - follow.x >= 70`: `velocity.y` unchanged. In reach: `velocity.x` 0, `attack`, one `damage(damageHP)` with its knockback (enemy by (-10, +10), target by (+10, +10), or (0, +20) when it follows itself, no move against a target without health), then `velocity.y` -1 exactly when below the pushed target, which is below the target before the push |
| Enemies.Recoiled | src/enemies.js:132-135 | a hit moves the enemy down by 10, or by 20 when it follows itself, and keeps each coordinate's NaN-ness |
| Enemies.Update | src/enemies.js:90-106 | velocity, facing, clip and the target's health as `UpdateState` leaves them, stated against the old positions; then the position becomes `Integrated` (pace 22) of the old position, or of its `Recoiled` one after a hit on a live target, which is pushed by (+10, +10); a numeric depth lies within [0, 70] |
| Creatures.NewCat | src/creatures.js:31-65 | a cat starts at rest with no key held and `keydown`/`keyup` bound as the signals of the same names |
| Creatures.KeyDown | src/creatures.js:161-181 | one of the six tracked keys sets its own flag; any other key changes nothing |
| Creatures.KeyUp | src/creatures.js:183-203 | one of the six tracked keys clears its own flag; any other key changes nothing |
| Creatures.CatSteered | src/creatures.js:120-155 | horizontally the player's rule; vertically `q` (-1) beats `a` (+1), which beat the arrow keys; zero exactly when none of the six flags is set |
| Creatures.UpdateState | src/creatures.js:120-159 | velocity is the cat's flag choice; facing follows the horizontal choice; `walk` exactly when some flag is set (and the cat moves), else `idle` |
| Creatures.Update | src/creatures.js:90-105 | velocity, facing and clip as `UpdateState` leaves them; then the position becomes `Integrated` of the old position at that velocity (pace 25), so a numeric depth stays numeric within [0, 70] |
| GameCreatures.NewPetCat | src/game/creatures.js:22-44 | the pet cat follows nobody, has tick 0, 1000 health, the punch/kick strength table, the speed table and a `hit` clip that returns to `idle` |
| GameCreatures.Away | src/game/creatures.js:84 | a player more than 20 away is at a numeric distance, and so also beyond the enemy's reach of 10 |
| GameCreatures.FollowFound | src/game/creatures.js:83-92 | more than 20 away: `moveTo` (NaN velocity), tick and clip kept; otherwise tick drops by one and the clip becomes `idle` exactly when the old tick was <= 0; faces the player either way |
| GameCreatures.UpdateState | src/game/creatures.js:72-95 | not walking: nothing changes. Walking: `follow` is the nearest player in sight; none found: nothing else changes; found: `FollowFound`'s effects |
| GameCreatures.Update | src/actors.js:117-125 | `follow`, velocity, tick, facing and clip as `UpdateState` leaves them, stated against the old positions; then the position becomes `Integrated` of the old position at that velocity; a numeric depth lies within [0, 70], and a NaN velocity component makes that position component NaN |
| Stages.KeyEntries | src/stages.js:75 | the three entries queued per key event: name, key, event |
| Stages.Stage.constructor | src/stages.js:25-29 | a new stage has no actors and no players |
| Stages.Stage.Enter | src/stages.js:36-71 | exactly three actors join the layer (character at x = 40, cat at (15, 15), plain actor at (60, 50)), exactly one player (the character) joins the players, and the cat follows it |
| Stages.Stage.Broadcast | src/stages.js:73-83 | every player's event list gains the three entries once per listing, in order; no other actor's list changes, and with no players nothing changes |
| Stages.Stage.KeyDown | src/stages.js:73-77 | `keydown` queues `'keydown', e.key, e` on every player |
| Stages.Stage.KeyUp | src/stages.js:79-83 | `keyup` queues `'keyup', e.key, e` on every player |

## Left out

- The `BBQ.DOM.Element` helpers `text`, `id`, `append` and `done` that the console's construction in src/bbq-console.js calls are not defined in src/bbq-base.js; the model assumes they exist and build the elements the console uses.
- Rendering, PIXI and the DOM: sprites, textures, `_updateUvs`, anchors, the renderer (src/bbq-pixi.js), the DOM wrapper of src/bbq-base.js and the console's DOM construction. The console's list is the text of its entries, and its `style.display` is a string.
- The native-console override and the `DOMContentLoaded` listener in src/bbq-console.js: these are host hooks, not console state.
- `BBQ.AnimatedActor`'s clock (`update`, `frameIndex`, `frameTick`, clip `next` switching) and the jump arc `Math.sin` in `Character.update`. That code is not part of this model; `updateAnimFrame` is modelled as the crop arithmetic on a given frame index.
- Floating point: numbers are exact reals or NaN, with no rounding and no infinities. `x / 0` for `x != 0` gives NaN here instead of an infinity; the model never divides a non-zero number by zero when `sqrt` is a square root (`Js.IsSqrt`); with an arbitrary `sqrt` parameter a zero length or distance can meet a non-zero numerator, and the model gives NaN where JS gives an infinity.
- Actors.Distance, Actors.MoveTo: magnitudes that depend on `Math.sqrt` are not stated. Only signs, NaN-ness, zero cases and comparisons through squared distances are.
- BbqState.State.Step: returns the `update` calls instead of running them, since the actor kinds' updates are modelled in their own modules. `Array.prototype.sort` need not be stable; the model's insertion sort is stable, so it is one admissible order.
- The state's single layer: `State.step` iterates `this.children`, which holds only the actors layer, so the model runs `performLayer` on the actors alone.
- BbqState.State.AddActor: PIXI's `addChild` also detaches the actor from a parent container other than this layer; the model has one layer, so only a copy already in it is taken out.
- Signal names are assumed not to collide with `Array.prototype` members or `length`. The source's signal table is an array, so `emitSignal('push')` would call an inherited array method, `bindSignal('length', f)` throws a `RangeError` and `unbindSignal('length')` throws a `TypeError` in strict mode; `BbqState.Dispatch` returns no call for an unbound name, and binding or unbinding any name always succeeds.
- `BbqBase.Assign` models the `for…in` fallback. The native `Object.assign` is a host function; it behaves the same on own enumerable keys.
- Game.app.state.players, which `findNearestPlayer` reads, and `Math.sqrt` are parameters.
- Enemies.Damage, Enemies.UpdateState, Enemies.Update: require a followed actor. The source reads `this.follow.health` unconditionally and fails with a `TypeError` when nothing is followed.
- The `delay` busy-wait and the `console.log` inside `damage`: wall clock and I/O.
- `state.movement.set()` in the pet cat's `updateState` belongs to code that is not part of this model. `state.walking` is the field `walking`, which nothing in the modelled code sets.
- The camera (`this.camera.follow`) and backgrounds in `Stage.enter`, the `preload` asset loaders, the `Game.Stages.town` table, src/states.js and src/game.js: no behaviour to model.
- Stages.Stage: `Game.Stage` extends `BBQ.State`; the model composes a `BbqState.State` with the stage's own player list.
