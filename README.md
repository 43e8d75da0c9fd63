# fps_dinos gameplay bookkeeping in Dafny

This project models the bookkeeping of the browser shooter `game.js` and
proves properties of the model. It covers the timer-gated state machines and
the lists the frame loop keeps up to date:

- the shot cooldown and hit counter (`onMouseClick`, `removeEnemy`);
- the enemy spawn timer with its clamp into the 100 x 100 field (`spawnEnemy`
  and the spawn gate of `updateEnemies`);
- the per-enemy melee timer, player health and `gameOver` (`updateEnemies`,
  `attackPlayer`);
- the slow-effect state machine and its `particleSystems` registry
  (`activateSlowEffect`, `updateSlowEffect`, `addSlowParticles`,
  `removeSlowParticles`);
- the powerup list (`spawnPowerup`, `updatePowerups`);
- the key flags (`onKeyDown`, `onKeyUp`);
- player movement with its clamp (`updatePlayerPosition`);
- the pure decisions: clamp, enemy speed, reload gauge, attack-direction bars.

The script's global variables are the fields of the class
`Simulation.Game`. Its handlers and per-frame updates are methods that change
those fields in place. Each method is specified by functions on values in the
modules `Rules`, `Movement`, `Registry`, `Melee` and `Powerups`, and the
lemmas are proved about those functions. `Game.Valid()` is the invariant every
handler and per-frame update keeps:

- enemies are distinct, and each has its attack-time entry;
- particle entries name spawned enemies;
- every enemy has the slow effect's colour;
- while the effect is on, every enemy has a particle entry;
- the player stays in the field.

The inputs the browser supplies are parameters:

- `now` is `Date.now()`;
- `hits` is the ray cast's list of enemies, nearest first;
- `SpawnDraw` is the random identity and spawn point of a new enemy;
- `sense` gives, per enemy, its distance to the player, the unit vector
  towards the player, and the angle and cross-product `y` that
  `showAttackDirection` computes;
- `distance` gives the player-to-powerup distance;
- `facing` is the player's world direction.

An enemy's identity (`EnemyId`) stands for both its object reference and its
key in `lastAttackTimes`.

Behaviour of the code worth noting:

- The model assumes `init()` runs to completion. As written, game.js:60
  declares `grougnd` and game.js:61 uses `ground`, so `init()` would throw
  there, before the input listeners are registered and before `animate()`
  first runs; only the `setInterval` of game.js:642 would be in place.
- `gameOver` is called on every bite that leaves health at or below 0, not
  only on the first (`Melee.RoundGameOvers`).
- The reload gauge is capped at 1 but not floored at 0 (`Rules.ReloadProgress`).
- Enemies are clamped only when they spawn, not while they pursue.
- `KeyS` sets `moveForward` and `KeyW` sets `moveBackward`. Forward movement
  follows the player's world direction.

## Model

| member | source | states |
|---|---|---|
| Rules.Clamp | game.js:243-244 | the clamped coordinate lies in [-50, 50], equals the input when that is already inside, and is the point of the field nearest to the input |
| Rules.EnemySpeed | game.js:363 | the speed is 0.02 while the slow effect is on and 0.05 (the largest) otherwise; it is below 0.05 exactly when the effect is on |
| Rules.CooldownBoundary | game.js:170 | the cooldown test is strict: a click exactly 500 ms after the last shot passes, one a millisecond earlier does not, and a click that passes is followed only by clicks that pass |
| Rules.ReloadProgress | game.js:453-454 | the gauge never exceeds 1; it is exactly 1 iff the cooldown has elapsed; during the cooldown it is the elapsed fraction of 500 ms; it is non-negative when the last shot is not in the future |
| Rules.AttackBars | game.js:410-422 | exactly one band applies: [bottom] iff angle < pi/4, all four bars iff angle > 3pi/4, otherwise [right] iff cross > 0 and [left] iff not |
| Rules.BottomBarBands | game.js:410-422 | the bottom bar flashes iff the angle is in one of the two extreme bands; a single bar flashes iff the angle is at most 3pi/4 |
| Rules.IntentOf | game.js:464-483 | a key code drives an intent iff it is one of KeyS, KeyW, KeyA, KeyD, KeyQ, KeyE |
| Rules.KeyForInvertsIntentOf | game.js:464-483 | every intent has exactly one key code: the mapping is injective and hits all six flags |
| Movement.Displacement | game.js:515-528 | with no key held the player does not move; without strafes the step lies along the world direction, 0.15 forward, 0.15 back, and 0.15 - 0.0225 with both held because of the in-place rescale |
| Movement.SingleKeyDisplacement | game.js:517-528 | one held movement key moves the player 0.15 along the world direction (S forward, W backward) or along its cross product with up (Q and E strafes) |
| Movement.ForwardAndBackwardDoNotCancel | game.js:517-522 | with both S and W held, the in-place rescale of the direction makes the player drift 0.1275 forward |
| Movement.BothStrafesDoNotCancel | game.js:523-528 | with both strafe keys held, the right strafe crosses the rescaled vector left by the left strafe, so the two do not cancel |
| Movement.Turned | game.js:536-541 | A turns the heading by +0.03, D by -0.03, and both or neither leave it unchanged |
| Registry.Without | game.js:206-209 | after removal no enemy has the id, the list never grows, and every enemy left was in it before |
| Registry.WithoutKeepsOthers | game.js:208 | every enemy with another identity survives the filter |
| Registry.WithoutAbsent | game.js:208 | removing an identity no enemy has leaves the list exactly as it was |
| Registry.WithoutDeletesOne | game.js:206-209 | removing a live enemy from a list without duplicates deletes exactly its slot, and the rest keep their relative order |
| Registry.WithoutKeepsDistinct | game.js:206-209 | removal keeps the enemy list free of duplicates |
| Registry.FirstIndex | game.js:334 | findIndex returns -1 iff the enemy has no entry; otherwise the index of an entry for it with none before |
| Registry.RemoveFirst | game.js:333-339 | the registry shrinks by one exactly when the enemy has an entry, and gains nothing |
| Registry.RemoveFirstIsSplice | game.js:333-339 | removal is a no-op without an entry and otherwise splices out only the first entry, the others keeping their order |
| Registry.RemoveFirstSkips | game.js:333-339 | entries ahead of the enemy's first entry are left in place |
| Registry.NewParticles | game.js:294-297 | an activation appends exactly one entry per enemy |
| Registry.NewParticlesFresh | game.js:294-297 | every enemy gets an entry, no one else does, and each entry has its own fresh particle system, numbered in order |
| Registry.RemoveEach | game.js:303-306 | one removal per enemy only removes entries, and removes at most as many entries as there are enemies |
| Registry.ExpiryRemovesOneActivation | game.js:291-308 | expiry removes exactly the entries one activation appended, whatever was appended after them |
| Registry.DoubleActivationLeavesOneSet | game.js:291-308 | after two activations, expiry leaves the second activation's entries behind, one per enemy |
| Melee.AttackDueBoundary | game.js:375 | once due an enemy stays due as time passes; a stamp opens the gate exactly 1000 ms after it, and a non-zero stamp keeps it shut a millisecond before |
| Melee.Moved | game.js:367-372 | an enemy keeps identity and colour, stays put within attack range, and beyond it takes a step whose length is the speed when the direction is a unit vector |
| Melee.Pursue | game.js:365-373 | enemies keep identity, order and colour; an enemy within attack range does not move, and one beyond it moves by speed along its unit vector towards the player |
| Melee.Attack | game.js:386-398 | a bite lowers health by exactly one, stamps the biter with now and leaves every other stamp and key as it was, keeps the earlier signals and ends with the bite and its bars (the gameOver signal is counted by AttackSignals) |
| Melee.Step | game.js:375-377 | an enemy bites, lowering health by one, exactly when it is in range and due; otherwise nothing changes |
| Melee.Round | game.js:365-384 | a frame's bites never raise health and never drop an attack time |
| Melee.Attackers | game.js:375-376 | an enemy bites iff it is among the enemies, within attack range and due by its timer; with distinct enemies each bites at most once |
| Melee.AttackSignals | game.js:386-391 | a bite adds one gameOver call exactly when it leaves health at or below 0 |
| Melee.RoundGameOvers | game.js:375-391 | a frame's gameOver calls equal the number of bites that leave health at or below 0, every one of them and not only the first |
| Melee.RoundOutcome | game.js:375-391 | with distinct enemies, health drops by exactly the number of biters, the biters' stamps become now, and no other stamp changes or appears |
| Melee.MeleeGate | game.js:375-377 | an enemy that bit at a non-zero time cannot bite again within 1000 ms |
| Melee.StampZeroIsForgotten | game.js:375 | a bite stamped at time 0 reads as never bitten, so it does not gate the next bite |
| Powerups.PickupBoundary | game.js:282 | the pickup test is strict, so a powerup exactly 2 away is not collected, and any powerup closer than a collected one is collected too |
| Powerups.ForEachFrom | game.js:277-288 | the forEach with its in-place splice never makes the list longer |
| Powerups.Sweep | game.js:277-288 | the sweep never makes the list longer, and keeps its length exactly when no powerup is in reach |
| Powerups.SweepKeeps | game.js:277-288 | the sweep only removes powerups, and every powerup out of reach stays |
| Powerups.ForEachFromIsSweep | game.js:277-288 | a forEach that has reached slot k keeps the first k slots and sweeps the rest, a collected powerup letting its successor slide into the visited slot |
| Powerups.ForEachIsSweep | game.js:277-288 | the slot-by-slot forEach with splice is the sweep, where a collected powerup shields the next one from the test |
| Powerups.AdjacentPickupSkipped | game.js:277-288 | of two adjacent powerups both in reach, only the first is collected in the frame |
| Powerups.Uncollected | game.js:283-287 | the intended filter keeps exactly the powerups out of reach: everything it keeps was in the list and out of reach, and every powerup out of reach is kept |
| Powerups.SweepWithoutAdjacentPickups | game.js:277-288 | without two adjacent powerups in reach, the forEach removes exactly the ones in reach |
| Simulation.Spawned | game.js:225-244 | a new enemy has its drawn identity and the slow effect's colour, and stands at the clamped drawn point, which lies in the field and is the drawn point when that is inside |
| Simulation.Retinted | game.js:294-296 | recolouring keeps every enemy's identity, position and order and gives every enemy the new colour |
| Simulation.Game.constructor | game.js:1-36 | the globals start empty or zero, with health 10 and all flags down, and satisfy Valid() |
| Simulation.Game.RemoveEnemy | game.js:206-209 | enemies lose the id and nothing else changes; particle entries and attack times stay behind; Valid() is kept |
| Simulation.Game.OnMouseClick | game.js:168-204 | a click within 500 ms of the last accepted shot changes nothing; otherwise the shot time is now, the gauge is 0, and on a hit the first enemy hit is removed and the counter rises by one, on a miss neither changes |
| Simulation.Game.AddSlowParticles | game.js:310-331 | one entry for the enemy with a fresh particle system is appended |
| Simulation.Game.FindParticles | game.js:334 | the loop returns -1 iff there is no entry for the enemy, otherwise the first entry for it |
| Simulation.Game.RemoveSlowParticles | game.js:333-339 | the registry loses the enemy's first entry, if it has one |
| Simulation.Game.ActivateSlowEffect | game.js:291-298 | the effect is on until now + 5000 (re-activation resets, does not extend), all enemies turn blue and each gets one more entry, in order; Valid() is kept |
| Simulation.Game.MarkAll | game.js:294-297 | the loop colours every enemy blue and appends one entry per enemy, in enemy order |
| Simulation.Game.UpdateSlowEffect | game.js:300-308 | nothing changes unless the effect is on and now has reached its end; then it is off, all enemies are brown and each loses its first entry; Valid() is kept |
| Simulation.Game.UnmarkAll | game.js:303-306 | the loop colours every enemy brown and removes one entry per enemy, in enemy order |
| Simulation.Game.SpawnPowerup | game.js:255-271 | exactly one powerup is appended |
| Simulation.Game.UpdatePowerups | game.js:273-289 | the list becomes the sweep of the old list; the effect is activated once per collected powerup, with one set of entries per activation; with nothing collected nothing changes; Valid() is kept |
| Simulation.Game.VisitPowerup | game.js:277-288 | the callback at slot k collects iff a powerup there is in reach; then it splices out exactly that slot and activates the slow effect, otherwise nothing changes |
| Simulation.Game.AttackPlayer | game.js:386-398 | health drops by one, then a gameOver signal when it is at most 0, then the bite with its bars |
| Simulation.Game.SpawnEnemy | game.js:224-253 | exactly one clamped enemy is appended, with an entry if the effect is on, and its attack time is 0; Valid() is kept |
| Simulation.Game.UpdateEnemies | game.js:353-384 | a spawn happens iff more than 3000 ms have passed (strictly), stamping the spawn time and adding a particle system when the effect is on; every enemy, the new one included, pursues and bites as Pursue and Round state; Valid() is kept |
| Simulation.Game.SpawnIfDue | game.js:357-360 | a spawn happens iff strictly more than 3000 ms have passed; it appends the clamped enemy, sets its attack time to 0 and stamps the spawn time; otherwise nothing changes |
| Simulation.Game.ChaseAndBite | game.js:365-383 | the loop's positions are Pursue and its health, stamps and signals are Round over the enemies in order |
| Simulation.Game.UpdateHud | game.js:453-454 | the gauge is the reload progress of the last shot |
| Simulation.Game.SetKey | game.js:464-483 | exactly the flag of the code's intent takes the new value; other codes change nothing |
| Simulation.Game.OnKeyDown | game.js:463-484 | the pressed key's flag goes up and no other flag changes; unknown keys change nothing |
| Simulation.Game.OnKeyUp | game.js:486-507 | the released key's flag goes down and no other flag changes; unknown keys change nothing |
| Simulation.Game.UpdatePlayerPosition | game.js:509-542 | the player moves by the held keys' displacement, clamped into the field after summing, then turns; Valid() is kept |
| Simulation.Game.Animate | game.js:627-639 | one frame in the source's order keeps Valid(), never raises health, keeps the player in the field and leaves the gauge at the current reload progress |

## Left out

- Rendering is not modelled: the Three.js scene, meshes, materials, lights,
  camera, `addTrees`, `renderer.render`, the minimap and `lookAt`.
- HUD text, audio (`loadSounds`, `loadSound`, `playGunSound`,
  `playBiteSound`) and the attack-bar fade in `flashAttackBars` are I/O. A bite
  is recorded as an event that carries its bars; `gameOver`, which only logs,
  is recorded as an event too.
- Randomness is an input. The identity and spawn point of a new enemy come in
  a `SpawnDraw`. The sin/cos placement, the powerup placement and the
  particle jitter of `updateParticles` are not modelled. Spawning requires an
  identity that has never been used; a collision of random ids is not
  modelled.
- Vector geometry is an input: distances, the direction towards the player,
  `angleTo`, cross products, the ray cast and the miss-point arithmetic.
  `normalize` is modelled only on scaled horizontal unit vectors, the only
  case in `updatePlayerPosition`.
- The ray cast can report objects that are not live enemies. The model
  removes nothing for such a hit but still counts it.
- Host timers are not modelled: `setTimeout`, the 10-second `setInterval`
  that calls `spawnPowerup`, and `requestAnimationFrame`. A frame reads one
  clock value for all its updates, where the source calls `Date.now()`
  separately in each.
- `onMouseMove` (mouse-band rotation and pitch) and the powerups' visual spin
  are not modelled.
- Real numbers stand in for JavaScript doubles, so rounding is not modelled.
  pi/4 and 3pi/4 are left as abstract constants.
- Simulation.Game.Animate: states only the frame's invariants (Valid(),
  health not rising, the player in the field, the reload gauge). It does not
  restate the new powerups, heading, position, spawn time, slow effect,
  enemies, stamps or signals. Those are the composition of the contracts of
  `UpdatePlayerPosition`, `UpdateSlowEffect`, `UpdateEnemies` and
  `UpdatePowerups`, called in that order, and the solver cannot discharge
  them all in one proof within its resource limit.
