# formation-demo-next-advanced, modelled in Dafny

This project models the game logic of a 2D vertical shoot-'em-up that ships in
several near-duplicate versions. Each version decides what exists, where it
moves and when it dies, one tick after another. The project proves what that
logic guarantees.

The model covers:

- **The canvas simulation library (`lib/`).** This includes the spawn cursor
  (`spawnEnemies`), enemy movement, cooldown and fire patterns
  (`updateEnemies`), the player weapon table (`fireFromShip`), bullet movement
  and culling (`updateBullets`), bullet/enemy/ship collisions
  (`handleCollisions`), formation following (`updateFormation`), input
  resolution (`useInput`'s closure) and the sprite-frame arithmetic of
  `drawShipSprite`.
- **The single-file game loop of `app/page.jsx`.** This includes `clamp`,
  `cubicAt`, `spawnFromSpec`, the line and Bezier motion rules, player fire,
  the collision pass and the cull.
- **The Phaser build's pooled entities.** These are `Bullet` and `Enemy`
  (`init`, `kill`, `takeDamage`, the fire timer) and `Player` (hp and the
  invulnerability state machine), plus the other build's `Bullet` and `Enemy`
  (`entities/`).
- **The Phaser build's managers.** These are the collision callbacks and
  cleanup, formation cycling and spawning, level wave expansion, allies,
  template spawning, input and health.
- **The two `legacyToFormation` converters and the feature-flag parser
  (`src/flags.ts`).**

Modelling conventions:

- **Mutable state.** Library code that mutates plain arrays works on a
  `Js.List` (a class holding a `seq`). Phaser objects are classes whose fields
  the methods update. Their state is summarised as a datatype by a
  `State()` function, and every method is tied to a transition function on
  that datatype. Lemmas about the transitions state what the source promises.
- **The engine.** It is abstracted:
  - A pool `get()` is a nullable argument.
  - A timer is a pending entry recorded in the object (its delay, plus
    what runs).
  - `Math.random`, `Phaser.Math.Between`, `performance.now()` and
    `Date.now()` readings are parameters.
  - `Math.sin`/`Math.cos` and the aimed-shot normalisation are parameters
    (`Js.Trig`, `aim`).
- **Numbers.** All arithmetic is on `real`.
- **Missing fields.** An optional field is an `Option`:
  - `??` is `Js.Coalesce`; it replaces only a missing value.
  - `||` on a number is `Js.OrNum`; it also replaces 0.
  - `Js.OrNumVersusCoalesce` states where they differ.

Where the code does something less obvious, the model follows the code:

- **Bezier parameter.** `t` is only clamped above (`Math.min(1, …)`), so an
  age before birth gives `t < 0` (app/page.jsx:100).
- **Tick length.** The tick delta is not clamped anywhere (app/page.jsx:119).
- **Stationary-enemy speed.** `lib/enemyManager.ts` defaults `vy` to 50 with
  `??`, while `app/page.jsx` defaults it to 60 with `||`, so a zero `vy`
  becomes 60 there.
- **Spread volleys.** They push their bullets in source order:
  - the player's spread is (−80, centre, +80);
  - the enemy's spread is (centre, −80, +80), with the centre bullet
    carrying no `vx`.
- **Errors that throw.** The game loop can throw:
  - a Bezier path with an empty `points_norm` throws;
  - the hit branch throws (see Findings); the frame itself (`Page.World.Tick`)
    runs the corrected pass, as "## Left out" says.

## Model

| member | source | states |
|---|---|---|
| Page.Clamp | app/page.jsx:18 | the result lies in `[min, max]` when `min <= max`; it is `n` when `n` is already inside; an inverted range gives `min` |
| Page.CubicAt | app/page.jsx:21-24 | `t = 0` gives `p0` and `t = 1` gives `p3` |
| Page.CubicOfEqualPoints | app/page.jsx:21-24 | the Bernstein weights sum to 1, so four equal points blend to that point for every `t` |
| Page.Materialize | app/page.jsx:63-72 | spawn defaults: type `'scout'` (empty replaced); hp `?? 1`; size 12 for bruiser, else 10; initial position from `x_norm ?? 50`, `y_norm ?? 0` in percent; `vx || 0`; `vy || 60`, never 0; born at now; path kept |
| Page.ZeroSpeedBecomesDefault | app/page.jsx:70 | a spawn asking for `vy = 0` moves at 60 px/s |
| Page.DueEnd | app/page.jsx:62 | the cursor stops at the first entry whose `t_ms` exceeds the elapsed time; every entry it passes is due (inclusive) |
| Page.MaterializeRange | app/page.jsx:62-74 | the enemies of a run of entries, one per entry, in order |
| Page.SpawnDue | app/page.jsx:62-74 | the cursor loop ends at the first entry not due and returns exactly the enemies of the passed entries |
| Page.World.SpawnFromSpec | app/page.jsx:59-75 | `spawnIndex` advances to the first entry not yet due; `enemies` gains exactly the materialised passed entries, in order; nothing else changes; a missing `spawn` array adds nothing |
| Page.Motion | app/page.jsx:77-116 | only `x`/`y` change; motion throws exactly for a Bezier path with an empty point list; no path or a line path moves by `(vx || 0, vy || 70)·dt`; an unknown path kind leaves the enemy unchanged |
| Page.BezierFewPointsStandStill | app/page.jsx:101-105 | with one to three control points the enemy sits on the first point for every `t` |
| Page.BezierEndsOnLastPoint | app/page.jsx:99-105 | once `age >= max(0.0001, dur)` (dur defaulting to 4000 ms) the enemy sits on the fourth control point |
| Page.BezierStartsOnFirstPoint | app/page.jsx:99-105 | at its birth time the enemy sits on the first control point |
| Page.MotionAll | app/page.jsx:137 | the enemy loop completes iff no enemy's motion throws, and then yields each enemy's motion in order |
| Page.World.MoveEnemies | app/page.jsx:137 | it reports completion exactly as `MotionAll` does and then holds the moved enemies; nothing else changes |
| Page.World.MoveBullets | app/page.jsx:140 | every bullet moves by `vy·dt` vertically (`Fly`); nothing else changes |
| Page.World.PlayerStep | app/page.jsx:125-134 | player x is clamped to `[16, w − 16]` after moving by `axis·240·dt`; the cooldown and any shot follow `FireStep`; the shot is one bullet at `(x, y − 10)` with vy −360 |
| Page.FireStep | app/page.jsx:130-134 | the cooldown becomes `max(0, cd − dt)` and is never negative; a shot happens iff fire is held and that is exactly 0; a shot sets 0.15 |
| Page.NoShotWithinCooldown | app/page.jsx:130-134 | with the key held throughout, no shot fires in ticks whose total time is below the remaining cooldown |
| Page.FirstHitThrows | app/page.jsx:149 | a 1-hp scout and a bullet at the same point make the pass as written throw |
| Page.AsWrittenCompletesOnlyWithoutHits | app/page.jsx:143-152 | whenever the pass as written completes (no hit at all), it has changed nothing and agrees with the corrected pass |
| Page.HitAsWrittenCompletes | app/page.jsx:144-151 | whenever the inner loop as written completes (no hit on a live enemy), it has changed nothing and agrees with the corrected loop |
| Page.HitAsWritten | app/page.jsx:144-151 | the inner loop as written completes iff no bullet from the start index overlaps the enemy while its hp is non-zero, and then changes nothing; any such overlap throws |
| Page.CollideAsWritten | app/page.jsx:143-152 | the pass as written completes iff no enemy with non-zero hp overlaps any bullet, and then changes nothing |
| Page.HitSkipsAtZero | app/page.jsx:145 | an enemy at exactly 0 hp changes nothing in its inner loop |
| Page.HitMarksAt | app/page.jsx:144-151 | a bullet overlapping the enemy ends dead unless the enemy has come down to exactly 0 hp; a bullet that does not overlap is never newly marked |
| Page.HitMarks | app/page.jsx:144-151 | `HitMarksAt` for every bullet from the start index |
| Page.HitFrom | app/page.jsx:144-151 | corrected inner loop: only hp changes on the enemy and never rises; only `dead` changes on bullets, a dead bullet stays dead; bullets before the start index are untouched; how much hp is lost is `Page.HitHp` |
| Page.CollideFrom | app/page.jsx:143-152 | corrected pass: both lists keep their length; enemies only lose hp (exactly how much is `Page.CollideHp`); bullets only gain `dead` |
| Page.Overlaps | app/page.jsx:146-148 | the number of bullets from an index on that overlap the enemy, at most the number of bullets there |
| Page.OverlapsIgnoresHp | app/page.jsx:146-148 | the overlap count does not depend on the enemy's hp |
| Page.OverlapsIgnoresDead | app/page.jsx:146-148 | the overlap count does not depend on the bullets' `dead` marks |
| Page.HitHp | app/page.jsx:144-151 | each overlapping bullet costs the enemy 1 hp: whole non-negative hp `m` ends at `max(0, m − n)` for `n` overlapping bullets (the `!e.hp` skip at 0), any other hp at `hp − n` |
| Page.CollideKeepsDone | app/page.jsx:143-152 | the pass from enemy `i` on leaves the enemies before `i` unchanged |
| Page.CollideHp | app/page.jsx:143-152 | after the whole pass every enemy has lost hp as in `Page.HitHp`, for the bullets that overlap it among those the pass started with, so a 1-hp enemy under a bullet ends at 0 in the same frame |
| Page.WholeHpStaysNonNegative | app/page.jsx:145-149 | an enemy with a whole non-negative hp ends the inner loop with a whole non-negative hp, because `!e.hp` skips it at 0 |
| Page.World.HitEnemy | app/page.jsx:144-151 | the inner loop on enemy `i` writes exactly `HitFrom`'s enemy and bullets |
| Page.World.Collide | app/page.jsx:143-152 | the corrected collision pass leaves exactly `CollideFrom`'s lists |
| Page.World.Cull | app/page.jsx:155-162 | the backward splice loops keep exactly the enemies with `hp > 0`, `y <= h + 20` and `−40 <= x <= w + 40`, and the bullets not dead with `y >= −20`, in order |
| Page.World.Update | app/page.jsx:118-152 | the frame up to the cull: `lastTime` is now; the cursor advances as `DueEnd` says and the due enemies are appended; the cooldown and shot follow `FireStep`; the frame completes iff no motion throws, and then the lists are exactly the corrected collision pass over the moved enemies and the flown bullets; on a throw the bullets are the old ones plus the shot |
| Page.World.Tick | app/page.jsx:118-162 | one frame: all of `Update`'s facts, and after a completed frame the enemies and bullets are exactly the cull of the collision pass's lists; every one left satisfies the cull predicates; the player stays in `[16, w − 16]` |
| Page.World.Begin | app/page.jsx:212 | the first frame sets the clock to its own time first, so it runs `Tick`'s rules with `dt = 0` |
| Page.StillFrame | app/page.jsx:118-141 | with `dt = 0` bullets stay put and a cooldown changes only when it is 0 and fire is held |
| Page.World.Resize | app/page.jsx:41-49 | `w` and `h` become the canvas's new client size; nothing else changes |
| Page.CullLeavesKept | app/page.jsx:155-162 | every enemy and bullet the cull leaves satisfies its cull predicate |
| Page.World.constructor | app/page.jsx:51-57 | an empty world with the player at `(w/2, h − 40)`, cooldown 0, cursor 0 and the clock at the start time; the first frame is `Page.World.Begin` |
| Js.OrNumVersusCoalesce | app/page.jsx:69-70 | `||` and `??` defaults differ exactly on a present 0 with a non-zero default (compare lib/enemyManager.ts:21-22) |
| Js.JsRem | lib/render.ts:33-34 | JavaScript's `%`: the remainder has the dividend's sign and lies strictly inside the divisor's magnitude |
| EnemyManager.Materialize | lib/enemyManager.ts:17-24 | spawn defaults `x = (x_norm ?? 50)/100·cw`, `y = (y_norm ?? 0)/100·ch`, `vx ?? 0`, `vy ?? 50`, `hp ?? 1`, no cooldown |
| EnemyManager.DueEnd | lib/enemyManager.ts:13-16 | the cursor stops at the first entry with `t_ms > tElapsed`; every passed entry has `t_ms <= tElapsed` |
| EnemyManager.MaterializeRange | lib/enemyManager.ts:17-25 | one enemy per passed entry, in order |
| EnemyManager.SpawnEnemies | lib/enemyManager.ts:3-28 | with no spec or no `spawn` array the cursor and list are unchanged; otherwise the result is `DueEnd` and `enemies` gains exactly the materialised passed entries at its end, so the index gain equals the number appended |
| EnemyManager.DueEndMonotonic | lib/enemyManager.ts:13-16 | a later time never moves the cursor less far |
| EnemyManager.SortedCursorCountsDue | lib/enemyManager.ts:13-16 | for entries sorted by time, an entry is spawned iff its `t_ms <= tElapsed` |
| EnemyManager.DueEntryBehindLaterOneWaits | lib/enemyManager.ts:13-16 | the loop stops at the first entry not due, so a due entry behind it waits |
| EnemyManager.FirstNearest | lib/enemyManager.ts:50-55 | the target is the first formation ship at least Manhattan distance |
| EnemyManager.FirstNearestUnique | lib/enemyManager.ts:50-55 | only one index can be the first nearest |
| EnemyManager.NearestShip | lib/enemyManager.ts:50-55 | the strict `<` scan returns the first nearest ship |
| EnemyManager.EnemyStepFacts | lib/enemyManager.ts:37-64 | each enemy moves by `(vx·dt, vy·dt)`; velocity and hp are kept; its cooldown is `max(0, cd − dt)` and never negative; it fires iff that is exactly 0; every shot is enemy-owned, starts at `(x, y + 10)` and has no hp |
| EnemyManager.EnemyStep | lib/enemyManager.ts:37-64 | the enemy moves by `(vx·dt, vy·dt)` with everything but its cooldown kept; it fires iff the ticked cooldown is exactly 0, and at most three shots |
| EnemyManager.FirePatterns | lib/enemyManager.ts:43-64 | at cooldown 0: `hp > 2` gives three bullets (none, −80, +80) with vy 200 and cooldown 1.2; else a draw < 0.3 with ships gives one aimed bullet at the first nearest ship and cooldown 2.0; else one bullet with vy 250 and cooldown 1.0 |
| EnemyManager.TickEnemy | lib/enemyManager.ts:37-64 | one iteration of the enemy loop computes exactly `EnemyStep` |
| EnemyManager.Steps | lib/enemyManager.ts:36-66 | one step per enemy, enemy `i` taking draw `random(i)` |
| EnemyManager.StepAll | lib/enemyManager.ts:36-66 | the pass keeps the number of enemies |
| EnemyManager.ShotsAreEnemyOwned | lib/enemyManager.ts:45-62 | every bullet a pass appends is owned by `'enemy'` |
| EnemyManager.UpdateEnemies | lib/enemyManager.ts:30-67 | the enemies become `StepAll` and the bullets gain exactly the shots of each enemy in order at the end; existing bullets are untouched |
| WeaponManager.Reload | lib/weaponManager.ts:15-37 | every weapon's reload time is positive |
| WeaponManager.ShipVolley | lib/weaponManager.ts:11-37 | an undefined cooldown counts as 0; the cooldown is `max(0, cd − dt)`, never negative; no bullet while that is positive; a volley sets the weapon's reload; every bullet is player-owned, flies upward and has no hp |
| WeaponManager.WeaponTable | lib/weaponManager.ts:15-37 | spread: three bullets (−80, none, +80) at `y − 20`, vy −300; laser: one at `y − 30`, vy −600; wide: two at `x ∓ 10`, vy −350; basic or unknown: one at `y − 20`, vy −400 |
| WeaponManager.FireFromShip | lib/weaponManager.ts:5-39 | only ship `k`'s cooldown is written; bullets are only pushed at the end |
| WeaponManager.NoVolleyWhileReloading | lib/weaponManager.ts:11-13 | over ticks shorter in total than the remaining cooldown `c` no volley is fired, and the cooldown is then `c` minus their total |
| WeaponManager.ReloadAfterVolley | lib/weaponManager.ts:11-37 | after a volley the next one waits at least the weapon's reload time |
| LibTypes.CooldownTick | lib/enemyManager.ts:40-41 | `if (!cd) cd = 0; cd = max(0, cd − dt)`: never negative; a falsy cooldown counts as 0 (same rule at lib/weaponManager.ts:11-12) |
| LibTypes.ElapseClosedForm | lib/weaponManager.ts:11-12 | ticks without firing leave the cooldown at `max(0, cd − Σdt)` |
| LibTypes.ReloadTime | lib/weaponManager.ts:11-13 | the cooldown stays positive exactly while the elapsed total is below it |
| BulletManager.Advance | lib/bulletManager.ts:4-7 | a bullet moves by `((vx ?? 0)·dt, vy·dt)`, nothing else changes |
| BulletManager.AdvanceAll | lib/bulletManager.ts:4-7 | every bullet is advanced, in order |
| BulletManager.MoveAll | lib/bulletManager.ts:4-7 | the movement loop leaves exactly the advanced bullets |
| BulletManager.CullAll | lib/bulletManager.ts:8-10 | the backward splice loop keeps exactly the bullets with `−20 <= y <= ch + 20`, in order |
| BulletManager.UpdateBullets | lib/bulletManager.ts:3-11 | the result is the advanced bullets, filtered by the vertical bounds |
| BulletManager.CullExactly | lib/bulletManager.ts:8-10 | a moved bullet survives exactly when within the bounds (boundaries kept), with its multiplicity; nothing is added |
| BulletManager.CullKeepsOrder | lib/bulletManager.ts:8-10 | survivors keep their relative order |
| BulletManager.CullIgnoresX | lib/bulletManager.ts:9 | horizontal position never decides removal: lists differing only in `x` keep the same bullets at the same positions, up to `x` |
| Collision.DuelFrom | lib/collision.ts:7-16 | one enemy's inner loop: only hp changes; a kill happens at a striking player bullet, leaves hp <= 0 and consumes a bullet; a hit without kill leaves hp > 0; without a hit nothing changes |
| Collision.DuelOutcome | lib/collision.ts:7-16 | the bullets left are those below the killing index, then the non-striking ones visited, then the rest; the hp lost is the sum of `b.hp ?? 1` over the striking bullets visited |
| Collision.MissedClean | lib/collision.ts:10-13 | no bullet that strikes the enemy survives its visit |
| Collision.UnitDamageCounts | lib/collision.ts:12 | with `b.hp` missing the damage is the number of striking bullets |
| Collision.NoStrikeNoDamage | lib/collision.ts:11-12 | bullets that do not strike deal nothing |
| Collision.DuelSpends | lib/collision.ts:13 | the bullets left are a sub-multiset of the bullets before: none made up, none removed twice |
| Collision.DuelClears | lib/collision.ts:7-16 | an enemy that survives its loop has no striking bullet left |
| Collision.DuelEnemy | lib/collision.ts:7-16 | on each hit the enemy's hp drops in place and the bullet is spliced; a kill splices the enemy |
| Collision.Pass1From | lib/collision.ts:5-17 | both lists only shrink, and each enemy removed costs at least one bullet |
| Collision.Pass1Survivors | lib/collision.ts:5-17 | the enemies left are a subsequence of the enemies before, each changed at most in hp |
| Collision.Pass1Spends | lib/collision.ts:13 | the bullets left are a sub-multiset of the bullets before |
| Collision.Pass1LeavesNoOverlap | lib/collision.ts:5-17 | after pass 1 no surviving enemy is struck by a surviving bullet |
| Collision.PlayerBulletsVsEnemies | lib/collision.ts:5-17 | the nested backward loops leave exactly pass 1's lists |
| Collision.NearAnyShip | lib/collision.ts:23-29 | the ship loop finds a hit iff some ship is within `dx² + dy² < 256` |
| Collision.EnemyBulletsVsShips | lib/collision.ts:20-30 | exactly the enemy bullets near some ship are removed, each once, in order; ships are not touched |
| Collision.HandleCollisions | lib/collision.ts:3-31 | the enemies are pass 1's; the bullets are pass 1's filtered by pass 2 |
| Collision.DuelKeepsEnemyBullets | lib/collision.ts:9 | one enemy's loop removes no enemy-owned bullet |
| Collision.Pass1KeepsEnemyBullets | lib/collision.ts:5-17 | pass 1 removes only player bullets |
| Collision.DuelUnitDamage | lib/collision.ts:12-13 | with `b.hp` missing each removed bullet costs exactly 1 hp (the general `b.hp ?? 1` sum is `DuelOutcome`) |
| Collision.DuelWithoutPlayerBullets | lib/collision.ts:9 | without a player bullet the inner loop changes nothing |
| Collision.Pass1WithoutPlayerBullets | lib/collision.ts:9 | without player bullets pass 1 leaves both lists as they were |
| Collision.Pass2KeepsPlayerBullets | lib/collision.ts:22 | pass 2 removes only enemy bullets |
| Collision.KillStopsTheLoop | lib/collision.ts:14 | a kill ends the loop at the first bullet that takes hp to 0 or below: the bullets below it are untouched, and before it the enemy was unstruck or above 0 hp |
| FormationManager.Follow | lib/formationManager.ts:11-27 | only `x`/`y` change: trail ship `i` takes `trailHistory[(i+1)·10]` if present, else the leader; static and line sit at leader + offset (missing = 0); any other behaviour except orbit keeps its position |
| FormationManager.FollowAll | lib/formationManager.ts:9-28 | the formation keeps its length, each ship following in place |
| FormationManager.UpdateFormation | lib/formationManager.ts:3-29 | the loop writes exactly the followed ships; an empty formation is unchanged |
| FormationManager.FollowIdempotent | lib/formationManager.ts:10-28 | updating twice with the same leader and history equals updating once |
| FormationManager.TrailWithoutHistory | lib/formationManager.ts:14-19 | with an empty trail history a trail ship sits on the leader |
| InputManager.Axis | lib/inputManager.ts:23-24 | the button axis is −1, 0 or 1, and 0 exactly when both or neither are held |
| InputManager.ReadInput | lib/inputManager.ts:18-48 | move is in {−1, 0, 1}; a touch more than 5 px away gives the sign of the difference; otherwise buttons, then keyboard (only without touch support, only when move is 0); fire is the OR of the button, touch firing and keyboard keys |
| Render.FrameIndex | lib/render.ts:30-33 | for `now >= 0`, a positive duration (default 120 when missing) and frames > 0 the index lies in `[0, frames)` |
| Render.RowMajor | lib/render.ts:34-35 | `col` lies in `[0, cols)`, `row >= 0` and `frameIndex = row·cols + col` |
| Render.Rects | lib/render.ts:33-47 | the source rectangle has the frame size and its corner is `(col·fw, row·fh)` of the current frame; for `now >= 0` and positive sizes that is a cell of the sheet, with `col` in `[0, cols)`, `row >= 0` and the frame index `row·cols + col`; the destination has the frame size and is centred on `(x, y)` |
| Render.FramePeriodic | lib/render.ts:33 | the animation repeats after `frames·duration` ms |
| Render.NegativeNowGivesNegativeFrame | lib/render.ts:33 | JavaScript's `%` makes a negative `now` give a negative frame index |
| PhaserBullet.Bullet.constructor | phaser/entities/Bullet.ts:8-12 | a new bullet has damage 1 and owner `'player'` |
| PhaserBullet.Bullet.Init | phaser/entities/Bullet.ts:15-31 | position, velocity, texture and owner are set; active and visible; damage reset to 1 |
| PhaserBullet.Bullet.Kill | phaser/entities/Bullet.ts:34-39 | inactive, invisible, stopped and body-disabled |
| PhaserBullet.KillIdempotent | phaser/entities/Bullet.ts:34-39 | killing twice equals killing once |
| PhaserBullet.KilledIsInert | phaser/entities/Bullet.ts:34-39 | after `kill` nothing is live, whatever the state before; owner and damage kept |
| PhaserBullet.InitForgetsThePast | phaser/entities/Bullet.ts:22-30 | `init` erases all prior state except the body flag, which it does not re-enable; damage is 1 whatever the arguments |
| PhaserEnemy.EnemyIds.constructor | phaser/entities/Enemy.ts:5 | the id counter starts at 1 |
| PhaserEnemy.Enemy.constructor | phaser/entities/Enemy.ts:12-25 | a new enemy takes the next id (the counter grows by one), hp 1, size 40, inactive and hidden |
| PhaserEnemy.Enemy.Init | phaser/entities/Enemy.ts:28-49 | id, hp, position, velocity and size are set; active, visible and body-enabled |
| PhaserEnemy.Enemy.SetVelocity | phaser/entities/Enemy.ts:41 | only the velocity changes |
| PhaserEnemy.Enemy.StartFiring | phaser/entities/Enemy.ts:52-68 | any earlier timer is removed and one looping timer with the drawn delay in `[800, 1600]` is left |
| PhaserEnemy.Enemy.StopFiring | phaser/entities/Enemy.ts:70-75 | the timer is removed |
| PhaserEnemy.Enemy.Kill | phaser/entities/Enemy.ts:88-94 | firing stops; inactive, hidden, stopped and body-disabled |
| PhaserEnemy.Enemy.TakeDamage | phaser/entities/Enemy.ts:78-85 | hp drops by the amount with no clamp; it returns true and kills exactly when the new hp is <= 0 |
| PhaserEnemy.Enemy.FireTick | phaser/entities/Enemy.ts:58-66 | nothing when inactive or on a pool miss; else the bullet is inited at `(x, y + 20)` with velocity `(0, 200)` and owner `'enemy'` |
| PhaserEnemy.Damaged | phaser/entities/Enemy.ts:78-85 | hp drops by the amount with no clamp, id and position are kept, and the enemy stays active iff it was and the new hp is above 0 |
| PhaserEnemy.DamageKillsAtZero | phaser/entities/Enemy.ts:78-85 | hp becomes `hp − a`; at or below 0 the result is the killed enemy, otherwise only hp changes |
| PhaserEnemy.DamageAdds | phaser/entities/Enemy.ts:79 | two hits that leave the enemy alive equal one hit of their sum |
| PhaserEnemy.StopAndKillIdempotent | phaser/entities/Enemy.ts:70-94 | `stopFiring` and `kill` are idempotent; a killed enemy has no timer and is inert |
| PhaserEnemy.StartFiringReplaces | phaser/entities/Enemy.ts:53-56 | starting twice leaves only the second timer; stopping after starting equals stopping |
| PhaserPlayer.Player.constructor | phaser/entities/Player.ts:14-33 | the player starts with `hp = maxHp = 10`, not invulnerable, nothing pending |
| PhaserPlayer.Player.SetVelocity | phaser/systems/InputManager.ts:31 | only the velocity changes |
| PhaserPlayer.Player.Fire | phaser/entities/Player.ts:35-39 | nothing on a pool miss; else one bullet at `(x, y − 20)` with velocity `(0, −400)` and owner `'player'` |
| PhaserPlayer.Player.TakeDamage | phaser/entities/Player.ts:41-52 | the state becomes `Hit`: ignored while invulnerable; otherwise hp drops by `max(1, floor(a))`, clamped at 0, invulnerability with one expiry at 1000 ms, and a game-over at 0 hp |
| PhaserPlayer.Player.SetInvulnerable | phaser/entities/Player.ts:54-75 | the flag is set and exactly one expiry after `ms` replaces any earlier one |
| PhaserPlayer.Player.ExpireInvulnerability | phaser/entities/Player.ts:70-73 | expiry clears the flag and leaves nothing pending |
| PhaserPlayer.Player.Die | phaser/entities/Player.ts:102-109 | one `game-over` event is scheduled 600 ms later |
| PhaserPlayer.Hit | phaser/entities/Player.ts:41-52 | an invulnerable player is unchanged; otherwise the player becomes invulnerable with a 1000 ms expiry, maxHp is kept, hp stays >= 0, falls from 1 up, and is 0 iff the cost reached it; a game-over after 600 ms is added exactly when an accepted hit leaves 0 hp |
| PhaserPlayer.HitCostAtLeastOne | phaser/entities/Player.ts:44 | an accepted hit costs at least 1 point; from 1 up it costs `floor(a)` |
| PhaserPlayer.GoodIsKept | phaser/entities/Player.ts:41-73 | `0 <= hp <= maxHp` is preserved by hits and by expiry |
| PhaserPlayer.HitEffect | phaser/entities/Player.ts:41-52 | hp never increases; invulnerable hits change nothing; an accepted hit makes the player invulnerable with a 1000 ms expiry and removes its cost or drops hp to 0 |
| PhaserPlayer.GameOverOnDeath | phaser/entities/Player.ts:49-51 | exactly an accepted hit that leaves hp at 0 schedules one `game-over` after 600 ms |
| PhaserPlayer.SecondHitIgnored | phaser/entities/Player.ts:42 | a second hit right after the first changes nothing |
| EntityBullet.Bullet.constructor | entities/Bullet.ts:8-17 | a new bullet is inactive, invisible, body-disabled, owner `'player'`, damage 1 |
| EntityBullet.Bullet.Init | entities/Bullet.ts:22-45 | owner and damage default to `'player'` and 1; the body is reset to `(x, y)` and enabled; active and visible |
| EntityBullet.Bullet.Kill | entities/Bullet.ts:50-64 | the state becomes `Killed` for whichever branch the body flag selects |
| EntityBullet.KilledIsInert | entities/Bullet.ts:50-63 | both branches end inactive, invisible and body-disabled; owner, damage and position kept |
| EntityBullet.KillIdempotent | entities/Bullet.ts:60-63 | killing a killed bullet changes nothing |
| EntityBullet.InitRevivesKilled | entities/Bullet.ts:37-44 | `init` after `kill` gives a fully live bullet, the same as `init` without the kill |
| EntityEnemy.ShootingProfile | entities/Enemy.ts:73-82 | bruiser: spread, 2000 ms, 120; scout: straight, 1500 ms, 180; any other: random, 2500 ms, 150 |
| EntityEnemy.Enemy.constructor | entities/Enemy.ts:4-12 | a new enemy has hp 1, type `'scout'` and no timer |
| EntityEnemy.Enemy.Init | entities/Enemy.ts:15-21 | position, velocity, size and hp are set; type defaults to `'scout'` |
| EntityEnemy.Enemy.StartFiring | entities/Enemy.ts:29-40 | any earlier timer is removed; one looping timer at the profile's rate replaces it |
| EntityEnemy.Enemy.Fire | entities/Enemy.ts:42-61 | nothing when inactive; else the pattern's bullets are appended, in order |
| EntityEnemy.Enemy.SpawnBullet | entities/Enemy.ts:63-71 | a pool miss skips this bullet only; else one bullet heading `π/2 + offset` at the given speed |
| EntityEnemy.ShotsHeadDown | entities/Enemy.ts:63-71 | every bullet leaves from the enemy at the pattern's speed, heading down plus one of the offsets; no more bullets than offsets |
| EntityEnemy.ShotsWithoutMisses | entities/Enemy.ts:45-60 | without pool misses every offset yields exactly one bullet, in order |
| EntityEnemy.PatternSizes | entities/Enemy.ts:45-60 | straight 1; spread 3 (−0.2, 0, 0.2); burst 5 (−0.30 to 0.30 by 0.15); random 1 iff the draw is < 0.5; unknown none |
| PhaserCollision.CollisionManager.constructor | phaser/systems/CollisionManager.ts:18-38 | score 0, no events |
| PhaserCollision.CollisionManager.BulletHitsEnemyAsWritten | phaser/systems/CollisionManager.ts:48-63 | the callback as written: `receiveDamage` is missing, so `killed` is false; behaves as `ContactAsWritten` |
| PhaserCollision.ContactAsWritten | phaser/systems/CollisionManager.ts:48-63 | as written the enemy, score and events never change; a counted contact kills the bullet and an uncounted one changes nothing |
| PhaserCollision.ContactCorrected | phaser/systems/CollisionManager.ts:48-63 | an uncounted contact changes nothing; a counted one kills the bullet and takes its damage off the enemy; the score grows by 100 iff the contact counts and kills, and otherwise stays |
| PhaserCollision.AsWrittenNeverScores | phaser/systems/CollisionManager.ts:54-62 | as written: score, enemy and events never change; a counted contact only kills the bullet |
| PhaserCollision.ReceiveDamageNeverLands | phaser/systems/CollisionManager.ts:54 | a 1-hp enemy hit by a 1-damage bullet is not damaged and scores nothing as written, but dies and scores 100 when corrected |
| PhaserCollision.CollisionManager.BulletHitsEnemy | phaser/systems/CollisionManager.ts:48-63 | the corrected callback damages through `takeDamage`; behaves as `ContactCorrected` |
| PhaserCollision.BulletAlwaysSpent | phaser/systems/CollisionManager.ts:51-57 | inactive objects or an enemy-owned bullet leave everything unchanged; otherwise the bullet is always killed |
| PhaserCollision.ScoreSteps | phaser/systems/CollisionManager.ts:59-62 | the score grows by exactly 100 iff the contact counts and the damage kills; it stays a non-negative multiple of 100 |
| PhaserCollision.CollisionManager.EnemyBulletHitsPlayer | phaser/systems/CollisionManager.ts:73-79 | an inactive bullet is ignored; else it is killed and one `onPlayerHit('bullet')` is raised |
| PhaserCollision.CollisionManager.PlayerTouchesEnemy | phaser/systems/CollisionManager.ts:89-93 | a live enemy raises one `onPlayerHit('enemy')` and is not removed; score unchanged |
| PhaserCollision.CollisionManager.CleanPlayerBullets | phaser/systems/CollisionManager.ts:102-108 | each player bullet becomes `CleanPlayerBullet` of its old state |
| PhaserCollision.CollisionManager.CleanEnemyBullets | phaser/systems/CollisionManager.ts:110-118 | each enemy bullet becomes `CleanEnemyBullet` of its old state |
| PhaserCollision.CollisionManager.CleanEnemies | phaser/systems/CollisionManager.ts:120-126 | each enemy becomes `CleanEnemy` of its old state |
| PhaserCollision.CollisionManager.PerformCleanup | phaser/systems/CollisionManager.ts:99-127 | all three groups are cleaned by their rules |
| PhaserCollision.CleanupSparesInactive | phaser/systems/CollisionManager.ts:102-126 | inactive objects are never touched; kept ones are unchanged; player bullets die beyond `[−40, h + 40]`, enemy bullets only below `h + 40`, enemies only below `h + 120` |
| PhaserCollision.CollisionManager.GetScore | phaser/systems/CollisionManager.ts:129-131 | returns the score |
| PhaserFormation.Schedule | phaser/systems/FormationManager.ts:136-147 | one timer per spawn, delay `max(0, t ?? 0)`, in order |
| PhaserFormation.ScheduleDelaysNonNegative | phaser/systems/FormationManager.ts:139 | no timer has a negative delay; a non-negative `t` is kept |
| PhaserFormation.FormationManager.constructor | phaser/systems/FormationManager.ts:29-42 | index 0, no timers or tweens, the preloaded formations |
| PhaserFormation.FormationManager.ClearActive | phaser/systems/FormationManager.ts:167-185 | timer and tween lists are empty; every active enemy has stopped firing and is killed |
| PhaserFormation.ClearedIsQuiet | phaser/systems/FormationManager.ts:176-184 | after clearing no member is active, a formerly active one has no timer, inactive ones are untouched, and clearing is idempotent |
| PhaserFormation.FormationManager.SpawnFormationImmediate | phaser/systems/FormationManager.ts:89-131 | without an array or a `ships` array nothing changes; otherwise each ship the pool serves is spawned and orbit formations gain one tween per served ship |
| PhaserFormation.FormationManager.SpawnShips | phaser/systems/FormationManager.ts:98-130 | each served ship becomes `Spawned`; a miss skips that ship |
| PhaserFormation.FormationManager.SpawnSlot | phaser/systems/FormationManager.ts:101-102 | a null pool result changes nothing |
| PhaserFormation.FormationManager.SpawnShip | phaser/systems/FormationManager.ts:99-129 | the served enemy becomes `Spawned` |
| PhaserFormation.SpawnDefaults | phaser/systems/FormationManager.ts:99-129 | a ship with no fields spawns at `(50%, 10%)` with size 40 and hp 1; follow ends at `(0, 40)`, line at `(0, 60)`, static or unknown at `(0, 0)` |
| PhaserFormation.PositionPrecedence | phaser/systems/FormationManager.ts:99-100 | `x_norm` wins over `x`, which wins over 50 (and `y_norm`, `y`, 10) |
| PhaserFormation.OrbitTweensCount | phaser/systems/FormationManager.ts:110-122 | one orbit tween per served ship and no more |
| PhaserFormation.FormationManager.CycleNext | phaser/systems/FormationManager.ts:80-86 | no-op on an empty list; else `index := (index + 1) mod len`, no timers are left, group members not picked are cleared, picked ones are spawned from `formations[index]` (all cleared if it has no ships), and the only tweens left are one orbit tween per served ship of an orbit formation |
| PhaserFormation.CycleStaysInRange | phaser/systems/FormationManager.ts:84 | the index stays in `[0, len)` and wraps to 0 at the end |
| PhaserFormation.FormationManager.SpawnFormation | phaser/systems/FormationManager.ts:134-150 | with a `spawns` array it clears the group and leaves exactly `Schedule(spawns)` as timers and no tweens; otherwise timers are kept, served picks are spawned, one orbit tween per served ship is appended for an orbit formation, and group members that were not picked are unchanged |
| PhaserFormation.FormationManager.ScheduleSpawns | phaser/systems/FormationManager.ts:138-146 | the loop appends exactly `Schedule(spawns)` |
| PhaserFormation.FormationManager.SpawnSpec | phaser/systems/FormationManager.ts:153-164 | a served enemy becomes `SpecSpawned`; nothing on a pool miss |
| PhaserFormation.SpecDefaults | phaser/systems/FormationManager.ts:155-160 | a numeric x and y are kept; otherwise x is the drawn column in `[32, w − 32]` and y is −40; vy 120, size 48, hp 1 |
| PhaserLevel.LevelManager.constructor | phaser/systems/LevelManager.ts:17-26 | no level data, no timers |
| PhaserLevel.LevelManager.ScheduleWaves | phaser/systems/LevelManager.ts:43-70 | without level data nothing changes; otherwise the old timers are removed and exactly `Expand(waves)` remain |
| PhaserLevel.ExpandCount | phaser/systems/LevelManager.ts:50-54 | the number of timers is the sum of `repeat ?? 1`; a repeat <= 0 adds none |
| PhaserLevel.WaveDelaysOrdered | phaser/systems/LevelManager.ts:51-55 | timer `i` has delay `start + i·(interval ?? 0)`; delays are non-decreasing when the interval is >= 0 |
| PhaserLevel.ExpandFiles | phaser/systems/LevelManager.ts:57-65 | every timer loads the formation file of one of the waves |
| PhaserLevel.SingleByDefault | phaser/systems/LevelManager.ts:51 | a wave without `repeat` gets one timer at its start time |
| PhaserAllies.AllyManager.constructor | phaser/systems/AllyManager.ts:14-19 | no allies |
| PhaserAllies.AllyManager.ApplyFormation | phaser/systems/AllyManager.ts:21-38 | all earlier allies are destroyed; exactly one ally per ship, in order, with offset `((x_norm − 50)/100·width, (y_norm − 50)/100·height)` for the scene size at the call, and behaviour `?? 'follow'` |
| PhaserAllies.AllyManager.Update | phaser/systems/AllyManager.ts:40-45 | every ally is moved to player + offset, in place |
| PhaserAllies.FollowKeepsOffsets | phaser/systems/AllyManager.ts:41-44 | following keeps offset and behaviour, leaves the ally at player + offset, and is idempotent |
| PhaserAllies.CentreShipOnPlayer | phaser/systems/AllyManager.ts:30-35 | a ship at (50, 50) sits on the player; the behaviour defaults to `'follow'` |
| TemplateSpawning.TemplateSpawner.SpawnFromTemplates | phaser/systems/TemplateSpawner.ts:10-21 | the group gains exactly the planned spawns at `(opts.x ?? 0.8·width, opts.y ?? 0.3·height)`, one id each |
| TemplateSpawning.TemplateSpawner.SpawnOne | phaser/systems/TemplateSpawner.ts:12-17 | one new enemy with hp `?? 10` and x-velocity `−(speed ?? 80)` |
| TemplateSpawning.Spawns | phaser/systems/TemplateSpawner.ts:12-17 | one record per template, in order, with ids counting up |
| TemplateSpawning.PlanOrder | phaser/systems/TemplateSpawner.ts:18-20 | the order is stinger, drone, boss; absent templates are skipped |
| TemplateSpawning.BossIsTough | phaser/systems/TemplateSpawner.ts:20 | the boss has `max(150, hp ?? 150)`, so at least 150, and speed 40 by default |
| TemplateSpawning.TemplateDefaults | phaser/systems/TemplateSpawner.ts:14-15 | a bare template spawns with 10 hp and x-velocity −80 |
| TemplateSpawning.TemplateSpawner.constructor | phaser/systems/TemplateSpawner.ts:5-8 | an empty group |
| PhaserInput.Axis | phaser/systems/InputManager.ts:24-29 | the axis is in {−1, 0, 1}, 0 exactly when both or neither key is down |
| PhaserInput.InputManager.Update | phaser/systems/InputManager.ts:20-41 | velocity `axis·280` on each axis; the cooldown falls by `delta/1000` unclamped; it fires exactly when space or pointer is down and the cooldown is <= 0, then the cooldown is 0.15 and one `player.fire` happens |
| PhaserInput.OppositeKeysCancel | phaser/systems/InputManager.ts:24-31 | opposite keys cancel; each speed is −280, 0 or 280 |
| PhaserInput.CooldownRule | phaser/systems/InputManager.ts:33-39 | without the button the cooldown keeps falling; after a shot the next needs at least 150 ms of updates |
| PhaserInput.InputManager.constructor | phaser/systems/InputManager.ts:10-18 | cooldown 0 |
| Health.Damaged | phaser/systems/HealthManager.ts:19 | hp becomes `max(0, hp − a)`, never negative |
| Health.HealthManager.constructor | phaser/systems/HealthManager.ts:11-16 | `hp = maxHp`, default 10 |
| Health.HealthManager.Damage | phaser/systems/HealthManager.ts:18-24 | hp follows `Damaged`; every call leaving hp <= 0 starts the menu once |
| Health.HealthManager.GetHp | phaser/systems/HealthManager.ts:26-28 | returns the current hp |
| Health.DamageBounds | phaser/systems/HealthManager.ts:19-23 | hp reaches 0 iff the amount is at least the hp; positive damage never raises hp |
| Health.NegativeDamageHealsPastMax | phaser/systems/HealthManager.ts:19 | there is no upper clamp: −5 at 10 hp gives 15 |
| PhaserLegacyAdapter.LegacyToFormation | phaser/systems/LegacyAdapter.ts:7-39 | the loops produce exactly `Convert(legacy)`: null gives none, waves win over spawns, neither gives none |
| PhaserLegacyAdapter.Convert | phaser/systems/LegacyAdapter.ts:7-39 | null gives no spawns; without waves the spawns list is converted one by one in order; with neither there are none |
| PhaserLegacyAdapter.ConvertWaves | phaser/systems/LegacyAdapter.ts:13-25 | the wave loop produces the waves' outputs in order |
| PhaserLegacyAdapter.ConvertWave | phaser/systems/LegacyAdapter.ts:15-23 | one output per enemy, in order |
| PhaserLegacyAdapter.ConvertSpawns | phaser/systems/LegacyAdapter.ts:27-35 | one output per legacy spawn, in order |
| PhaserLegacyAdapter.WaveSpawns | phaser/systems/LegacyAdapter.ts:15-23 | the converted enemies, one each, in order |
| PhaserLegacyAdapter.FromSpawns | phaser/systems/LegacyAdapter.ts:27-35 | output length equals input length, each converted in place |
| PhaserLegacyAdapter.WavesCount | phaser/systems/LegacyAdapter.ts:13-24 | one output per enemy of each wave with an `enemies` array |
| PhaserLegacyAdapter.WavesAppend | phaser/systems/LegacyAdapter.ts:13-25 | the outputs of two runs of waves concatenate |
| PhaserLegacyAdapter.WaveWithoutEnemies | phaser/systems/LegacyAdapter.ts:14 | a wave without an `enemies` array contributes nothing |
| PhaserLegacyAdapter.WavesWin | phaser/systems/LegacyAdapter.ts:10-38 | with a waves array the spawns list is ignored; null or neither gives no spawns |
| PhaserLegacyAdapter.FallbackChains | phaser/systems/LegacyAdapter.ts:17-21 | `t`: delay then 0; `x`: then null; `vy`: speed then 120; `size`: then 48; `vx ?? 0` |
| LegacyAdapter.LegacyToFormation | systems/LegacyAdapter.ts:10-41 | the loops produce exactly `Convert(legacy)`, with optional chaining making null give none |
| LegacyAdapter.Convert | systems/LegacyAdapter.ts:10-41 | null gives no spawns; without waves the spawns list is converted one by one in order; with neither there are none |
| LegacyAdapter.ConvertWaves | systems/LegacyAdapter.ts:16-28 | the wave loop produces the waves' outputs in order |
| LegacyAdapter.ConvertWave | systems/LegacyAdapter.ts:19-26 | one output per enemy, in order |
| LegacyAdapter.ConvertSpawns | systems/LegacyAdapter.ts:30-37 | one output per legacy spawn, in order |
| LegacyAdapter.WaveSpawns | systems/LegacyAdapter.ts:19-26 | the converted enemies, one each, in order |
| LegacyAdapter.FromSpawns | systems/LegacyAdapter.ts:30-37 | output length equals input length |
| LegacyAdapter.SameAsPhaserBuild | systems/LegacyAdapter.ts:15-38 | this converter equals the Phaser build's with every `vx` dropped, so the outputs never carry a `vx` |
| LegacyAdapter.DropWaves | systems/LegacyAdapter.ts:20-25 | the wave outputs equal the Phaser build's without `vx` |
| LegacyAdapter.OutputCount | systems/LegacyAdapter.ts:15-37 | the output length is the total enemy count, or the spawns count |
| LegacyAdapter.SpawnFallbacks | systems/LegacyAdapter.ts:31-36 | `t ?? delay ?? 0`, `vy ?? speed ?? 120`, `size ?? 48`, `x ?? null` |
| Flags.Split | src/flags.ts:7 | `split(',')` yields at least one part, none containing the separator |
| Flags.JoinSplit | src/flags.ts:7 | joining the parts again gives back the string |
| Flags.SplitJoin | src/flags.ts:7 | splitting joined separator-free parts gives back the parts |
| Flags.Trim | src/flags.ts:8 | the result is the slice of the input starting after its leading whitespace, with only whitespace after it; it neither starts nor ends with whitespace and is the input when that has none |
| Flags.TrimExample | src/flags.ts:8 | `" a b\t"` trims to `"a b"`: outer whitespace goes, inner stays |
| Flags.TrimIdempotent | src/flags.ts:8 | trimming twice equals trimming once |
| Flags.TrimSlice | src/flags.ts:8 | every character of the result occurs in the input |
| Flags.Items | src/flags.ts:6-9 | every item is non-empty, trimmed and free of commas |
| Flags.ItemsRoundTrip | src/flags.ts:6-9 | a comma-joined list of clean names reads back as the same list |
| Flags.TrimAll | src/flags.ts:8 | each part trimmed, in order |
| Flags.ItemsOfJoin | src/flags.ts:6-9 | comma-separated parts read back as the parts trimmed, in order, with empty ones dropped |
| Flags.ItemsExample | src/flags.ts:6-9 | `" a , ,b"` reads as `["a", "b"]` |
| Flags.NoFlagsFromNothing | src/flags.ts:12-16 | an unset or empty source yields no items |
| Flags.ReadFromEnv | src/flags.ts:12-16 | the variable's items are non-empty, trimmed and comma-free; an unset or empty variable gives none |
| Flags.HasFlag | src/flags.ts:18-20 | a flag is on iff it is among the environment's or the URL's items |
| Flags.ReadFromUrl | src/flags.ts:3-10 | without a `window` the list is empty |
| Flags.FlagSet | src/flags.ts:18 | the set is exactly the union of the env and URL items |
| Flags.HasFlagIgnoresOrder | src/flags.ts:18-20 | `hasFlag` depends only on which names occur, not on order or duplicates |

## Left out

- I/O and asynchronous code are not modelled: `fetch`, the loaders, `loadIndex`, `loadAndScheduleFromFile`, `loadLevel`, `console` logging and HUD text.
- Drawing is not modelled: canvas calls, display sizes, tints, textures on screen, the HP bar, tweens' animation and particle emitters.
- The engine is replaced by arguments:
  - `physics.add.overlap` detection is replaced by the caller passing the overlapping pair;
  - group pooling is replaced by a nullable pool result;
  - timers never run by themselves; each is a recorded entry.
- Math functions are parameters or left out:
  - trigonometry and square roots are uninterpreted parameters;
  - the sine and bulletml paths of app/page.jsx:84-115 produce whatever the caller's `Trig` gives;
  - the orbit branch of lib/formationManager.ts:23-26 is treated the same way;
  - the orbit tween of phaser/systems/FormationManager.ts:110-122 is recorded only as a tween entry;
  - `velocityFromRotation` is recorded as heading and speed in entities/Enemy.ts.
- JavaScript numbers are modelled as exact reals: no NaN, no Infinity, no rounding.
  - A missing `x_norm` in AllyManager (NaN offsets) is not modelled; the field is required.
  - A non-numeric `hp` or `t_ms` is not modelled.
- Page.Motion: a Bezier list where fewer than four points are present but one of them is `null` is not modelled. Nor is a non-array `points_norm`. Only the empty-list crash is.
- Page.World: enemies and bullets are values in sequence fields, so the source's in-place field writes become sequence updates.
- Lib records (`Enemy`, `Bullet`, `PlayerShip`) are values inside a `Js.List`. In-place writes become a sequence update, and aliasing between two lists is not modelled.
- The legacy converters:
  - null entries inside `waves`, `enemies` or `spawns` (which throw) are not modelled;
  - enemy/wave fields that are present but not numbers are not modelled.
- PhaserLevel: a fractional `repeat` is modelled as a whole count.
- PhaserFormation.SpawnSpec: a present non-numeric `y` is used as is by the source; the model treats it as missing (−40). The `Phaser.Math.Between` column is any real in `[32, w − 32]`, not only an integer.
- PhaserFormation.FormationManager.SpawnSpec: requires `32 <= between <= w − 32`, which no draw meets on a canvas narrower than 64; the source's `Between(32, w − 32)` still returns a value there, and that case is not modelled.
- Page.World.Tick: runs the corrected collision pass (`b.dead = true`). As written, the frame throws a ReferenceError at app/page.jsx:149 on the first overlap of a live enemy and a bullet, exactly when `Page.CollideAsWritten` fails, and never reaches the cull; the model goes on to the cull.
- Page.World.Resize: a zero client width or height is excluded, since the motion rules divide by the canvas size and would produce NaN or Infinity, which the reals cannot express.
- PhaserAllies.AllyManager.ApplyFormation: the ships are a list argument. A formation without a `ships` array makes the source destroy the allies and then throw at phaser/systems/AllyManager.ts:25; that path is not modelled.
- PhaserFormation: the `destroy()` method, and `setupCollisions`/constructor mismatches in the scene, are not modelled.
- EntityBullet.Bullet.Kill: the `catch` branch of `disableBody` is not modelled. It is taken only when the engine throws, and it ends in the same inactive, invisible, body-disabled state.
- EntityEnemy.Enemy: `destroy` and `initDisplay` (display size and circle) are not modelled; the size is stored only.
- PhaserPlayer.Player.TakeDamage: the invulnerability tween (alpha blink) is not modelled; only the flag and its pending expiry are.
- Phaser scenes, `main.ts`, the level-select and HUD managers, the React components and hooks, and `components/GameCanvas.tsx` are not part of this model.
- InputManager.ReadInput: the touch and keyboard handlers that fill the state are not modelled; the current touch state and keys map are arguments.
- Render: only the frame arithmetic of `drawShipSprite` is modelled, not the `drawImage` call or image loading.

## Findings

| source | as written | input that shows it | evidently intended | confidence | as-written member | corrected member |
|---|---|---|---|---|---|---|
| app/page.jsx:149 | `b.dead = True` reads an undefined identifier, so the first overlap throws a ReferenceError out of `loop` | a 1-hp scout and a bullet at the same point (`Page.FirstHitThrows`) | `b.dead = true`: the bullet is marked dead and culled | not executed | Page.CollideAsWritten | Page.CollideFrom |
| phaser/systems/CollisionManager.ts:54 | `e.receiveDamage` does not exist on the Phaser `Enemy` (its method is `takeDamage`, phaser/entities/Enemy.ts:78), so `killed` is always false: no enemy is damaged and the score never moves | a 1-hp enemy hit by a 1-damage player bullet (`PhaserCollision.ReceiveDamageNeverLands`) | call `takeDamage(b.damage)`: the enemy loses hp, dies at 0, and the score grows by 100 | not executed | PhaserCollision.CollisionManager.BulletHitsEnemyAsWritten | PhaserCollision.CollisionManager.BulletHitsEnemy |
