/**
 * The gameplay bookkeeping of game.js: its global variables become the
 * fields of one `Game` object and its handlers and per-frame updates become
 * methods that change those fields in place. Time is the `now` parameter
 * (the value `Date.now()` would return); randomness, ray casting and vector
 * geometry come in as parameters too.
 */
module Simulation {
  import opened Rules
  import opened Movement
  import opened Registry
  import opened Melee
  import opened Powerups

  /** The random draw spawnEnemy makes: a new enemy object (its identity)
      and the spawn point before clamping. */
  datatype SpawnDraw = SpawnDraw(id: EnemyId, x: real, z: real)

  /** The enemy spawnEnemy creates: at the clamped spawn point, at half its
      height above the ground, coloured after the slow effect. */
  function Spawned(d: SpawnDraw, slow: bool): (e: Enemy)
    ensures e.id == d.id && e.tint == TintFor(slow)
    ensures InField(e.pos.x) && InField(e.pos.z)
    ensures InField(d.x) ==> e.pos.x == d.x
    ensures InField(d.z) ==> e.pos.z == d.z
    ensures e.pos == Vec3(Clamp(d.x), 1.0, Clamp(d.z))
  {
    Enemy(d.id, Vec3(Clamp(d.x), 1.0, Clamp(d.z)), TintFor(slow))
  }

  function Retinted(es: seq<Enemy>, t: Tint): (r: seq<Enemy>)
    ensures |r| == |es| && Ids(r) == Ids(es)
    ensures forall e <- r :: e.tint == t
    ensures forall i :: 0 <= i < |es| ==> r[i].id == es[i].id && r[i].pos == es[i].pos
  {
    seq(|es|, i requires 0 <= i < |es| => es[i].(tint := t))
  }

  /** Enemies are distinct objects, each with its lastAttackTimes entry. */
  ghost predicate Registered(es: seq<Enemy>, times: map<EnemyId, int>) {
    Distinct(Ids(es)) && forall e <- es :: e.id in times
  }

  /** Particle entries name enemies that were spawned, and systems that
      were created. */
  ghost predicate Tracked(ps: seq<Particles>, times: map<EnemyId, int>, made: nat) {
    forall p <- ps :: p.enemy in times && p.system < made
  }

  /** Every enemy has the colour of the slow effect's state. */
  ghost predicate Tinted(es: seq<Enemy>, slow: bool) {
    forall e <- es :: e.tint == TintFor(slow)
  }

  /** Every enemy has a particle entry. */
  ghost predicate Marked(es: seq<Enemy>, ps: seq<Particles>) {
    forall e <- es :: HasParticles(ps, e.id)
  }

  /** The game invariant on the fields it concerns. */
  ghost predicate Consistent(es: seq<Enemy>, times: map<EnemyId, int>, ps: seq<Particles>, made: nat,
                             slow: bool, health: int, x: real, z: real) {
    && Registered(es, times)
    && Tracked(ps, times, made)
    && Tinted(es, slow)
    && (slow ==> Marked(es, ps))
    && health <= StartingHealth
    && InField(x) && InField(z)
  }

  /** Only identities matter to Registered and Marked. */
  lemma SameIds(es: seq<Enemy>, es': seq<Enemy>, times: map<EnemyId, int>, ps: seq<Particles>)
    requires Ids(es') == Ids(es)
    ensures Registered(es, times) ==> Registered(es', times)
    ensures Marked(es, ps) ==> Marked(es', ps)
  {
    forall e' <- es' ensures exists e <- es :: e.id == e'.id {
      var i :| 0 <= i < |es'| && es'[i] == e';
      assert Ids(es')[i] == Ids(es)[i];
      assert es[i] in es;
    }
  }

  /** Entries appended to the registry do not unmark anybody. */
  lemma MarkedGrows(es: seq<Enemy>, ps: seq<Particles>, more: seq<Particles>)
    requires Marked(es, ps)
    ensures Marked(es, ps + more)
  {
    forall e <- es ensures HasParticles(ps + more, e.id) {
      var k :| 0 <= k < |ps| && ps[k].enemy == e.id;
      assert (ps + more)[k] == ps[k];
    }
  }

  /** A frame of pursuit and bites keeps the game invariant, given that it
      only adds attack-time entries and never heals. */
  lemma PursuitKeepsValid(es: seq<Enemy>, times: map<EnemyId, int>, times': map<EnemyId, int>,
                          ps: seq<Particles>, made: nat, slow: bool, health: int, health': int,
                          x: real, z: real, sense: EnemyId -> Sense, speed: real)
    requires Consistent(es, times, ps, made, slow, health, x, z)
    requires times.Keys <= times'.Keys && health' <= health
    ensures Consistent(Pursue(es, sense, speed), times', ps, made, slow, health', x, z)
  {
    assert Registered(es, times');
    SameIds(es, Pursue(es, sense, speed), times', ps);
    PursueTinted(es, sense, speed, slow);
  }

  /** Pursuit keeps colours. */
  lemma PursueTinted(es: seq<Enemy>, sense: EnemyId -> Sense, speed: real, slow: bool)
    requires Tinted(es, slow)
    ensures Tinted(Pursue(es, sense, speed), slow)
  {
    var r := Pursue(es, sense, speed);
    forall e <- r ensures e.tint == TintFor(slow) {
      var i :| 0 <= i < |r| && r[i] == e;
      assert es[i] in es;
    }
  }

  /** The slow-effect part of the game state, as a value. */
  datatype Slow = Slow(active: bool, end: int, enemies: seq<Enemy>, ps: seq<Particles>, made: nat)

  /** The slow-effect state `now` after `picked` pickups from `start`, each
      one an activateSlowEffect. */
  ghost predicate PickedUp(start: Slow, picked: nat, now: int, t: Slow) {
    && (picked == 0 ==> t.active == start.active && t.end == start.end && t.enemies == start.enemies)
    && (picked > 0 ==> t.active && t.end == now + SlowDuration && t.enemies == Retinted(start.enemies, Blue))
    && t.ps == start.ps + Activations(Ids(start.enemies), start.made, picked)
    && t.made == start.made + |t.ps| - |start.ps|
  }

  /** One more activation after `picked` pickups. */
  lemma PickUpStep(start: Slow, picked: nat, now: int, t: Slow, t': Slow)
    requires PickedUp(start, picked, now, t)
    requires t'.active && t'.end == now + SlowDuration && t'.enemies == Retinted(t.enemies, Blue)
    requires t'.ps == t.ps + NewParticles(Ids(t.enemies), t.made) && t'.made == t.made + |t.enemies|
    ensures PickedUp(start, picked + 1, now, t')
  {
    var ids := Ids(start.enemies);
    assert Ids(t.enemies) == ids;
    ActivationsStep(ids, start.made, picked);
    assert Retinted(Retinted(start.enemies, Blue), Blue) == Retinted(start.enemies, Blue);
  }

  class Game {
    var enemies: seq<Enemy>
    var lastSpawnTime: int
    var lastShootTime: int
    var powerups: seq<Powerup>
    var isSlowActive: bool
    var slowEffectEndTime: int
    var particleSystems: seq<Particles>
    /** How many particle systems have been created: the next one's identity. */
    var systemsMade: nat
    var dinoHitCount: nat
    var reloadProgress: real
    var moveForward: bool
    var moveBackward: bool
    var strafeLeft: bool
    var strafeRight: bool
    var rotateLeft: bool
    var rotateRight: bool
    /** player.position.x, player.position.z and player.rotation.y */
    var playerX: real
    var playerZ: real
    var yaw: real
    var playerHealth: int
    var lastAttackTimes: map<EnemyId, int>
    /** The gameOver calls and bites so far, in order. */
    var events: seq<Event>

    /** What every handler and update keeps true between two events. */
    ghost predicate Valid()
      reads this`enemies, this`lastAttackTimes, this`particleSystems, this`systemsMade,
            this`isSlowActive, this`playerHealth, this`playerX, this`playerZ
    {
      Consistent(enemies, lastAttackTimes, particleSystems, systemsMade, isSlowActive,
                 playerHealth, playerX, playerZ)
    }

    /** The globals as the script declares them. */
    constructor ()
      ensures Valid()
      ensures enemies == [] && powerups == [] && particleSystems == [] && systemsMade == 0
      ensures lastSpawnTime == 0 && lastShootTime == 0
      ensures !isSlowActive && slowEffectEndTime == 0
      ensures dinoHitCount == 0 && reloadProgress == 0.0
      ensures !moveForward && !moveBackward && !strafeLeft && !strafeRight && !rotateLeft && !rotateRight
      ensures playerX == 0.0 && playerZ == 0.0 && yaw == 0.0
      ensures playerHealth == StartingHealth && lastAttackTimes == map[] && events == []
    {
      enemies, powerups, particleSystems, systemsMade := [], [], [], 0;
      lastSpawnTime, lastShootTime := 0, 0;
      isSlowActive, slowEffectEndTime := false, 0;
      dinoHitCount, reloadProgress := 0, 0.0;
      moveForward, moveBackward, strafeLeft, strafeRight := false, false, false, false;
      rotateLeft, rotateRight := false, false;
      playerX, playerZ, yaw := 0.0, 0.0, 0.0;
      playerHealth, lastAttackTimes, events := StartingHealth, map[], [];
    }

    // ------------------------------------------------------------ shooting

    /** removeEnemy: the enemy leaves `enemies`; its particle entries and its
        lastAttackTimes entry stay behind. */
    method RemoveEnemy(id: EnemyId)
      requires Valid()
      modifies this`enemies
      ensures Valid()
      ensures enemies == Without(old(enemies), id)
      ensures forall e <- enemies :: e.id != id
    {
      WithoutKeepsDistinct(enemies, id);
      enemies := Without(enemies, id);
    }

    /** onMouseClick. `hits` is what the ray cast reports, nearest first. */
    method OnMouseClick(now: int, hits: seq<EnemyId>)
      requires Valid()
      modifies this`lastShootTime, this`reloadProgress, this`enemies, this`dinoHitCount
      ensures Valid()
      ensures CoolingDown(now, old(lastShootTime)) ==> unchanged(this)
      ensures !CoolingDown(now, old(lastShootTime)) ==>
                && lastShootTime == now && reloadProgress == 0.0
                && enemies == (if hits == [] then old(enemies) else Without(old(enemies), hits[0]))
                && dinoHitCount == old(dinoHitCount) + (if hits == [] then 0 else 1)
    {
      if CoolingDown(now, lastShootTime) {
        return;
      }
      lastShootTime := now;
      reloadProgress := 0.0;
      if hits != [] {
        RemoveEnemy(hits[0]);
        dinoHitCount := dinoHitCount + 1;
      }
    }

    // ------------------------------------------------------- slow effect

    /** addSlowParticles: one new `{enemy, system}` entry at the end. */
    method AddSlowParticles(id: EnemyId)
      modifies this`particleSystems, this`systemsMade
      ensures particleSystems == old(particleSystems) + [Particles(id, old(systemsMade))]
      ensures systemsMade == old(systemsMade) + 1
    {
      particleSystems := particleSystems + [Particles(id, systemsMade)];
      systemsMade := systemsMade + 1;
    }

    /** The findIndex of removeSlowParticles: the first entry for the enemy,
        or -1. */
    method FindParticles(id: EnemyId) returns (index: int)
      ensures -1 <= index < |particleSystems|
      ensures index == -1 <==> forall k :: 0 <= k < |particleSystems| ==> particleSystems[k].enemy != id
      ensures 0 <= index ==> particleSystems[index].enemy == id
      ensures 0 <= index ==> forall k :: 0 <= k < index ==> particleSystems[k].enemy != id
      ensures index == FirstIndex(particleSystems, id)
    {
      index := 0;
      while index < |particleSystems|
        invariant 0 <= index <= |particleSystems|
        invariant forall k :: 0 <= k < index ==> particleSystems[k].enemy != id
      {
        if particleSystems[index].enemy == id {
          return;
        }
        index := index + 1;
      }
      index := -1;
    }

    /** removeSlowParticles: splice out the first entry for the enemy, if any. */
    method RemoveSlowParticles(id: EnemyId)
      modifies this`particleSystems
      ensures particleSystems == RemoveFirst(old(particleSystems), id)
    {
      RemoveFirstIsSplice(particleSystems, id);
      var index := FindParticles(id);
      if index != -1 {
        particleSystems := particleSystems[..index] + particleSystems[index + 1..];
      }
    }

    /** activateSlowEffect: the effect is on until `now + slowDuration`
        (a second activation moves the end, it does not extend it), every
        enemy turns blue and gets one more particle entry. */
    method ActivateSlowEffect(now: int)
      requires Valid()
      modifies this`isSlowActive, this`slowEffectEndTime, this`enemies, this`particleSystems, this`systemsMade
      ensures Valid()
      ensures isSlowActive && slowEffectEndTime == now + SlowDuration
      ensures enemies == Retinted(old(enemies), Blue)
      ensures particleSystems == old(particleSystems) + NewParticles(Ids(old(enemies)), old(systemsMade))
      ensures systemsMade == old(systemsMade) + |old(enemies)|
    {
      isSlowActive := true;
      slowEffectEndTime := now + SlowDuration;
      ghost var es := enemies;
      ghost var ps := particleSystems;
      ghost var base := systemsMade;
      MarkAll();
      ActivationKeepsValid(es, ps, base);
    }

    /** The forEach of activateSlowEffect: each enemy turns blue and gets a
        particle entry, in the order of `enemies`. */
    method MarkAll()
      modifies this`enemies, this`particleSystems, this`systemsMade
      ensures enemies == Retinted(old(enemies), Blue)
      ensures particleSystems == old(particleSystems) + NewParticles(Ids(old(enemies)), old(systemsMade))
      ensures systemsMade == old(systemsMade) + |old(enemies)|
    {
      ghost var es := enemies;
      ghost var ps := particleSystems;
      ghost var base := systemsMade;
      var i := 0;
      while i < |enemies|
        invariant 0 <= i <= |enemies| == |es|
        invariant forall k :: 0 <= k < i ==> enemies[k] == es[k].(tint := Blue)
        invariant forall k :: i <= k < |es| ==> enemies[k] == es[k]
        invariant particleSystems == ps + NewParticles(Ids(es)[..i], base)
        invariant systemsMade == base + i
      {
        enemies := enemies[i := enemies[i].(tint := Blue)];
        AddSlowParticles(enemies[i].id);
        assert NewParticles(Ids(es)[..i + 1], base) == NewParticles(Ids(es)[..i], base) + [Particles(es[i].id, base + i)];
        i := i + 1;
      }
      assert Ids(es)[..i] == Ids(es);
    }

    /** The facts Valid() needs after an activation. */
    lemma ActivationKeepsValid(es: seq<Enemy>, ps: seq<Particles>, base: SystemId)
      requires enemies == Retinted(es, Blue)
      requires particleSystems == ps + NewParticles(Ids(es), base)
      ensures forall e <- enemies :: HasParticles(particleSystems, e.id)
    {
      forall e <- enemies ensures HasParticles(particleSystems, e.id) {
        var i :| 0 <= i < |enemies| && enemies[i] == e;
        assert particleSystems[|ps| + i] == Particles(es[i].id, base + i);
        assert Ids(enemies)[i] == Ids(es)[i];
      }
    }

    /** updateSlowEffect: once `now` reaches the end time the effect goes
        off, every enemy turns brown again and loses its first particle
        entry; otherwise nothing happens. */
    method UpdateSlowEffect(now: int)
      requires Valid()
      modifies this`isSlowActive, this`enemies, this`particleSystems
      ensures Valid()
      ensures !(old(isSlowActive) && now >= slowEffectEndTime) ==> unchanged(this)
      ensures old(isSlowActive) && now >= slowEffectEndTime ==>
                && !isSlowActive
                && enemies == Retinted(old(enemies), Brown)
                && particleSystems == RemoveEach(old(particleSystems), Ids(old(enemies)))
    {
      if isSlowActive && now >= slowEffectEndTime {
        isSlowActive := false;
        ghost var es := enemies;
        UnmarkAll();
        SameIds(es, enemies, lastAttackTimes, particleSystems);
      }
    }

    /** The forEach of updateSlowEffect: each enemy turns brown again and
        loses its first particle entry, in the order of `enemies`. */
    method UnmarkAll()
      modifies this`enemies, this`particleSystems
      ensures enemies == Retinted(old(enemies), Brown)
      ensures particleSystems == RemoveEach(old(particleSystems), Ids(old(enemies)))
    {
      ghost var es := enemies;
      ghost var ps := particleSystems;
      var i := 0;
      while i < |enemies|
        invariant 0 <= i <= |enemies| == |es|
        invariant forall k :: 0 <= k < i ==> enemies[k] == es[k].(tint := Brown)
        invariant forall k :: i <= k < |es| ==> enemies[k] == es[k]
        invariant particleSystems == RemoveEach(ps, Ids(es)[..i])
      {
        enemies := enemies[i := enemies[i].(tint := Brown)];
        RemoveSlowParticles(enemies[i].id);
        assert Ids(es)[..i + 1][..i] == Ids(es)[..i];
        i := i + 1;
      }
      assert Ids(es)[..i] == Ids(es);
    }

    // ------------------------------------------------------------ powerups

    /** spawnPowerup: one more powerup at the drawn position. */
    method SpawnPowerup(p: Powerup)
      modifies this`powerups
      ensures powerups == old(powerups) + [p]
    {
      powerups := powerups + [p];
    }

    /** updatePowerups: the forEach with its in-place splice, activating the
        slow effect once per powerup picked up. */
    method UpdatePowerups(now: int, distance: Powerup -> real)
      requires Valid()
      modifies this`powerups, this`isSlowActive, this`slowEffectEndTime, this`enemies,
               this`particleSystems, this`systemsMade
      ensures Valid()
      ensures powerups == Sweep(old(powerups), distance)
      ensures var picked := |old(powerups)| - |powerups|;
              && (picked == 0 ==> unchanged(this))
              && (picked > 0 ==> isSlowActive && slowEffectEndTime == now + SlowDuration
                                 && enemies == Retinted(old(enemies), Blue))
              && particleSystems == old(particleSystems) + Activations(Ids(old(enemies)), old(systemsMade), picked)
              && systemsMade - old(systemsMade) == |particleSystems| - |old(particleSystems)|
    {
      ghost var s := powerups;
      ghost var start := Slow(isSlowActive, slowEffectEndTime, enemies, particleSystems, systemsMade);
      ghost var picked := 0;
      var len := |powerups|;
      var k := 0;
      while k < len
        invariant 0 <= k <= len == |s|
        invariant picked == |s| - |powerups|
        invariant ForEachFrom(powerups, k, distance) == ForEachFrom(s, 0, distance)
        invariant picked == 0 ==> powerups == s
        invariant Valid()
        invariant PickedUp(start, picked, now, Slow(isSlowActive, slowEffectEndTime, enemies, particleSystems, systemsMade))
      {
        ghost var before := Slow(isSlowActive, slowEffectEndTime, enemies, particleSystems, systemsMade);
        var collected := VisitPowerup(k, now, distance);
        if collected {
          PickUpStep(start, picked, now, before,
                     Slow(isSlowActive, slowEffectEndTime, enemies, particleSystems, systemsMade));
          picked := picked + 1;
        }
        k := k + 1;
      }
      ForEachIsSweep(s, distance);
    }

    /** The forEach callback of updatePowerups at slot k of the live list:
        a powerup there that is in reach is spliced out and activates the
        slow effect. */
    method VisitPowerup(k: nat, now: int, distance: Powerup -> real) returns (collected: bool)
      requires Valid()
      modifies this`powerups, this`isSlowActive, this`slowEffectEndTime, this`enemies,
               this`particleSystems, this`systemsMade
      ensures Valid()
      ensures collected <==> k < |old(powerups)| && Collected(old(powerups)[k], distance)
      ensures !collected ==> unchanged(this)
      ensures collected ==>
                && powerups == old(powerups)[..k] + old(powerups)[k + 1..]
                && isSlowActive && slowEffectEndTime == now + SlowDuration
                && enemies == Retinted(old(enemies), Blue)
                && particleSystems == old(particleSystems) + NewParticles(Ids(old(enemies)), old(systemsMade))
                && systemsMade == old(systemsMade) + |old(enemies)|
    {
      collected := k < |powerups| && Collected(powerups[k], distance);
      if collected {
        powerups := powerups[..k] + powerups[k + 1..];
        ActivateSlowEffect(now);
      }
    }

    // ----------------------------------------------------- enemies, melee

    /** attackPlayer for the enemy `id`: health down by one, gameOver (every
        time) when it is at most 0, then the bite and its attack bars. */
    method AttackPlayer(id: EnemyId, s: Sense)
      modifies this`playerHealth, this`events
      ensures playerHealth == old(playerHealth) - 1
      ensures events == old(events) + (if playerHealth <= 0 then [GameOver] else [])
                                    + [Bite(id, AttackBars(s.angle, s.cross))]
    {
      playerHealth := playerHealth - 1;
      if playerHealth <= 0 {
        events := events + [GameOver];  // gameOver() only logs
      }
      events := events + [Bite(id, AttackBars(s.angle, s.cross))];
    }

    /** spawnEnemy: one new enemy at the end of `enemies`, clamped into the
        field, with its attack time set to 0 and, while the slow effect is
        on, blue and with a particle entry. */
    method SpawnEnemy(d: SpawnDraw)
      requires Valid()
      requires d.id !in lastAttackTimes
      modifies this`enemies, this`particleSystems, this`systemsMade, this`lastAttackTimes
      ensures Valid()
      ensures enemies == old(enemies) + [Spawned(d, isSlowActive)]
      ensures particleSystems == old(particleSystems) + if isSlowActive then [Particles(d.id, old(systemsMade))] else []
      ensures systemsMade == old(systemsMade) + if isSlowActive then 1 else 0
      ensures lastAttackTimes == old(lastAttackTimes)[d.id := 0]
    {
      var e := Spawned(d, isSlowActive);
      if isSlowActive {
        MarkedGrows(enemies, particleSystems, [Particles(e.id, systemsMade)]);
        AddSlowParticles(e.id);
        assert particleSystems[|particleSystems| - 1].enemy == e.id;
      }
      assert forall x <- enemies :: x.id != e.id;
      enemies := enemies + [e];
      lastAttackTimes := lastAttackTimes[e.id := 0];
      assert Distinct(Ids(enemies)) by {
        assert Ids(enemies) == Ids(old(enemies)) + [e.id];
      }
    }

    /** updateEnemies: the spawn gate (strictly more than spawnInterval since
        the last spawn), then for every enemy, the one just spawned included,
        a step towards the player or, within range, a bite when its timer
        allows it. */
    method UpdateEnemies(now: int, draw: SpawnDraw, sense: EnemyId -> Sense)
      requires Valid()
      requires draw.id !in lastAttackTimes
      modifies this`enemies, this`particleSystems, this`systemsMade, this`lastAttackTimes,
               this`lastSpawnTime, this`playerHealth, this`events
      ensures Valid()
      ensures var spawn := now - old(lastSpawnTime) > SpawnInterval;
              var es := if spawn then old(enemies) + [Spawned(draw, isSlowActive)] else old(enemies);
              var times := if spawn then old(lastAttackTimes)[draw.id := 0] else old(lastAttackTimes);
              && lastSpawnTime == (if spawn then now else old(lastSpawnTime))
              && particleSystems == old(particleSystems) + (if spawn && isSlowActive then [Particles(draw.id, old(systemsMade))] else [])
              && systemsMade == old(systemsMade) + (if spawn && isSlowActive then 1 else 0)
              && enemies == Pursue(es, sense, EnemySpeed(isSlowActive))
              && Combat(playerHealth, lastAttackTimes, events)
                 == Round(Combat(old(playerHealth), times, old(events)), Ids(es), sense, now)
    {
      SpawnIfDue(now, draw);
      ghost var es, times, health := enemies, lastAttackTimes, playerHealth;
      var speed := EnemySpeed(isSlowActive);
      ChaseAndBite(now, sense, speed);
      PursuitKeepsValid(es, times, lastAttackTimes, particleSystems, systemsMade, isSlowActive,
                        health, playerHealth, playerX, playerZ, sense, speed);
    }

    /** The spawn gate of updateEnemies: a new enemy when strictly more than
        spawnInterval has passed since the last one. */
    method SpawnIfDue(now: int, draw: SpawnDraw)
      requires Valid()
      requires draw.id !in lastAttackTimes
      modifies this`enemies, this`particleSystems, this`systemsMade, this`lastAttackTimes, this`lastSpawnTime
      ensures Valid()
      ensures var spawn := now - old(lastSpawnTime) > SpawnInterval;
              && lastSpawnTime == (if spawn then now else old(lastSpawnTime))
              && enemies == (if spawn then old(enemies) + [Spawned(draw, isSlowActive)] else old(enemies))
              && lastAttackTimes == (if spawn then old(lastAttackTimes)[draw.id := 0] else old(lastAttackTimes))
              && particleSystems == old(particleSystems) + (if spawn && isSlowActive then [Particles(draw.id, old(systemsMade))] else [])
              && systemsMade == old(systemsMade) + (if spawn && isSlowActive then 1 else 0)
    {
      if now - lastSpawnTime > SpawnInterval {
        SpawnEnemy(draw);
        lastSpawnTime := now;
      }
    }

    /** The forEach of updateEnemies: each enemy, in order, steps towards the
        player when it is out of range, and otherwise bites when its timer
        allows it. */
    method ChaseAndBite(now: int, sense: EnemyId -> Sense, speed: real)
      modifies this`enemies, this`playerHealth, this`events, this`lastAttackTimes
      ensures enemies == Pursue(old(enemies), sense, speed)
      ensures Combat(playerHealth, lastAttackTimes, events)
              == Round(Combat(old(playerHealth), old(lastAttackTimes), old(events)), Ids(old(enemies)), sense, now)
    {
      ghost var es := enemies;
      ghost var c := Combat(playerHealth, lastAttackTimes, events);
      var i := 0;
      while i < |enemies|
        invariant 0 <= i <= |enemies| == |es|
        invariant forall k :: 0 <= k < i ==> enemies[k] == Moved(es[k], sense(es[k].id), speed)
        invariant forall k :: i <= k < |es| ==> enemies[k] == es[k]
        invariant Combat(playerHealth, lastAttackTimes, events) == Round(c, Ids(es)[..i], sense, now)
      {
        var e := enemies[i];
        var s := sense(e.id);
        assert Ids(es)[..i + 1][..i] == Ids(es)[..i];
        if s.distance > AttackRange {
          enemies := enemies[i := Moved(e, s, speed)];
        } else if AttackDue(lastAttackTimes, e.id, now) {
          AttackPlayer(e.id, s);
          lastAttackTimes := lastAttackTimes[e.id := now];
        }
        i := i + 1;
      }
      assert Ids(es)[..i] == Ids(es);
      assert enemies == Pursue(es, sense, speed);
    }

    // -------------------------------------------------------- HUD, input

    /** The reload gauge part of updateHUD. */
    method UpdateHud(now: int)
      requires Valid()
      modifies this`reloadProgress
      ensures Valid()
      ensures reloadProgress == ReloadProgress(now, lastShootTime)
    {
      reloadProgress := ReloadProgress(now, lastShootTime);
    }

    /** The flag an intent sets. */
    function Holding(intent: Intent): bool
      reads this
    {
      match intent
      case MoveForward => moveForward
      case MoveBackward => moveBackward
      case StrafeLeft => strafeLeft
      case StrafeRight => strafeRight
      case RotateLeft => rotateLeft
      case RotateRight => rotateRight
    }

    /** Set the flag of `code`'s intent, if it has one, to `down`. */
    method SetKey(code: string, down: bool)
      modifies this`moveForward, this`moveBackward, this`strafeLeft, this`strafeRight,
               this`rotateLeft, this`rotateRight
      ensures forall i :: Holding(i) == if IntentOf(code) == Some(i) then down else old(Holding(i))
    {
      match IntentOf(code)
      case Some(MoveForward) => moveForward := down;
      case Some(MoveBackward) => moveBackward := down;
      case Some(StrafeLeft) => strafeLeft := down;
      case Some(StrafeRight) => strafeRight := down;
      case Some(RotateLeft) => rotateLeft := down;
      case Some(RotateRight) => rotateRight := down;
      case None =>
    }

    /** onKeyDown: the key's flag goes up; other keys are ignored. */
    method OnKeyDown(code: string)
      modifies this`moveForward, this`moveBackward, this`strafeLeft, this`strafeRight,
               this`rotateLeft, this`rotateRight
      ensures forall i :: Holding(i) == if IntentOf(code) == Some(i) then true else old(Holding(i))
    {
      SetKey(code, true);
    }

    /** onKeyUp: the key's flag goes down; other keys are ignored. */
    method OnKeyUp(code: string)
      modifies this`moveForward, this`moveBackward, this`strafeLeft, this`strafeRight,
               this`rotateLeft, this`rotateRight
      ensures forall i :: Holding(i) == if IntentOf(code) == Some(i) then false else old(Holding(i))
    {
      SetKey(code, false);
    }

    /** updatePlayerPosition: the held intents' displacement, clamped into
        the field after summing, then the turn. `facing` is the player's
        world direction. */
    method UpdatePlayerPosition(facing: Planar)
      requires Valid()
      requires Unit(facing)
      modifies this`playerX, this`playerZ, this`yaw
      ensures Valid()
      ensures var step := Displacement(moveForward, moveBackward, strafeLeft, strafeRight, facing);
              playerX == Clamp(old(playerX) + step.x) && playerZ == Clamp(old(playerZ) + step.z)
      ensures yaw == Turned(old(yaw), rotateLeft, rotateRight)
    {
      var step := Displacement(moveForward, moveBackward, strafeLeft, strafeRight, facing);
      playerX := Clamp(playerX + step.x);
      playerZ := Clamp(playerZ + step.z);
      yaw := Turned(yaw, rotateLeft, rotateRight);
    }

    // -------------------------------------------------------------- frame

    /** One animate() frame, in the source's order: player, slow-effect
        expiry, enemies, powerups, HUD. */
    method Animate(now: int, facing: Planar, draw: SpawnDraw, sense: EnemyId -> Sense,
                   distance: Powerup -> real)
      requires Valid()
      requires Unit(facing)
      requires draw.id !in lastAttackTimes
      modifies this`playerX, this`playerZ, this`yaw, this`isSlowActive, this`slowEffectEndTime,
               this`enemies, this`particleSystems, this`systemsMade, this`lastAttackTimes,
               this`lastSpawnTime, this`playerHealth, this`events, this`powerups, this`reloadProgress
      ensures Valid()
      ensures playerHealth <= old(playerHealth)
      ensures reloadProgress == ReloadProgress(now, lastShootTime)
      ensures InField(playerX) && InField(playerZ)
    {
      UpdatePlayerPosition(facing);
      UpdateSlowEffect(now);
      assert draw.id !in lastAttackTimes && playerHealth == old(playerHealth);
      UpdateEnemies(now, draw, sense);
      assert playerHealth <= old(playerHealth);
      UpdatePowerups(now, distance);
      UpdateHud(now);
    }
  }
}
