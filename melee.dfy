/**
 * What one pass of updateEnemies' `enemies.forEach` does: enemies farther
 * than ATTACK_RANGE step towards the player, the others bite when their
 * per-enemy timer allows it (attackPlayer, gameOver, showAttackDirection).
 * The geometry (distances, directions, angles) is given per enemy by a
 * `Sense` oracle; everything timed or counted is modelled exactly.
 */
module Melee {
  import opened Rules
  import opened Registry

  /** What the vector geometry of one frame says about one enemy: its
      distance to the player, the unit vector towards the player, and the
      angle and cross-product y component showAttackDirection computes. */
  datatype Sense = Sense(distance: real, toPlayer: Vec3, angle: real, cross: real)

  /** Signals to the console, audio and HUD collaborators: a gameOver call,
      and a bite with the attack bars it flashes. */
  datatype Event = GameOver | Bite(enemy: EnemyId, bars: seq<Bar>)

  /** `!lastAttackTimes[id] || currentTime - lastAttackTimes[id] >= ATTACK_INTERVAL`:
      an absent entry and a recorded 0 are both falsy. */
  predicate AttackDue(times: map<EnemyId, int>, id: EnemyId, now: int) {
    id !in times || times[id] == 0 || now - times[id] >= AttackInterval
  }

  /** The timer test never closes again as time passes: an enemy due at
      `now` is due at every later time. A non-zero stamp opens the gate
      exactly ATTACK_INTERVAL milliseconds after it, not a millisecond
      earlier. */
  lemma AttackDueBoundary(times: map<EnemyId, int>, id: EnemyId, now: int, later: int)
    ensures AttackDue(times, id, now) && now <= later ==> AttackDue(times, id, later)
    ensures id in times ==> AttackDue(times, id, times[id] + AttackInterval)
    ensures id in times && times[id] != 0 ==> !AttackDue(times, id, times[id] + AttackInterval - 1)
  {
  }

  /** The squared length of the vector from `a` to `b`. */
  function SquaredGap(a: Vec3, b: Vec3): real {
    (b.x - a.x) * (b.x - a.x) + (b.y - a.y) * (b.y - a.y) + (b.z - a.z) * (b.z - a.z)
  }

  /** One enemy's move: a step of `speed` along the unit vector towards the
      player when it is strictly farther than ATTACK_RANGE, otherwise none.
      The enemy keeps its identity and colour, and a step along a unit
      vector has length `speed`. */
  function Moved(e: Enemy, s: Sense, speed: real): (r: Enemy)
    ensures r.id == e.id && r.tint == e.tint
    ensures s.distance <= AttackRange ==> r == e
    ensures s.distance > AttackRange && SquaredGap(Vec3(0.0, 0.0, 0.0), s.toPlayer) == 1.0
            ==> SquaredGap(e.pos, r.pos) == speed * speed
  {
    var v := s.toPlayer;
    assert SquaredGap(e.pos, Vec3(e.pos.x + speed * v.x, e.pos.y + speed * v.y, e.pos.z + speed * v.z))
           == speed * speed * SquaredGap(Vec3(0.0, 0.0, 0.0), v);
    if s.distance > AttackRange then
      e.(pos := Vec3(e.pos.x + speed * s.toPlayer.x,
                     e.pos.y + speed * s.toPlayer.y,
                     e.pos.z + speed * s.toPlayer.z))
    else e
  }

  /** The positions after the forEach. Identities, order and colours are
      kept, and an enemy within attack range does not move. */
  function Pursue(es: seq<Enemy>, sense: EnemyId -> Sense, speed: real): (r: seq<Enemy>)
    ensures |r| == |es| && Ids(r) == Ids(es)
    ensures forall i :: 0 <= i < |es| ==> r[i].tint == es[i].tint
    ensures forall i :: 0 <= i < |es| && sense(es[i].id).distance <= AttackRange ==> r[i] == es[i]
    ensures forall i :: 0 <= i < |es| && sense(es[i].id).distance > AttackRange ==>
              var v := sense(es[i].id).toPlayer;
              r[i].pos == Vec3(es[i].pos.x + speed * v.x, es[i].pos.y + speed * v.y, es[i].pos.z + speed * v.z)
  {
    seq(|es|, i requires 0 <= i < |es| => Moved(es[i], sense(es[i].id), speed))
  }

  /** The melee bookkeeping updateEnemies touches. */
  datatype Combat = Combat(health: int, times: map<EnemyId, int>, events: seq<Event>)

  /** attackPlayer (health down by one, gameOver when it is at most 0, then
      the bite with its attack bars), followed by the time stamp. */
  function Attack(c: Combat, id: EnemyId, s: Sense, now: int): (r: Combat)
    ensures r.health == c.health - 1
    ensures id in r.times && r.times[id] == now
    ensures forall other :: other != id ==> (other in r.times <==> other in c.times)
    ensures forall other :: other in c.times && other != id ==> r.times[other] == c.times[other]
    ensures |c.events| < |r.events| && r.events[..|c.events|] == c.events
    ensures r.events[|r.events| - 1] == Bite(id, AttackBars(s.angle, s.cross))
  {
    var health := c.health - 1;
    Combat(health, c.times[id := now],
           c.events + (if health <= 0 then [GameOver] else []) + [Bite(id, AttackBars(s.angle, s.cross))])
  }

  /** One iteration of the forEach, as far as melee is concerned: the enemy
      bites, once, exactly when it is in range and its timer allows it. */
  function Step(c: Combat, id: EnemyId, s: Sense, now: int): (r: Combat)
    ensures r.health == c.health - 1 <==> s.distance <= AttackRange && AttackDue(c.times, id, now)
    ensures r.health == c.health || r.health == c.health - 1
    ensures r.health == c.health ==> r == c
  {
    if s.distance <= AttackRange && AttackDue(c.times, id, now) then Attack(c, id, s, now) else c
  }

  /** The whole forEach over the enemies `ids`, in order. */
  function Round(c: Combat, ids: seq<EnemyId>, sense: EnemyId -> Sense, now: int): (r: Combat)
    ensures r.health <= c.health
    ensures c.times.Keys <= r.times.Keys
  {
    if ids == [] then c
    else
      var last := ids[|ids| - 1];
      Step(Round(c, ids[..|ids| - 1], sense, now), last, sense(last), now)
  }

  /** The enemies that bite this frame, judged against the time stamps the
      frame started with. */
  function Attackers(times: map<EnemyId, int>, ids: seq<EnemyId>, sense: EnemyId -> Sense, now: int)
    : (a: seq<EnemyId>)
    ensures |a| <= |ids|
    ensures forall id :: id in a <==> id in ids && sense(id).distance <= AttackRange && AttackDue(times, id, now)
    ensures Distinct(ids) ==> Distinct(a)
  {
    if ids == [] then []
    else
      var prefix := ids[..|ids| - 1];
      var last := ids[|ids| - 1];
      assert ids == prefix + [last];
      var a' := Attackers(times, prefix, sense, now);
      assert Distinct(ids) ==> Distinct(prefix) && last !in prefix by {
        if Distinct(ids) {
          assert forall k :: 0 <= k < |prefix| ==> prefix[k] == ids[k];
        }
      }
      a' + if sense(last).distance <= AttackRange && AttackDue(times, last, now) then [last] else []
  }

  /** The number of gameOver calls in a list of signals. */
  function GameOvers(events: seq<Event>): nat {
    if events == [] then 0
    else GameOvers(events[..|events| - 1]) + if events[|events| - 1].GameOver? then 1 else 0
  }

  /** How many gameOver calls a drop of health from `before` to `after`
      makes, one attack at a time: one for every attack that leaves the
      health at or below 0, not just the first. */
  function GameOverCount(before: int, after: int): int {
    if after > 0 then 0 else if before > 0 then 1 - after else before - after
  }

  /** One bite adds one gameOver call exactly when it leaves the health at
      or below 0. */
  lemma AttackSignals(c: Combat, id: EnemyId, s: Sense, now: int)
    ensures GameOvers(Attack(c, id, s, now).events)
            == GameOvers(c.events) + if c.health - 1 <= 0 then 1 else 0
  {
    var r := Attack(c, id, s, now);
    var mid := c.events + (if c.health - 1 <= 0 then [GameOver] else []);
    assert r.events[..|r.events| - 1] == mid;
    if c.health - 1 <= 0 {
      assert mid[..|mid| - 1] == c.events;
    } else {
      assert mid == c.events;
    }
  }

  /** Every bite of a forEach that leaves the health at or below 0 calls
      gameOver, not just the first one. */
  lemma {:induction false} RoundGameOvers(c: Combat, ids: seq<EnemyId>, sense: EnemyId -> Sense, now: int)
    ensures var r := Round(c, ids, sense, now);
            GameOvers(r.events) == GameOvers(c.events) + GameOverCount(c.health, r.health)
  {
    if ids != [] {
      var prefix := ids[..|ids| - 1];
      var last := ids[|ids| - 1];
      RoundGameOvers(c, prefix, sense, now);
      var r' := Round(c, prefix, sense, now);
      if sense(last).distance <= AttackRange && AttackDue(r'.times, last, now) {
        AttackSignals(r', last, sense(last), now);
      }
    }
  }

  /** The outcome of a forEach over enemies with distinct identities: every
      enemy in range whose timer has run out bites exactly once, health
      drops by one per bite, the biters' time stamps become `now` and no
      other stamp changes. */
  lemma {:induction false} RoundOutcome(c: Combat, ids: seq<EnemyId>, sense: EnemyId -> Sense, now: int)
    requires Distinct(ids)
    ensures var a := Attackers(c.times, ids, sense, now);
            var r := Round(c, ids, sense, now);
            && r.health == c.health - |a|
            && (forall id :: id in r.times <==> id in c.times || id in a)
            && (forall id :: id in r.times ==> r.times[id] == if id in a then now else c.times[id])
  {
    if ids != [] {
      var prefix := ids[..|ids| - 1];
      var last := ids[|ids| - 1];
      assert Distinct(prefix);
      RoundOutcome(c, prefix, sense, now);
      var a' := Attackers(c.times, prefix, sense, now);
      assert forall k :: 0 <= k < |prefix| ==> prefix[k] == ids[k] != ids[|ids| - 1];
      assert last !in a';
    }
  }

  /** Melee gating: an enemy that bit at `now` (a non-zero time) cannot bite
      again until ATTACK_INTERVAL milliseconds later. */
  lemma MeleeGate(c: Combat, ids: seq<EnemyId>, sense: EnemyId -> Sense, now: int, later: int, id: EnemyId)
    requires Distinct(ids)
    requires id in Attackers(c.times, ids, sense, now)
    requires now != 0 && later - now < AttackInterval
    ensures !AttackDue(Round(c, ids, sense, now).times, id, later)
  {
    RoundOutcome(c, ids, sense, now);
  }

  /** A bite at time 0 is recorded as 0, which the falsy test reads as "never
      bitten": that enemy may bite again on the very next frame. */
  lemma StampZeroIsForgotten(c: Combat, id: EnemyId, s: Sense, later: int)
    requires s.distance <= AttackRange && AttackDue(c.times, id, 0)
    ensures AttackDue(Step(c, id, s, 0).times, id, later)
  {
  }
}
