/**
 * The records game.js keeps in its global arrays, and the list operations it
 * performs on them: `enemies.filter` in removeEnemy, and the
 * `particleSystems` registry that addSlowParticles appends to and
 * removeSlowParticles splices with findIndex.
 */
module Registry {
  import opened Rules

  /** An enemy's identity: its object reference, which is also its key in
      `lastAttackTimes`. */
  type EnemyId = nat
  /** The identity of one THREE.Points particle system. */
  type SystemId = nat

  datatype Vec3 = Vec3(x: real, y: real, z: real)

  /** The enemy's material colour: reddish-brown (0x8B3A3A) or, while the
      slow effect is on, blue (0x0000FF). */
  datatype Tint = Brown | Blue

  datatype Enemy = Enemy(id: EnemyId, pos: Vec3, tint: Tint)

  /** One `{enemy, system}` entry of `particleSystems`. */
  datatype Particles = Particles(enemy: EnemyId, system: SystemId)

  function TintFor(slow: bool): Tint { if slow then Blue else Brown }

  function Ids(es: seq<Enemy>): (ids: seq<EnemyId>)
    ensures |ids| == |es|
  {
    seq(|es|, i requires 0 <= i < |es| => es[i].id)
  }

  predicate Distinct(ids: seq<EnemyId>) {
    forall i, j :: 0 <= i < j < |ids| ==> ids[i] != ids[j]
  }

  // ---------------------------------------------------------------- enemies

  /** `enemies.filter(e => e !== enemy)`. */
  function Without(es: seq<Enemy>, id: EnemyId): (r: seq<Enemy>)
    ensures |r| <= |es|
    ensures forall e <- r :: e.id != id && e in es
  {
    if es == [] then []
    else if es[0].id == id then Without(es[1..], id)
    else [es[0]] + Without(es[1..], id)
  }

  /** Every enemy with another identity survives the filter. */
  lemma {:induction false} WithoutKeepsOthers(es: seq<Enemy>, id: EnemyId)
    ensures forall e <- es :: e.id != id ==> e in Without(es, id)
  {
    if es != [] {
      WithoutKeepsOthers(es[1..], id);
      forall e <- es | e.id != id ensures e in Without(es, id) {
        if e != es[0] {
          var k :| 0 <= k < |es| && es[k] == e;
          assert es[1..][k - 1] == e;
        }
      }
    }
  }

  /** The filter leaves a list without the identity as it is. */
  lemma {:induction false} WithoutAbsent(es: seq<Enemy>, id: EnemyId)
    requires forall k :: 0 <= k < |es| ==> es[k].id != id
    ensures Without(es, id) == es
  {
    if es != [] {
      WithoutAbsent(es[1..], id);
      assert [es[0]] + es[1..] == es;
    }
  }

  /** In a list without duplicates the head's identity does not recur,
      and the tail has no duplicates either. */
  lemma DistinctTail(es: seq<Enemy>)
    requires Distinct(Ids(es)) && es != []
    ensures forall k :: 0 <= k < |es[1..]| ==> es[1..][k].id != es[0].id
    ensures Distinct(Ids(es[1..]))
  {
    assert Ids(es[1..]) == Ids(es)[1..];
    forall k | 0 <= k < |es[1..]| ensures es[1..][k].id != es[0].id {
      assert Ids(es)[0] != Ids(es)[k + 1];
    }
  }

  /** Removing a live enemy from a list without duplicates deletes exactly
      its one occurrence: everyone else stays, in the same order. */
  lemma {:induction false} WithoutDeletesOne(es: seq<Enemy>, i: nat)
    requires Distinct(Ids(es))
    requires i < |es|
    ensures Without(es, es[i].id) == es[..i] + es[i + 1..]
  {
    var id := es[i].id;
    var tail := es[1..];
    DistinctTail(es);
    if i == 0 {
      WithoutAbsent(tail, id);
      assert es[..0] + es[1..] == tail;
    } else {
      assert tail[i - 1] == es[i];
      WithoutDeletesOne(tail, i - 1);
      assert Without(es, id) == [es[0]] + (tail[..i - 1] + tail[i..]);
      assert [es[0]] + (tail[..i - 1] + tail[i..]) == es[..i] + es[i + 1..] by {
        assert [es[0]] + tail[..i - 1] == es[..i];
        assert tail[i..] == es[i + 1..];
      }
    }
  }

  /** Removal keeps the identities of the remaining enemies distinct. */
  lemma {:induction false} WithoutKeepsDistinct(es: seq<Enemy>, id: EnemyId)
    requires Distinct(Ids(es))
    ensures Distinct(Ids(Without(es, id)))
  {
    if es != [] {
      assert Ids(es[1..]) == Ids(es)[1..];
      WithoutKeepsDistinct(es[1..], id);
      if es[0].id != id {
        var rest := Without(es[1..], id);
        var r := [es[0]] + rest;
        forall i, j | 0 <= i < j < |r| ensures Ids(r)[i] != Ids(r)[j] {
          if i == 0 {
            assert r[j] in es[1..];
            var k :| 0 <= k < |es[1..]| && es[1..][k] == r[j];
            assert Ids(es)[0] != Ids(es)[k + 1];
          } else {
            assert Ids(r)[i] == Ids(rest)[i - 1] && Ids(r)[j] == Ids(rest)[j - 1];
          }
        }
      }
    }
  }

  // ------------------------------------------------------ particle registry

  /** The entries that belong to `enemy`. */
  predicate HasParticles(ps: seq<Particles>, enemy: EnemyId) {
    exists k :: 0 <= k < |ps| && ps[k].enemy == enemy
  }

  /** `particleSystems.findIndex(ps => ps.enemy === enemy)`. */
  function FirstIndex(ps: seq<Particles>, enemy: EnemyId): (index: int)
    ensures -1 <= index < |ps|
    ensures index == -1 <==> !HasParticles(ps, enemy)
    ensures 0 <= index ==> ps[index].enemy == enemy
    ensures 0 <= index ==> forall k :: 0 <= k < index ==> ps[k].enemy != enemy
  {
    if ps == [] then -1
    else if ps[0].enemy == enemy then 0
    else
      var j := FirstIndex(ps[1..], enemy);
      assert forall k :: 1 <= k < |ps| ==> ps[k] == ps[1..][k - 1];
      if j == -1 then -1 else j + 1
  }

  /** removeSlowParticles on the registry: drop the first entry that belongs
      to `enemy`, if there is one. */
  function RemoveFirst(ps: seq<Particles>, enemy: EnemyId): (r: seq<Particles>)
    ensures |r| == if HasParticles(ps, enemy) then |ps| - 1 else |ps|
    ensures forall p <- r :: p in ps
  {
    if ps == [] then []
    else if ps[0].enemy == enemy then ps[1..]
    else
      assert HasParticles(ps, enemy) <==> HasParticles(ps[1..], enemy) by {
        assert forall k :: 1 <= k < |ps| ==> ps[k] == ps[1..][k - 1];
      }
      [ps[0]] + RemoveFirst(ps[1..], enemy)
  }

  /** RemoveFirst is the findIndex-then-splice of the source: a no-op when
      the enemy has no entry, and otherwise the deletion of exactly the
      first one, the others keeping their order. */
  lemma {:induction false} RemoveFirstIsSplice(ps: seq<Particles>, enemy: EnemyId)
    ensures var i := FirstIndex(ps, enemy);
            RemoveFirst(ps, enemy) == if i == -1 then ps else ps[..i] + ps[i + 1..]
  {
    if ps == [] {
    } else if ps[0].enemy == enemy {
      assert ps[..0] + ps[1..] == ps[1..];
    } else {
      RemoveFirstIsSplice(ps[1..], enemy);
      if FirstIndex(ps[1..], enemy) == -1 {
        SpliceMissing(ps, enemy);
      } else {
        SpliceFound(ps, enemy);
      }
    }
  }

  /** The step of RemoveFirstIsSplice when the tail has no entry. */
  lemma SpliceMissing(ps: seq<Particles>, enemy: EnemyId)
    requires ps != [] && ps[0].enemy != enemy
    requires FirstIndex(ps[1..], enemy) == -1 && RemoveFirst(ps[1..], enemy) == ps[1..]
    ensures FirstIndex(ps, enemy) == -1 && RemoveFirst(ps, enemy) == ps
  {
    assert [ps[0]] + ps[1..] == ps;
  }

  /** The step of RemoveFirstIsSplice when the tail has an entry. */
  lemma SpliceFound(ps: seq<Particles>, enemy: EnemyId)
    requires ps != [] && ps[0].enemy != enemy
    requires var j := FirstIndex(ps[1..], enemy);
             j != -1 && RemoveFirst(ps[1..], enemy) == ps[1..][..j] + ps[1..][j + 1..]
    ensures var i := FirstIndex(ps, enemy);
            i != -1 && RemoveFirst(ps, enemy) == ps[..i] + ps[i + 1..]
  {
    var j := FirstIndex(ps[1..], enemy);
    assert FirstIndex(ps, enemy) == j + 1;
    assert RemoveFirst(ps, enemy) == [ps[0]] + (ps[1..][..j] + ps[1..][j + 1..]);
    assert [ps[0]] + (ps[1..][..j] + ps[1..][j + 1..]) == ps[..j + 1] + ps[j + 2..] by {
      assert [ps[0]] + ps[1..][..j] == ps[..j + 1];
      assert ps[1..][j + 1..] == ps[j + 2..];
    }
  }

  /** A prefix with no entry for `enemy` is left alone. */
  lemma {:induction false} RemoveFirstSkips(a: seq<Particles>, b: seq<Particles>, enemy: EnemyId)
    requires !HasParticles(a, enemy)
    ensures RemoveFirst(a + b, enemy) == a + RemoveFirst(b, enemy)
  {
    if a != [] {
      assert (a + b)[0] == a[0] && a[0].enemy != enemy;
      assert (a + b)[1..] == a[1..] + b;
      assert !HasParticles(a[1..], enemy) by {
        assert forall k :: 0 <= k < |a[1..]| ==> a[1..][k] == a[k + 1];
      }
      RemoveFirstSkips(a[1..], b, enemy);
      assert RemoveFirst(a + b, enemy) == [a[0]] + RemoveFirst(a[1..] + b, enemy);
      assert [a[0]] + (a[1..] + RemoveFirst(b, enemy)) == a + RemoveFirst(b, enemy);
    } else {
      assert a + b == b;
    }
  }

  /** The entries activateSlowEffect appends: one per enemy, in the order of
      `enemies`, with the fresh particle systems base, base + 1, .... */
  function NewParticles(ids: seq<EnemyId>, base: SystemId): (r: seq<Particles>)
    ensures |r| == |ids|
  {
    seq(|ids|, i requires 0 <= i < |ids| => Particles(ids[i], base + i))
  }

  /** An activation gives every enemy an entry, names no one else, and
      attaches a distinct fresh particle system to each entry, numbered in
      order from `base`. */
  lemma NewParticlesFresh(ids: seq<EnemyId>, base: SystemId)
    ensures var r := NewParticles(ids, base);
            && (forall id <- ids :: HasParticles(r, id))
            && (forall p <- r :: p.enemy in ids && base <= p.system < base + |ids|)
            && (forall i, j :: 0 <= i < j < |r| ==> r[i].system < r[j].system)
  {
    var r := NewParticles(ids, base);
    forall id <- ids ensures HasParticles(r, id) {
      var k :| 0 <= k < |ids| && ids[k] == id;
      assert r[k].enemy == id;
    }
  }

  /** The entries `count` activations in a row append. */
  function Activations(ids: seq<EnemyId>, base: SystemId, count: nat): (r: seq<Particles>)
    ensures |r| == count * |ids|
  {
    if count == 0 then []
    else Activations(ids, base, count - 1) + NewParticles(ids, base + (count - 1) * |ids|)
  }

  /** One more activation appends one more set, numbered after the entries
      already there. */
  lemma ActivationsStep(ids: seq<EnemyId>, base: SystemId, count: nat)
    ensures Activations(ids, base, count + 1)
            == Activations(ids, base, count) + NewParticles(ids, base + |Activations(ids, base, count)|)
  {
  }

  /** The registry after updateSlowEffect has run removeSlowParticles for
      each enemy of `ids`, in order. */
  function RemoveEach(ps: seq<Particles>, ids: seq<EnemyId>): (r: seq<Particles>)
    ensures forall p <- r :: p in ps
    ensures |ps| - |ids| <= |r| <= |ps|
  {
    if ids == [] then ps
    else RemoveFirst(RemoveEach(ps, ids[..|ids| - 1]), ids[|ids| - 1])
  }

  /** Removing the first entry of `p.enemy` where it first appears right
      after a prefix without one. */
  lemma RemoveAfterPrefix(ps: seq<Particles>, p: Particles, tail: seq<Particles>)
    requires !HasParticles(ps, p.enemy)
    ensures RemoveFirst(ps + ([p] + tail), p.enemy) == ps + tail
  {
    RemoveFirstSkips(ps, [p] + tail, p.enemy);
    assert ([p] + tail)[1..] == tail;
  }

  /** Expiry undoes one activation: if the registry held no entry for the
      enemies when the effect was activated, then removing one entry per
      enemy takes away exactly the entries the activation added, whatever
      was appended after them. */
  lemma {:induction false} ExpiryRemovesOneActivation(ps: seq<Particles>, ids: seq<EnemyId>,
                                                      base: SystemId, rest: seq<Particles>)
    requires forall id <- ids :: !HasParticles(ps, id)
    ensures RemoveEach(ps + NewParticles(ids, base) + rest, ids) == ps + rest
  {
    var added := NewParticles(ids, base);
    var all := ps + added + rest;
    var j := 0;
    while j < |ids|
      invariant 0 <= j <= |ids|
      invariant RemoveEach(all, ids[..j]) == ps + (added[j..] + rest)
    {
      assert ids[..j + 1][..j] == ids[..j];
      assert added[j].enemy == ids[j] && ids[j] in ids;
      assert added[j..] + rest == [added[j]] + (added[j + 1..] + rest);
      RemoveAfterPrefix(ps, added[j], added[j + 1..] + rest);
      j := j + 1;
    }
    assert ids[..|ids|] == ids;
    assert added[|ids|..] + rest == rest;
    assert all == ps + (added[0..] + rest);
  }

  /** Reactivating before expiry leaves one entry per enemy behind: two
      activations append two entries per enemy, expiry removes one each. */
  lemma DoubleActivationLeavesOneSet(ps: seq<Particles>, ids: seq<EnemyId>, base: SystemId)
    requires forall id <- ids :: !HasParticles(ps, id)
    ensures RemoveEach(ps + Activations(ids, base, 2), ids) == ps + NewParticles(ids, base + |ids|)
  {
    assert Activations(ids, base, 1) == NewParticles(ids, base);
    assert Activations(ids, base, 2) == NewParticles(ids, base) + NewParticles(ids, base + |ids|);
    ExpiryRemovesOneActivation(ps, ids, base, NewParticles(ids, base + |ids|));
    assert ps + Activations(ids, base, 2) == ps + NewParticles(ids, base) + NewParticles(ids, base + |ids|);
  }
}
