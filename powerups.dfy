/**
 * The powerup list of updatePowerups: `powerups.forEach((powerup, index) =>
 * ... powerups.splice(index, 1) ...)`. Array.prototype.forEach visits slots
 * 0, 1, 2, ... of the live array; a splice shifts the next powerup into the
 * slot just visited, so that powerup is never looked at in this frame.
 * The distance from the player to a powerup is given by an oracle.
 */
module Powerups {
  import opened Rules

  /** A powerup, by its position on the ground (x, z). */
  datatype Powerup = Powerup(x: real, z: real)

  /** The collision test: strictly closer than the pickup distance. */
  predicate Collected(p: Powerup, distance: Powerup -> real) {
    distance(p) < PickupDistance
  }

  /** The pickup test is strict: a powerup exactly PickupDistance away is
      not collected, and any powerup closer than a collected one is. */
  lemma PickupBoundary(p: Powerup, q: Powerup, distance: Powerup -> real)
    ensures distance(p) == PickupDistance ==> !Collected(p, distance)
    ensures Collected(p, distance) && distance(q) <= distance(p) ==> Collected(q, distance)
  {
  }

  /** The list left by a forEach that has reached slot `k` of the live array
      `s`: visit slot k if it still exists, splice it out if collected, and go
      on with slot k + 1 either way. */
  function ForEachFrom(s: seq<Powerup>, k: nat, distance: Powerup -> real): (r: seq<Powerup>)
    ensures |r| <= |s|
    decreases |s| - k + 1
  {
    if k >= |s| then s
    else if Collected(s[k], distance) then ForEachFrom(s[..k] + s[k + 1..], k + 1, distance)
    else ForEachFrom(s, k + 1, distance)
  }

  /** The same outcome stated on the original list: a collected powerup is
      removed and the one right after it is kept without being tested. */
  function Sweep(s: seq<Powerup>, distance: Powerup -> real): (r: seq<Powerup>)
    ensures |r| <= |s|
    ensures |r| == |s| <==> forall k :: 0 <= k < |s| ==> !Collected(s[k], distance)
  {
    if s == [] then []
    else if Collected(s[0], distance) then
      (if |s| == 1 then [] else [s[1]] + Sweep(s[2..], distance))
    else
      assert forall k :: 1 <= k < |s| ==> s[k] == s[1..][k - 1];
      [s[0]] + Sweep(s[1..], distance)
  }

  /** The sweep only removes powerups, and every powerup out of reach stays. */
  lemma {:induction false} SweepKeeps(s: seq<Powerup>, distance: Powerup -> real)
    ensures forall p <- Sweep(s, distance) :: p in s
    ensures forall p <- s :: !Collected(p, distance) ==> p in Sweep(s, distance)
  {
    if s != [] {
      if Collected(s[0], distance) {
        if |s| > 1 {
          SweepKeeps(s[2..], distance);
          assert forall p <- s[2..] :: p in s;
          assert forall p <- s :: p == s[0] || p == s[1] || p in s[2..] by {
            assert s == [s[0], s[1]] + s[2..];
          }
        }
      } else {
        SweepKeeps(s[1..], distance);
        assert s == [s[0]] + s[1..];
      }
    }
  }

  /** One visit of a collected slot k: the powerup is spliced out, the
      forEach moves on to slot k + 1 of the shortened list, and the sweep
      keeps the successor untested. */
  lemma CollectedSlot(t: seq<Powerup>, k: nat, distance: Powerup -> real)
    requires k + 1 < |t| && Collected(t[k], distance)
    ensures var t' := t[..k] + t[k + 1..];
            && ForEachFrom(t, k, distance) == ForEachFrom(t', k + 1, distance)
            && t'[..k + 1] == t[..k] + [t[k + 1]] && t'[k + 1..] == t[k + 2..]
    ensures Sweep(t[k..], distance) == [t[k + 1]] + Sweep(t[k + 2..], distance)
  {
    assert t[k..][0] == t[k] && t[k..][1] == t[k + 1] && t[k..][2..] == t[k + 2..];
  }

  /** One visit of a slot k out of reach: the forEach moves on to slot
      k + 1 of the same list, and the sweep keeps the powerup. */
  lemma KeptSlot(t: seq<Powerup>, k: nat, distance: Powerup -> real)
    requires k < |t| && !Collected(t[k], distance)
    ensures ForEachFrom(t, k, distance) == ForEachFrom(t, k + 1, distance)
    ensures Sweep(t[k..], distance) == [t[k]] + Sweep(t[k + 1..], distance)
    ensures t[..k + 1] == t[..k] + [t[k]]
  {
    assert t[k..][0] == t[k] && t[k..][1..] == t[k + 1..];
  }

  /** The forEach that has reached slot `k` has left the visited slots
      alone and sweeps the rest: a collected powerup is spliced out and its
      successor slides into the slot just visited. */
  lemma {:induction false} ForEachFromIsSweep(t: seq<Powerup>, k: nat, distance: Powerup -> real)
    requires k <= |t|
    ensures ForEachFrom(t, k, distance) == t[..k] + Sweep(t[k..], distance)
    decreases |t| - k
  {
    if k == |t| {
      assert t[..k] == t && t[k..] == [];
    } else if Collected(t[k], distance) && k == |t| - 1 {
      assert t[k..] == [t[k]];
      assert ForEachFrom(t, k, distance) == t[..k] + t[k + 1..] == t[..k];
    } else if Collected(t[k], distance) {
      var t' := t[..k] + t[k + 1..];
      CollectedSlot(t, k, distance);
      ForEachFromIsSweep(t', k + 1, distance);
      var rest := Sweep(t[k + 2..], distance);
      assert t[..k] + [t[k + 1]] + rest == t[..k] + ([t[k + 1]] + rest);
    } else {
      KeptSlot(t, k, distance);
      ForEachFromIsSweep(t, k + 1, distance);
      var rest := Sweep(t[k + 1..], distance);
      assert t[..k] + [t[k]] + rest == t[..k] + ([t[k]] + rest);
    }
  }

  /** The whole forEach, from slot 0, is the sweep. */
  lemma ForEachIsSweep(s: seq<Powerup>, distance: Powerup -> real)
    ensures ForEachFrom(s, 0, distance) == Sweep(s, distance)
  {
    ForEachFromIsSweep(s, 0, distance);
    assert s[..0] == [] && s[0..] == s;
  }

  /** Two collectible powerups next to each other in the list: only the
      first is picked up this frame, although both are within reach. */
  lemma AdjacentPickupSkipped(a: Powerup, b: Powerup, distance: Powerup -> real)
    requires Collected(a, distance) && Collected(b, distance)
    ensures Sweep([a, b], distance) == [b]
  {
  }

  /** The intended outcome: every powerup within reach is removed. */
  function Uncollected(s: seq<Powerup>, distance: Powerup -> real): (r: seq<Powerup>)
    ensures forall p <- r :: p in s && !Collected(p, distance)
    ensures forall p <- s :: !Collected(p, distance) ==> p in r
  {
    if s == [] then []
    else (if Collected(s[0], distance) then [] else [s[0]]) + Uncollected(s[1..], distance)
  }

  /** No collected powerup is directly followed by another collectible one. */
  predicate NoAdjacentPickups(s: seq<Powerup>, distance: Powerup -> real) {
    forall i :: 0 <= i < |s| - 1 && Collected(s[i], distance) ==> !Collected(s[i + 1], distance)
  }

  /** When no two collectible powerups are adjacent, the forEach removes
      exactly the ones within reach, as the loop's authors meant it to. */
  lemma {:induction false} SweepWithoutAdjacentPickups(s: seq<Powerup>, distance: Powerup -> real)
    requires NoAdjacentPickups(s, distance)
    ensures Sweep(s, distance) == Uncollected(s, distance)
  {
    if s != [] {
      if Collected(s[0], distance) && |s| > 1 {
        assert !Collected(s[1], distance);
        assert NoAdjacentPickups(s[2..], distance) by {
          forall i | 0 <= i < |s[2..]| - 1 && Collected(s[2..][i], distance)
            ensures !Collected(s[2..][i + 1], distance)
          {
            assert s[2..][i] == s[i + 2] && s[2..][i + 1] == s[i + 3];
          }
        }
        SweepWithoutAdjacentPickups(s[2..], distance);
        assert s[1..][1..] == s[2..];
        assert Uncollected(s[1..], distance) == [s[1]] + Uncollected(s[2..], distance);
      } else if |s| > 1 {
        assert NoAdjacentPickups(s[1..], distance) by {
          forall i | 0 <= i < |s[1..]| - 1 && Collected(s[1..][i], distance)
            ensures !Collected(s[1..][i + 1], distance)
          {
            assert s[1..][i] == s[i + 1] && s[1..][i + 1] == s[i + 2];
          }
        }
        SweepWithoutAdjacentPickups(s[1..], distance);
      }
    }
  }
}
