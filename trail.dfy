/** Shot trails: the short-lived scene nodes a shot leaves behind. Each trail
    ages by the frame time, fades linearly over its maximum lifetime and is
    removed, together with its scene node, once that lifetime is used up. The
    colour write that applies the fade belongs to rendering and is outside the
    model; the scene's node removal is returned as the list of removed nodes. */
module Trails {
  import opened Common

  datatype ShotTrail = ShotTrail(node: Handle, lifetime: real, maxLifetime: real)

  /** `ShotTrail::new`: a trail that has not aged yet. */
  function NewTrail(node: Handle, maxLifetime: real): (t: ShotTrail)
    ensures t.node == node && t.maxLifetime == maxLifetime
    ensures t.lifetime == 0.0
    ensures maxLifetime > 0.0 ==> Alive(t)
  {
    ShotTrail(node, 0.0, maxLifetime)
  }

  /** A trail whose lifetime is not used up yet; `update` keeps exactly these. */
  predicate Alive(t: ShotTrail) {
    t.lifetime < t.maxLifetime
  }

  /** A trail's lifetime lies between zero and its maximum. */
  predicate WellAged(t: ShotTrail) {
    0.0 <= t.lifetime <= t.maxLifetime
  }

  /** One frame of ageing: the lifetime grows by `dt` but never beyond the
      maximum. Node and maximum stay as they are. */
  function Aged(t: ShotTrail, dt: real): (r: ShotTrail)
    ensures r.node == t.node && r.maxLifetime == t.maxLifetime
    ensures r.lifetime <= t.maxLifetime
    ensures t.lifetime + dt <= t.maxLifetime ==> r.lifetime == t.lifetime + dt
    ensures t.lifetime + dt >= t.maxLifetime ==> r.lifetime == t.maxLifetime && !Alive(r)
  {
    var grown := t.lifetime + dt;
    t.(lifetime := if grown < t.maxLifetime then grown else t.maxLifetime)
  }

  /** The fade factor `1 - lifetime / max_lifetime` that sets the trail's alpha. */
  function Fade(t: ShotTrail): (k: real)
    requires t.maxLifetime > 0.0
    ensures WellAged(t) ==> 0.0 <= k <= 1.0
    ensures k == 0.0 <==> t.lifetime == t.maxLifetime
    ensures k == 1.0 <==> t.lifetime == 0.0
  {
    1.0 - t.lifetime / t.maxLifetime
  }

  /** Ageing never takes a trail out of the range from zero to its maximum for a
      non-negative frame time. */
  lemma AgedStaysWellAged(t: ShotTrail, dt: real)
    requires WellAged(t) && dt >= 0.0
    ensures WellAged(Aged(t, dt))
  {
  }

  /** A trail that has not reached its maximum fades as it ages: a later frame
      gives a smaller fade factor until it reaches zero and the trail is removed. */
  lemma {:induction false} FadeDecreases(t: ShotTrail, dt: real)
    requires WellAged(t) && t.maxLifetime > 0.0 && dt > 0.0 && Alive(t)
    ensures Fade(Aged(t, dt)) < Fade(t)
    ensures Fade(Aged(t, dt)) == 0.0 <==> !Alive(Aged(t, dt))
  {
    var r := Aged(t, dt);
    assert r.lifetime > t.lifetime;
    assert r.lifetime / t.maxLifetime > t.lifetime / t.maxLifetime by {
      var d := r.lifetime / t.maxLifetime - t.lifetime / t.maxLifetime;
      assert d * t.maxLifetime == r.lifetime - t.lifetime;
    }
  }

  // ---------------------------------------------------------------------------
  // The container update, as functions of the old trails

  /** The first `n` trails after one frame, without those whose lifetime is used
      up, in their old order. */
  function Survivors(ts: seq<ShotTrail>, n: nat, dt: real): seq<ShotTrail>
    requires n <= |ts|
  {
    if n == 0 then []
    else
      var t := Aged(ts[n - 1], dt);
      Survivors(ts, n - 1, dt) + (if Alive(t) then [t] else [])
  }

  /** The scene nodes of the first `n` trails whose lifetime is used up in this
      frame, in order. */
  function Expired(ts: seq<ShotTrail>, n: nat, dt: real): seq<Handle>
    requires n <= |ts|
  {
    if n == 0 then []
    else
      var t := Aged(ts[n - 1], dt);
      Expired(ts, n - 1, dt) + (if Alive(t) then [] else [t.node])
  }

  /** The positions among the first `n` trails of those that survive the frame. */
  function SurvivorIndices(ts: seq<ShotTrail>, n: nat, dt: real): seq<nat>
    requires n <= |ts|
  {
    if n == 0 then []
    else SurvivorIndices(ts, n - 1, dt) + (if Alive(Aged(ts[n - 1], dt)) then [n - 1] else [])
  }

  /** Every trail is either kept or has its node removed, never both: the kept
      and removed counts add up to the trails examined. */
  lemma {:induction false} SurvivorsAndExpiredPartition(ts: seq<ShotTrail>, n: nat, dt: real)
    requires n <= |ts|
    ensures |Survivors(ts, n, dt)| + |Expired(ts, n, dt)| == n
  {
    if n > 0 {
      SurvivorsAndExpiredPartition(ts, n - 1, dt);
    }
  }

  /** The survivors are exactly the aged trails that are still alive, taken at
      strictly increasing positions, so they keep their relative order and no
      other trail appears among them; a trail at any other position has used up
      its lifetime. */
  lemma {:induction false} SurvivorsKeepOrder(ts: seq<ShotTrail>, n: nat, dt: real)
    requires n <= |ts|
    ensures var kept := Survivors(ts, n, dt);
            var idx := SurvivorIndices(ts, n, dt);
            && |idx| == |kept|
            && (forall j :: 0 <= j < |idx| ==> idx[j] < n && kept[j] == Aged(ts[idx[j]], dt))
            && (forall j, j' :: 0 <= j < j' < |idx| ==> idx[j] < idx[j'])
            && (forall j :: 0 <= j < |kept| ==> Alive(kept[j]))
            && (forall i :: 0 <= i < n && i !in idx ==> !Alive(Aged(ts[i], dt)))
  {
    if n > 0 {
      SurvivorsKeepOrder(ts, n - 1, dt);
    }
  }

  /** A trail is kept exactly when its aged lifetime is below its maximum, and its
      node is removed exactly when it is not kept. */
  lemma {:induction false} KeptIffAlive(ts: seq<ShotTrail>, n: nat, dt: real, i: nat)
    requires i < n <= |ts|
    ensures Alive(Aged(ts[i], dt)) ==> Aged(ts[i], dt) in Survivors(ts, n, dt)
    ensures !Alive(Aged(ts[i], dt)) ==> ts[i].node in Expired(ts, n, dt)
  {
    if i < n - 1 {
      KeptIffAlive(ts, n - 1, dt, i);
    }
  }

  /** For a non-negative frame time, trails whose lifetimes lie between zero and
      their maxima keep doing so. */
  lemma {:induction false} SurvivorsStayWellAged(ts: seq<ShotTrail>, n: nat, dt: real)
    requires n <= |ts| && dt >= 0.0
    requires forall i :: 0 <= i < |ts| ==> WellAged(ts[i])
    ensures forall j :: 0 <= j < |Survivors(ts, n, dt)| ==> WellAged(Survivors(ts, n, dt)[j])
  {
    if n > 0 {
      SurvivorsStayWellAged(ts, n - 1, dt);
      AgedStaysWellAged(ts[n - 1], dt);
    }
  }

  /** A trail with a 0.5 s maximum lasts through a 0.3 s frame and is removed
      after the next one; a trail with a zero maximum is removed in its first
      frame. */
  lemma TrailScenario()
    ensures var ts := [NewTrail(7, 0.5), NewTrail(8, 0.0)];
            && Survivors(ts, 2, 0.3) == [ShotTrail(7, 0.3, 0.5)]
            && Expired(ts, 2, 0.3) == [8]
            && Survivors(Survivors(ts, 2, 0.3), 1, 0.3) == []
            && Expired(Survivors(ts, 2, 0.3), 1, 0.3) == [7]
  {
  }

  // ---------------------------------------------------------------------------
  // The container

  /** `ShotTrailContainer`: the live trails, oldest first. */
  class ShotTrailContainer {
    var trails: seq<ShotTrail>

    constructor ()
      ensures trails == []
    {
      trails := [];
    }

    /** `add`: appends a trail after the ones already there. */
    method Add(trail: ShotTrail)
      modifies this
      ensures trails == old(trails) + [trail]
    {
      trails := trails + [trail];
    }

    /** `update`: ages every trail by `dt`, removes from the scene the node of each
        trail whose lifetime is used up, and keeps the others in their order.
        `removed` lists the removed nodes in the order they were removed. */
    method Update(dt: real) returns (removed: seq<Handle>)
      modifies this
      ensures trails == Survivors(old(trails), |old(trails)|, dt)
      ensures removed == Expired(old(trails), |old(trails)|, dt)
    {
      var kept: seq<ShotTrail> := [];
      removed := [];
      for i := 0 to |trails|
        invariant kept == Survivors(trails, i, dt)
        invariant removed == Expired(trails, i, dt)
      {
        var trail := trails[i];
        trail := trail.(lifetime := if trail.lifetime + dt < trail.maxLifetime
                                    then trail.lifetime + dt else trail.maxLifetime);
        if trail.lifetime >= trail.maxLifetime {
          removed := removed + [trail.node];
        }
        if trail.lifetime < trail.maxLifetime {
          kept := kept + [trail];
        }
      }
      trails := kept;
    }
  }

  /** Adding a trail and running a frame treats the new trail like the old ones:
      the old trails' survivors come first, then the new trail if it survives. */
  lemma SurvivorsAfterAdd(ts: seq<ShotTrail>, trail: ShotTrail, dt: real)
    ensures Survivors(ts + [trail], |ts| + 1, dt)
            == Survivors(ts, |ts|, dt) + (if Alive(Aged(trail, dt)) then [Aged(trail, dt)] else [])
  {
    var ts' := ts + [trail];
    assert ts'[..|ts|] == ts;
    SurvivorsOfPrefix(ts', |ts|, dt);
  }

  /** The survivors of the first `n` trails depend only on those trails. */
  lemma {:induction false} SurvivorsOfPrefix(ts: seq<ShotTrail>, n: nat, dt: real)
    requires n <= |ts|
    ensures Survivors(ts[..n], n, dt) == Survivors(ts, n, dt)
    decreases n
  {
    if n > 0 {
      assert ts[..n][..n - 1] == ts[..n - 1];
      SurvivorsOfPrefix(ts[..n], n - 1, dt);
      SurvivorsOfPrefix(ts, n - 1, dt);
    }
  }
}
