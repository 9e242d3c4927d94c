/** Hit-scan attribution (`ray_hit`). The physics ray cast itself is outside the
    model: its result arrives as the distance-sorted list of intersections. From
    that list the nearest intersection whose collider is not the ignored one is
    the candidate; the candidate is attributed to the first actor, in container
    order, that owns a hit-box with the candidate's collider and is not the
    shooter, reported as an environment hit when no hit-box matches at all, and
    suppressed when only the shooter's own hit-boxes match. */
module HitScan {
  import opened Common

  datatype Intersection = Intersection(collider: Handle, position: Vec3, normal: Vec3, feature: int)

  /** A hit-box: its collider, plus an opaque tag for the body part it belongs to. */
  datatype HitBox = HitBox(part: int, collider: Handle)

  /** One entry of the actor container, in iteration order. */
  datatype ActorEntry = ActorEntry(handle: Handle, hitBoxes: seq<HitBox>)

  datatype Hit = Hit(
    actor: Handle,      // NONE when level geometry was hit
    who: Handle,
    position: Vec3,
    normal: Vec3,
    collider: Handle,
    feature: int,
    hitBox: Option<HitBox>,
    queryBuffer: seq<Intersection>)

  // ---------------------------------------------------------------------------
  // Specification

  /** The index of the first intersection at or after `i` whose collider is not
      `ignored`. */
  function FirstUsableFrom(buf: seq<Intersection>, ignored: Handle, i: nat): (r: Option<nat>)
    requires i <= |buf|
    ensures r.Some? ==> i <= r.value < |buf| && buf[r.value].collider != ignored
    ensures r.Some? ==> forall m :: i <= m < r.value ==> buf[m].collider == ignored
    ensures r.None? ==> forall m :: i <= m < |buf| ==> buf[m].collider == ignored
    decreases |buf| - i
  {
    if i == |buf| then None
    else if buf[i].collider != ignored then Some(i)
    else FirstUsableFrom(buf, ignored, i + 1)
  }

  /** The candidate intersection: the nearest one not on the ignored collider. */
  function Candidate(buf: seq<Intersection>, ignored: Handle): Option<nat> {
    FirstUsableFrom(buf, ignored, 0)
  }

  /** The index of the first hit-box at or after `j` whose collider is `c`. */
  function FirstBoxFrom(boxes: seq<HitBox>, c: Handle, j: nat): (r: Option<nat>)
    requires j <= |boxes|
    ensures r.Some? ==> j <= r.value < |boxes| && boxes[r.value].collider == c
    ensures r.Some? ==> forall m :: j <= m < r.value ==> boxes[m].collider != c
    ensures r.None? ==> forall m :: j <= m < |boxes| ==> boxes[m].collider != c
    decreases |boxes| - j
  {
    if j == |boxes| then None
    else if boxes[j].collider == c then Some(j)
    else FirstBoxFrom(boxes, c, j + 1)
  }

  /** The actor owns a hit-box whose collider is `c`. */
  predicate HasBox(e: ActorEntry, c: Handle) {
    exists m :: 0 <= m < |e.hitBoxes| && e.hitBoxes[m].collider == c
  }

  /** The shooter can be resolved: a weapon shooter names a live weapon. */
  predicate Resolvable(shooter: Shooter, owners: map<Handle, Handle>) {
    shooter.WeaponShooter? ==> shooter.weapon in owners
  }

  /** The shooter's identity as an actor handle; `owners` maps each live weapon to
      its owner. A weapon shooter whose weapon is gone resolves to no actor, like
      a turret. */
  function Who(shooter: Shooter, owners: map<Handle, Handle>): (who: Handle)
    ensures shooter.ActorShooter? ==> who == shooter.actor
    ensures shooter.WeaponShooter? && shooter.weapon in owners ==> who == owners[shooter.weapon]
    ensures shooter.NoShooter? || shooter.TurretShooter? || !Resolvable(shooter, owners) ==> who == NONE
  {
    match shooter
    case NoShooter => NONE
    case TurretShooter(_) => NONE
    case ActorShooter(a) => a
    case WeaponShooter(w) => if w in owners then owners[w] else NONE
  }

  /** Outcome of the actor scan: no hit-box matched, only the shooter's own
      hit-boxes matched, or actor `index` was hit on its hit-box `boxIndex`. */
  datatype Scan = NoHitBox | OwnerOnly | Attributed(index: nat, boxIndex: nat)

  /** The actor scan from actor `i` on; `seen` records that an earlier actor (the
      shooter itself) already had a matching hit-box. */
  function ScanFrom(actors: seq<ActorEntry>, c: Handle, who: Handle, i: nat, seen: bool): (r: Scan)
    requires i <= |actors|
    ensures r.NoHitBox? ==> !seen && forall m :: i <= m < |actors| ==> !HasBox(actors[m], c)
    ensures r.OwnerOnly? ==>
              forall m :: i <= m < |actors| && HasBox(actors[m], c) ==> actors[m].handle == who
    ensures r.OwnerOnly? ==>
              seen || exists m :: i <= m < |actors| && HasBox(actors[m], c) && actors[m].handle == who
    ensures r.Attributed? ==>
              && i <= r.index < |actors|
              && actors[r.index].handle != who
              && r.boxIndex < |actors[r.index].hitBoxes|
              && actors[r.index].hitBoxes[r.boxIndex].collider == c
              && (forall b :: 0 <= b < r.boxIndex ==> actors[r.index].hitBoxes[b].collider != c)
              && (forall m :: i <= m < r.index && HasBox(actors[m], c) ==> actors[m].handle == who)
    decreases |actors| - i
  {
    if i == |actors| then
      (if seen then OwnerOnly else NoHitBox)
    else
      match FirstBoxFrom(actors[i].hitBoxes, c, 0)
      case None => ScanFrom(actors, c, who, i + 1, seen)
      case Some(b) =>
        if actors[i].handle == who then ScanFrom(actors, c, who, i + 1, true)
        else Attributed(i, b)
  }

  /** `ray_hit`, given the sorted intersections of the cast. */
  function RayHit(buf: seq<Intersection>, ignored: Handle, shooter: Shooter,
                  owners: map<Handle, Handle>, actors: seq<ActorEntry>): (r: Option<Hit>)
    ensures Candidate(buf, ignored).None? ==> r.None?
    ensures r.Some? ==> r.value.queryBuffer == buf && r.value.collider != ignored
    ensures r.Some? && r.value.hitBox.Some? ==> r.value.actor != r.value.who
    ensures r.Some? && r.value.hitBox.None? ==> r.value.actor == NONE && r.value.who == NONE
  {
    match Candidate(buf, ignored)
    case None => None
    case Some(k) =>
      var hit := buf[k];
      var who := Who(shooter, owners);
      match ScanFrom(actors, hit.collider, who, 0, false)
      case Attributed(a, b) =>
        Some(Hit(actors[a].handle, who, hit.position, hit.normal, hit.collider, hit.feature,
                 Some(actors[a].hitBoxes[b]), buf))
      case OwnerOnly => None
      case NoHitBox =>
        Some(Hit(NONE, NONE, hit.position, hit.normal, hit.collider, hit.feature, None, buf))
  }

  // ---------------------------------------------------------------------------
  // The search as the source writes it: a `find`, then labelled nested loops
  // with an early return.

  method RayHitSearch(buf: seq<Intersection>, ignored: Handle, shooter: Shooter,
                      owners: map<Handle, Handle>, actors: seq<ActorEntry>)
    returns (r: Option<Hit>)
    ensures r == RayHit(buf, ignored, shooter, owners, actors)
  {
    var k := 0;
    while k < |buf| && buf[k].collider == ignored
      invariant k <= |buf|
      invariant FirstUsableFrom(buf, ignored, k) == Candidate(buf, ignored)
    {
      k := k + 1;
    }
    if k == |buf| {
      return None;
    }
    var hit := buf[k];
    ghost var who0 := Who(shooter, owners);
    var isHitboxHit := false;

    label ActorLoop:
    for i := 0 to |actors|
      invariant ScanFrom(actors, hit.collider, who0, i, isHitboxHit)
                == ScanFrom(actors, hit.collider, who0, 0, false)
    {
      var boxes := actors[i].hitBoxes;
      for j := 0 to |boxes|
        invariant FirstBoxFrom(boxes, hit.collider, j) == FirstBoxFrom(boxes, hit.collider, 0)
      {
        if boxes[j].collider == hit.collider {
          isHitboxHit := true;
          var who := Who(shooter, owners);
          // Ignore intersections with the shooter's own hit-boxes.
          if who == actors[i].handle {
            continue ActorLoop;
          }
          return Some(Hit(actors[i].handle, who, hit.position, hit.normal, hit.collider,
                          hit.feature, Some(boxes[j]), buf));
        }
      }
    }

    if isHitboxHit {
      r := None;
    } else {
      r := Some(Hit(NONE, NONE, hit.position, hit.normal, hit.collider, hit.feature, None, buf));
    }
  }

  // ---------------------------------------------------------------------------
  // Properties

  /** No usable intersection (an empty buffer, or only the ignored collider) means
      no hit; otherwise any hit reports the candidate intersection and carries
      the whole buffer. */
  lemma CandidateIsNearestUsable(buf: seq<Intersection>, ignored: Handle, shooter: Shooter,
                                 owners: map<Handle, Handle>, actors: seq<ActorEntry>)
    ensures (forall m :: 0 <= m < |buf| ==> buf[m].collider == ignored) ==>
              RayHit(buf, ignored, shooter, owners, actors) == None
    ensures RayHit(buf, ignored, shooter, owners, actors).Some? ==>
              var h := RayHit(buf, ignored, shooter, owners, actors).value;
              exists k :: 0 <= k < |buf|
                && buf[k].collider != ignored
                && (forall m :: 0 <= m < k ==> buf[m].collider == ignored)
                && h.collider == buf[k].collider && h.position == buf[k].position
                && h.normal == buf[k].normal && h.feature == buf[k].feature
                && h.queryBuffer == buf
  {
    var c := Candidate(buf, ignored);
    if c.Some? {
      assert buf[c.value].collider != ignored;
    }
  }

  /** An actor-attributed hit never names the shooter as the struck actor, names
      a hit-box the struck actor owns, and that hit-box's collider is the hit
      collider. A hit without a hit-box names no actor and no shooter. */
  lemma AttributedHitIsSound(buf: seq<Intersection>, ignored: Handle, shooter: Shooter,
                             owners: map<Handle, Handle>, actors: seq<ActorEntry>)
    ensures match RayHit(buf, ignored, shooter, owners, actors)
            case None => true
            case Some(h) =>
              (h.hitBox.Some? ==>
                 && h.who == Who(shooter, owners)
                 && h.actor != h.who
                 && h.hitBox.value.collider == h.collider
                 && exists a :: 0 <= a < |actors| && actors[a].handle == h.actor
                                && h.hitBox.value in actors[a].hitBoxes)
              && (h.hitBox.None? ==> h.actor == NONE && h.who == NONE)
  {
    match Candidate(buf, ignored)
    case None =>
    case Some(k) =>
      var s := ScanFrom(actors, buf[k].collider, Who(shooter, owners), 0, false);
      if s.Attributed? {
        assert actors[s.index].hitBoxes[s.boxIndex] in actors[s.index].hitBoxes;
      }
  }

  /** Actors are scanned in container order: when actor `i` is the first actor
      that is not the shooter and owns a hit-box on the candidate's collider, the
      hit goes to actor `i`, on its first such hit-box. */
  lemma FirstNonOwnerActorWins(buf: seq<Intersection>, ignored: Handle, shooter: Shooter,
                               owners: map<Handle, Handle>, actors: seq<ActorEntry>, k: nat, i: nat)
    requires Candidate(buf, ignored) == Some(k)
    requires i < |actors| && HasBox(actors[i], buf[k].collider)
    requires actors[i].handle != Who(shooter, owners)
    requires forall m :: 0 <= m < i && HasBox(actors[m], buf[k].collider) ==>
               actors[m].handle == Who(shooter, owners)
    ensures var r := RayHit(buf, ignored, shooter, owners, actors);
            && r.Some? && r.value.actor == actors[i].handle && r.value.hitBox.Some?
            && exists b :: 0 <= b < |actors[i].hitBoxes|
                 && r.value.hitBox.value == actors[i].hitBoxes[b]
                 && actors[i].hitBoxes[b].collider == buf[k].collider
                 && forall b' :: 0 <= b' < b ==> actors[i].hitBoxes[b'].collider != buf[k].collider
  {
    var c := buf[k].collider;
    var who := Who(shooter, owners);
    var s := ScanFrom(actors, c, who, 0, false);
  }

  /** When the candidate's collider matches hit-boxes of the shooter only, the ray
      reports nothing; the intersections behind the candidate are not examined. */
  lemma OwnerOnlyHitIsSuppressed(buf: seq<Intersection>, ignored: Handle, shooter: Shooter,
                                 owners: map<Handle, Handle>, actors: seq<ActorEntry>, k: nat)
    requires Candidate(buf, ignored) == Some(k)
    requires exists m :: 0 <= m < |actors| && HasBox(actors[m], buf[k].collider)
    requires forall m :: 0 <= m < |actors| && HasBox(actors[m], buf[k].collider) ==>
               actors[m].handle == Who(shooter, owners)
    ensures RayHit(buf, ignored, shooter, owners, actors) == None
  {
    var c := buf[k].collider;
    var s := ScanFrom(actors, c, Who(shooter, owners), 0, false);
    if s.Attributed? {
      assert HasBox(actors[s.index], c) by {
        assert actors[s.index].hitBoxes[s.boxIndex].collider == c;
      }
    }
  }

  /** When no actor owns a hit-box on the candidate's collider, the result is an
      environment hit on that collider. */
  lemma NoHitBoxMeansEnvironmentHit(buf: seq<Intersection>, ignored: Handle, shooter: Shooter,
                                    owners: map<Handle, Handle>, actors: seq<ActorEntry>, k: nat)
    requires Candidate(buf, ignored) == Some(k)
    requires forall m :: 0 <= m < |actors| ==> !HasBox(actors[m], buf[k].collider)
    ensures RayHit(buf, ignored, shooter, owners, actors)
            == Some(Hit(NONE, NONE, buf[k].position, buf[k].normal, buf[k].collider,
                        buf[k].feature, None, buf))
  {
    var c := buf[k].collider;
    var s := ScanFrom(actors, c, Who(shooter, owners), 0, false);
    if s.Attributed? {
      assert HasBox(actors[s.index], c) by {
        assert actors[s.index].hitBoxes[s.boxIndex].collider == c;
      }
    }
  }

  /** A hit with its query buffer dropped: what `Hit`'s equality compares. */
  function Forget(r: Option<Hit>): Option<Hit> {
    match r
    case None => None
    case Some(h) => Some(h.(queryBuffer := []))
  }

  /** Only the intersections up to and including the candidate decide the result:
      two buffers that agree on that prefix give equal hits. */
  lemma LaterIntersectionsAreNotExamined(buf: seq<Intersection>, buf': seq<Intersection>,
                                         ignored: Handle, shooter: Shooter,
                                         owners: map<Handle, Handle>, actors: seq<ActorEntry>, k: nat)
    requires Candidate(buf, ignored) == Some(k)
    requires k < |buf'| && buf'[..k + 1] == buf[..k + 1]
    ensures Forget(RayHit(buf, ignored, shooter, owners, actors))
            == Forget(RayHit(buf', ignored, shooter, owners, actors))
  {
    assert forall m :: 0 <= m <= k ==> buf'[m] == buf[..k + 1][m];
    SameCandidate(buf, buf', ignored, 0, k);
  }

  lemma {:induction false} SameCandidate(buf: seq<Intersection>, buf': seq<Intersection>,
                                         ignored: Handle, i: nat, k: nat)
    requires i <= k < |buf| && k < |buf'|
    requires FirstUsableFrom(buf, ignored, i) == Some(k)
    requires forall m :: i <= m <= k ==> buf'[m] == buf[m]
    ensures FirstUsableFrom(buf', ignored, i) == Some(k)
    decreases k - i
  {
    if i < k {
      SameCandidate(buf, buf', ignored, i + 1, k);
    }
  }

  /** A shooter that resolves to no actor (none, a turret, or a weapon that is
      gone) suppresses nothing: when no actor in the container has the NONE
      handle, a usable intersection always yields a hit. */
  lemma AnonymousShooterSuppressesNothing(buf: seq<Intersection>, ignored: Handle, shooter: Shooter,
                                          owners: map<Handle, Handle>, actors: seq<ActorEntry>)
    requires shooter.NoShooter? || shooter.TurretShooter? || !Resolvable(shooter, owners)
    requires forall m :: 0 <= m < |actors| ==> actors[m].handle != NONE
    requires Candidate(buf, ignored).Some?
    ensures RayHit(buf, ignored, shooter, owners, actors).Some?
  {
    var k := Candidate(buf, ignored).value;
    var s := ScanFrom(actors, buf[k].collider, NONE, 0, false);
  }

  // ---------------------------------------------------------------------------
  // The shooter lookup as written: `weapons[weapon]` indexes the weapon
  // container, which panics on a handle whose weapon is gone. The lookup runs
  // only once a hit-box matches the candidate's collider.

  datatype RayOutcome = Panicked | Finished(hit: Option<Hit>)

  /** Some actor owns a hit-box on collider `c`. */
  predicate AnyBox(actors: seq<ActorEntry>, c: Handle) {
    exists m :: 0 <= m < |actors| && HasBox(actors[m], c)
  }

  /** `ray_hit` with the panicking lookup: a stale weapon shooter aborts the frame
      as soon as the candidate lies on any actor's hit-box, and otherwise yields
      the environment hit. Wherever it does not panic it agrees with `RayHit`. */
  function RayHitAsWritten(buf: seq<Intersection>, ignored: Handle, shooter: Shooter,
                           owners: map<Handle, Handle>, actors: seq<ActorEntry>): (r: RayOutcome)
    ensures r.Finished? ==> r.hit == RayHit(buf, ignored, shooter, owners, actors)
    ensures r.Panicked? ==> shooter.WeaponShooter? && shooter.weapon !in owners
    ensures r.Panicked? ==> RayHit(buf, ignored, shooter, owners, actors).Some?
                            || exists m :: 0 <= m < |actors| && actors[m].handle == NONE
  {
    match Candidate(buf, ignored)
    case None => Finished(None)
    case Some(k) =>
      var hit := buf[k];
      if Resolvable(shooter, owners) then Finished(RayHit(buf, ignored, shooter, owners, actors))
      else if AnyBox(actors, hit.collider) then Panicked
      else
        assert ScanFrom(actors, hit.collider, NONE, 0, false).NoHitBox? by {
          var s := ScanFrom(actors, hit.collider, NONE, 0, false);
          if s.Attributed? {
            assert HasBox(actors[s.index], hit.collider) by {
              assert actors[s.index].hitBoxes[s.boxIndex].collider == hit.collider;
            }
          }
        }
        Finished(Some(Hit(NONE, NONE, hit.position, hit.normal, hit.collider, hit.feature, None, buf)))
  }

  /** The discrepancy on a concrete input: a shot by weapon 9, no longer in the
      container, whose ray meets actor 3's hit-box, panics as written, while the
      model reports the hit on actor 3. */
  lemma StaleWeaponShooterPanics()
    ensures var buf := [Intersection(5, Zero, Zero, 0)];
            var actors := [ActorEntry(3, [HitBox(0, 5)])];
            && RayHitAsWritten(buf, NONE, WeaponShooter(9), map[], actors) == Panicked
            && RayHit(buf, NONE, WeaponShooter(9), map[], actors)
               == Some(Hit(3, NONE, Zero, Zero, 5, 0, Some(HitBox(0, 5)), buf))
  {
    var buf := [Intersection(5, Zero, Zero, 0)];
    var actors := [ActorEntry(3, [HitBox(0, 5)])];
    assert HasBox(actors[0], 5) by {
      assert actors[0].hitBoxes[0].collider == 5;
    }
  }
}
