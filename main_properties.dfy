/** What the operations of src/main.ts promise, proved about the functions of
    module Main that specify the methods of Main.Game. */
module MainProperties {
  import opened Consts
  import opened Main
  import Utils

  // ---------------------------------------------------------------- flap

  /** A flap adds the impulse, capped at the maximum speed: the cap is hit
      exactly when the sum would exceed it. */
  lemma FlapCap(v: real)
    ensures FlapVelocity(v) <= BIRD_FLAP_MAX_SPEED
    ensures v + BIRD_FLAP_SPEED <= BIRD_FLAP_MAX_SPEED ==> FlapVelocity(v) == v + BIRD_FLAP_SPEED
    ensures v + BIRD_FLAP_SPEED > BIRD_FLAP_MAX_SPEED ==> FlapVelocity(v) == BIRD_FLAP_MAX_SPEED
  {
  }

  /** Flapping at the cap leaves the velocity where it is. */
  lemma FlapAtCap()
    ensures FlapVelocity(BIRD_FLAP_MAX_SPEED) == BIRD_FLAP_MAX_SPEED
  {
  }

  /** Below the cap a flap never slows the bird's rise. */
  lemma FlapNeverSlows(v: real)
    requires v <= BIRD_FLAP_MAX_SPEED
    ensures v <= FlapVelocity(v)
  {
  }

  /** The velocity after `n` flaps with no tick in between. */
  function Flaps(v: real, n: nat): real
  {
    if n == 0 then v else FlapVelocity(Flaps(v, n - 1))
  }

  function Min(a: real, b: real): real
  {
    if a <= b then a else b
  }

  /** Repeated flaps add up until the cap and then stay at it. */
  lemma {:induction false} FlapsAccumulateToCap(v: real, n: nat)
    requires n >= 1
    ensures Flaps(v, n) == Min(v + (n as real) * BIRD_FLAP_SPEED, BIRD_FLAP_MAX_SPEED)
  {
    if n > 1 {
      FlapsAccumulateToCap(v, n - 1);
      assert (n as real) * BIRD_FLAP_SPEED == ((n - 1) as real) * BIRD_FLAP_SPEED + BIRD_FLAP_SPEED;
    }
  }

  /** So no number of consecutive flaps exceeds the cap. */
  lemma FlapsNeverExceedCap(v: real, n: nat)
    requires v <= BIRD_FLAP_MAX_SPEED || n >= 1
    ensures Flaps(v, n) <= BIRD_FLAP_MAX_SPEED
  {
  }

  // ---------------------------------------------------------------- addTube

  /** The two new tubes start just off the right edge, share their size, and
      leave exactly TUBE_OPENING between the upper one's bottom edge and the
      lower one's top edge. */
  lemma NewPairGeometry(sc: Screen, r: real)
    ensures NewLower(sc, r).x == NewUpper(sc, r).x == sc.width + TUBE_WIDTH
    ensures NewLower(sc, r).width == NewUpper(sc, r).width == TUBE_WIDTH
    ensures NewLower(sc, r).height == NewUpper(sc, r).height == sc.height
    ensures NewUpper(sc, r).y + sc.height == NewLower(sc, r).y - TUBE_OPENING
  {
  }

  /** On a screen at least 340 high the gap's lower edge keeps the padding of 80
      from the top and bottom; the top of the range is reached only when the
      screen is exactly 340 high. */
  lemma GapTopInRange(sc: Screen, r: real)
    requires 0.0 <= r < 1.0
    requires sc.height >= 2.0 * TUBE_PADDING + TUBE_OPENING
    ensures TUBE_PADDING <= GapTop(sc, r) <= sc.height - TUBE_PADDING - TUBE_OPENING
    ensures sc.height > 2.0 * TUBE_PADDING + TUBE_OPENING ==> GapTop(sc, r) < sc.height - TUBE_PADDING - TUBE_OPENING
  {
    var span := sc.height - 2.0 * TUBE_PADDING - TUBE_OPENING;
    assert GapTop(sc, r) == r * span + TUBE_PADDING;
    assert 0.0 <= r * span <= span;
    if span > 0.0 {
      assert r * span < 1.0 * span;
    }
  }

  /** addTube appends one tube to each array and changes nothing else. */
  lemma AddTubeAppends(s: World, sc: Screen, r: real)
    ensures AddTubeWorld(s, sc, r).upper[..|s.upper|] == s.upper
    ensures AddTubeWorld(s, sc, r).lower[..|s.lower|] == s.lower
    ensures |AddTubeWorld(s, sc, r).upper| == |s.upper| + 1 && |AddTubeWorld(s, sc, r).lower| == |s.lower| + 1
    ensures AddTubeWorld(s, sc, r).upper[|s.upper|] == NewUpper(sc, r)
    ensures AddTubeWorld(s, sc, r).lower[|s.lower|] == NewLower(sc, r)
    ensures AddTubeWorld(s, sc, r).(upper := s.upper, lower := s.lower) == s
  {
  }

  // ---------------------------------------------------------------- reset and setup

  /** After reset the bird is back at its start, velocity and time are zero and
      each array holds one new tube. */
  lemma ResetState(s: World, sc: Screen, r: real)
    ensures ResetWorld(s, sc, r).hasBird == s.hasBird
    ensures ResetWorld(s, sc, r).birdX == sc.width / 3.0 && ResetWorld(s, sc, r).birdY == sc.height / 2.0
    ensures ResetWorld(s, sc, r).velocity == 0.0 && ResetWorld(s, sc, r).time == 0.0
    ensures ResetWorld(s, sc, r).upper == [NewUpper(sc, r)] && ResetWorld(s, sc, r).lower == [NewLower(sc, r)]
  {
  }

  /** Two resets in a row give the state of the second one alone. */
  lemma ResetTwice(s: World, sc: Screen, r1: real, r2: real)
    ensures ResetWorld(ResetWorld(s, sc, r1), sc, r2) == ResetWorld(s, sc, r2)
  {
  }

  /** Resets with different random values differ only in the heights of the
      new tubes. */
  lemma ResetDiffersOnlyInGap(s: World, sc: Screen, r1: real, r2: real)
    ensures ResetWorld(s, sc, r1).(upper := [], lower := []) == ResetWorld(s, sc, r2).(upper := [], lower := [])
    ensures ResetWorld(s, sc, r1).upper[0].(y := 0.0) == ResetWorld(s, sc, r2).upper[0].(y := 0.0)
    ensures ResetWorld(s, sc, r1).lower[0].(y := 0.0) == ResetWorld(s, sc, r2).lower[0].(y := 0.0)
  {
  }

  /** setup creates the bird at the reset position and adds the first pair to
      whatever the arrays held. */
  lemma SetupState(s: World, sc: Screen, r: real)
    ensures SetupWorld(s, sc, r).hasBird
    ensures SetupWorld(s, sc, r).birdX == sc.width / 3.0 && SetupWorld(s, sc, r).birdY == sc.height / 2.0
    ensures SetupWorld(s, sc, r).velocity == s.velocity && SetupWorld(s, sc, r).time == s.time
    ensures SetupWorld(s, sc, r).upper == s.upper + [NewUpper(sc, r)]
    ensures SetupWorld(s, sc, r).lower == s.lower + [NewLower(sc, r)]
  {
  }

  // ---------------------------------------------------------------- the pairing invariant

  /** Tubes `u` and `l` form a pair: same size, and TUBE_OPENING between
      the bottom of `u` and the top of `l`. */
  predicate Paired(u: Tube, l: Tube)
  {
    u.width == l.width && u.height == l.height && u.y + u.height == l.y - TUBE_OPENING
  }

  /** The two arrays have equal length and the tubes at each index form a pair. */
  predicate WellFormed(s: World)
  {
    |s.upper| == |s.lower| && forall i :: 0 <= i < |s.upper| ==> Paired(s.upper[i], s.lower[i])
  }

  lemma NewPairIsPaired(sc: Screen, r: real)
    ensures Paired(NewUpper(sc, r), NewLower(sc, r))
  {
  }

  lemma AddTubeKeepsWellFormed(s: World, sc: Screen, r: real)
    requires WellFormed(s)
    ensures WellFormed(AddTubeWorld(s, sc, r))
  {
  }

  /** Whatever came before, reset leaves a well-formed state. */
  lemma ResetIsWellFormed(s: World, sc: Screen, r: real)
    ensures WellFormed(ResetWorld(s, sc, r))
  {
  }

  lemma SetupKeepsWellFormed(s: World, sc: Screen, r: real)
    requires WellFormed(s)
    ensures WellFormed(SetupWorld(s, sc, r))
  {
  }

  /** Moving tubes changes no y, width or height, so it keeps every pair. */
  lemma MovingKeepsWellFormed(s: World, side: Side, i: nat, d: real)
    requires WellFormed(s) && i <= |Field(s, side)|
    ensures WellFormed(WithField(s, side, MovedFrom(Field(s, side), i, d)))
  {
  }

  /** Recycling drops the front pair and adds a new one at the back. */
  lemma RecycleKeepsWellFormed(s: World, sc: Screen, r: real)
    requires WellFormed(s)
    ensures WellFormed(RecycleWorld(s, sc, r))
  {
  }

  /** A forEach loop of gameLoop keeps the state well formed. */
  lemma SweepKeepsWellFormed(s: World, side: Side, arr: seq<Tube>, i: nat, attached: bool,
                            sc: Screen, step: real, rs: seq<real>, k: nat)
    requires i <= |arr| && k + (|arr| - i) <= |rs|
    requires attached ==> Field(s, side) == arr
    requires WellFormed(s)
    ensures WellFormed(SweepFrom(s, side, arr, i, attached, sc, step, rs, k).0)
  {
  }

  // ---------------------------------------------------------------- gameLoop

  /** Before setup has created the bird a tick does nothing. */
  lemma TickBeforeSetup(s: World, delta: real, fps: real, sc: Screen, rs: seq<real>)
    requires fps > 0.0 && |rs| >= Draws(s)
    requires !s.hasBird
    ensures TickWorld(s, delta, fps, sc, rs) == s
  {
  }

  /** A bird below the bottom boundary after the physics step ends the tick in
      the reset state: no tube is moved and time stays zero. */
  lemma BottomFailureEndsTick(s: World, delta: real, fps: real, sc: Screen, rs: seq<real>)
    requires fps > 0.0 && |rs| >= Draws(s)
    requires s.hasBird && Failed(Fall(s, delta, fps), sc)
    ensures TickWorld(s, delta, fps, sc, rs) == ResetWorld(s, sc, rs[0])
    ensures TickWorld(s, delta, fps, sc, rs).time == 0.0
    ensures TickWorld(s, delta, fps, sc, rs).upper == [NewUpper(sc, rs[0])]
    ensures TickWorld(s, delta, fps, sc, rs).lower == [NewLower(sc, rs[0])]
  {
  }

  /** A tick in which the bird neither falls out nor touches a tube: the physics
      step applies, every tube moves left by the same Step(delta, sc), at most the
      front pair is recycled, and time grows by delta. */
  lemma NormalTick(s: World, delta: real, fps: real, sc: Screen, rs: seq<real>)
    requires fps > 0.0 && |rs| >= Draws(s)
    requires s.hasBird && !Failed(Fall(s, delta, fps), sc)
    requires NoHitFrom(Fall(s, delta, fps).birdX, Fall(s, delta, fps).birdY, s.upper, 0)
    requires NoHitFrom(Fall(s, delta, fps).birdX, Fall(s, delta, fps).birdY, s.lower, 0)
    ensures var r := TickWorld(s, delta, fps, sc, rs);
            var p := Fall(s, delta, fps);
            var moved := p.(upper := MovedFrom(s.upper, 0, Step(delta, sc)), lower := MovedFrom(s.lower, 0, Step(delta, sc)));
            r == RecycleWorld(moved, sc, rs[0]).(time := s.time + delta)
  {
  }

  /** The front lower tube leaves the screen once moved by `d`. */
  predicate FrontLeaves(s: World, d: real)
  {
    |s.lower| > 0 && s.lower[0].x - d < -s.lower[0].width
  }

  /** In that tick each tube keeps its place in its array and moves left by
      Step(delta, sc), unless the front pair has left the screen, in which case
      the others move up one place and a new pair comes last. Time grows by
      delta and the bird is where the physics step put it. */
  lemma NormalTickMovesTubes(s: World, delta: real, fps: real, sc: Screen, rs: seq<real>)
    requires fps > 0.0 && |rs| >= Draws(s)
    requires s.hasBird && !Failed(Fall(s, delta, fps), sc)
    requires NoHitFrom(Fall(s, delta, fps).birdX, Fall(s, delta, fps).birdY, s.upper, 0)
    requires NoHitFrom(Fall(s, delta, fps).birdX, Fall(s, delta, fps).birdY, s.lower, 0)
    ensures var r := TickWorld(s, delta, fps, sc, rs);
            var p := Fall(s, delta, fps);
            r.time == s.time + delta && r.velocity == p.velocity && r.birdY == p.birdY && r.birdX == s.birdX
    ensures var r := TickWorld(s, delta, fps, sc, rs);
            var d := Step(delta, sc);
            !FrontLeaves(s, d) ==>
              (|r.upper| == |s.upper| && |r.lower| == |s.lower|
               && (forall j :: 0 <= j < |s.upper| ==> r.upper[j] == s.upper[j].(x := s.upper[j].x - d))
               && (forall j :: 0 <= j < |s.lower| ==> r.lower[j] == s.lower[j].(x := s.lower[j].x - d)))
    ensures var r := TickWorld(s, delta, fps, sc, rs);
            var d := Step(delta, sc);
            FrontLeaves(s, d) ==>
              (|r.lower| == |s.lower|
               && (forall j :: 0 <= j < |s.lower| - 1 ==> r.lower[j] == s.lower[j + 1].(x := s.lower[j + 1].x - d))
               && r.lower[|s.lower| - 1] == NewLower(sc, rs[0]))
    ensures var r := TickWorld(s, delta, fps, sc, rs);
            var d := Step(delta, sc);
            FrontLeaves(s, d) && |s.upper| > 0 ==>
              (|r.upper| == |s.upper|
               && (forall j :: 0 <= j < |s.upper| - 1 ==> r.upper[j] == s.upper[j + 1].(x := s.upper[j + 1].x - d))
               && r.upper[|s.upper| - 1] == NewUpper(sc, rs[0]))
  {
  }

  /** The tubes at each index share their x. */
  predicate Aligned(s: World)
  {
    |s.upper| == |s.lower| && forall i :: 0 <= i < |s.upper| ==> s.upper[i].x == s.lower[i].x
  }

  /** A normal tick keeps every pair aligned. */
  lemma NormalTickKeepsAligned(s: World, delta: real, fps: real, sc: Screen, rs: seq<real>)
    requires fps > 0.0 && |rs| >= Draws(s)
    requires s.hasBird && !Failed(Fall(s, delta, fps), sc)
    requires NoHitFrom(Fall(s, delta, fps).birdX, Fall(s, delta, fps).birdY, s.upper, 0)
    requires NoHitFrom(Fall(s, delta, fps).birdX, Fall(s, delta, fps).birdY, s.lower, 0)
    requires Aligned(s)
    ensures Aligned(TickWorld(s, delta, fps, sc, rs))
  {
  }

  /** A tick in which the bird touches a tube ends with the bird and velocity
      of a reset and one pair per array, but with time equal to delta: the rest
      of gameLoop, score included, still runs after reset. */
  lemma CollisionTick(s: World, delta: real, fps: real, sc: Screen, rs: seq<real>)
    requires fps > 0.0 && |rs| >= Draws(s)
    requires s.hasBird && !Failed(Fall(s, delta, fps), sc)
    requires !NoHitFrom(Fall(s, delta, fps).birdX, Fall(s, delta, fps).birdY, s.upper, 0)
          || !NoHitFrom(Fall(s, delta, fps).birdX, Fall(s, delta, fps).birdY, s.lower, 0)
    ensures var r := TickWorld(s, delta, fps, sc, rs);
            r.hasBird && r.birdX == sc.width / 3.0 && r.birdY == sc.height / 2.0 && r.velocity == 0.0
            && r.time == delta && |r.upper| == 1 && |r.lower| == 1
  {
  }

  /** As written, a hit in the upper loop resets both arrays, then the lower
      loop moves the new lower tube while the new upper tube was never walked
      over: the new pair ends the tick misaligned by one step. */
  lemma UpperHitMisalignsNewPair(s: World, delta: real, fps: real, sc: Screen, rs: seq<real>)
    requires fps > 0.0 && |rs| >= Draws(s)
    requires s.hasBird && !Failed(Fall(s, delta, fps), sc)
    requires !NoHitFrom(Fall(s, delta, fps).birdX, Fall(s, delta, fps).birdY, s.upper, 0)
    requires sc.width >= 0.0 && delta > 0.0 && Step(delta, sc) <= sc.width + 2.0 * TUBE_WIDTH
    ensures var r := TickWorld(s, delta, fps, sc, rs);
            |r.upper| == 1 && |r.lower| == 1
            && r.upper[0].x == sc.width + TUBE_WIDTH
            && r.lower[0].x == sc.width + TUBE_WIDTH - Step(delta, sc)
            && !Aligned(r)
  {
  }

  /** A normal tick that recycles nothing keeps the offset between the front
      upper and lower tube, so a misaligned pair stays misaligned. */
  lemma NormalTickKeepsFrontOffset(s: World, delta: real, fps: real, sc: Screen, rs: seq<real>)
    requires fps > 0.0 && |rs| >= Draws(s)
    requires s.hasBird && !Failed(Fall(s, delta, fps), sc)
    requires NoHitFrom(Fall(s, delta, fps).birdX, Fall(s, delta, fps).birdY, s.upper, 0)
    requires NoHitFrom(Fall(s, delta, fps).birdX, Fall(s, delta, fps).birdY, s.lower, 0)
    requires |s.upper| > 0 && |s.lower| > 0 && !FrontLeaves(s, Step(delta, sc))
    ensures var r := TickWorld(s, delta, fps, sc, rs);
            |r.upper| > 0 && |r.lower| > 0 && r.upper[0].x - r.lower[0].x == s.upper[0].x - s.lower[0].x
  {
    NormalTickMovesTubes(s, delta, fps, sc, rs);
  }

  /** The offset moves the upper tube's hit window: with the upper tube `d` to
      the right of the lower one, a bird just right of the lower tube's right
      edge hits the upper tube, which it would miss were the pair aligned. */
  lemma OffsetMovesUpperHitWindow(lx: real, d: real, uy: real, h: real, birdY: real)
    requires 0.0 < d < 2.0 * TUBE_WIDTH
    requires uy < birdY < uy + h
    ensures Hit(lx + TUBE_WIDTH + d / 2.0, birdY, Tube(lx + d, uy, TUBE_WIDTH, h))
    ensures !Hit(lx + TUBE_WIDTH + d / 2.0, birdY, Tube(lx, uy, TUBE_WIDTH, h))
  {
  }

  /** Recycling happens exactly when the front lower tube has left the screen:
      then the front pair goes, the order of the rest is kept and a new pair is
      added at the back, so the lengths do not change. Nothing else changes. */
  lemma RecycleShape(s: World, sc: Screen, r: real)
    requires |s.upper| == |s.lower|
    ensures !Exited(s) ==> RecycleWorld(s, sc, r) == s
    ensures Exited(s) ==>
              RecycleWorld(s, sc, r).upper == s.upper[1..] + [NewUpper(sc, r)]
              && RecycleWorld(s, sc, r).lower == s.lower[1..] + [NewLower(sc, r)]
    ensures |RecycleWorld(s, sc, r).upper| == |s.upper| && |RecycleWorld(s, sc, r).lower| == |s.lower|
    ensures RecycleWorld(s, sc, r).(upper := s.upper, lower := s.lower) == s
  {
  }

  /** Every tick keeps the state well formed; in particular the two arrays
      always have equal length. */
  lemma TickKeepsWellFormed(s: World, delta: real, fps: real, sc: Screen, rs: seq<real>)
    requires fps > 0.0 && |rs| >= Draws(s)
    requires WellFormed(s)
    ensures WellFormed(TickWorld(s, delta, fps, sc, rs))
    ensures |TickWorld(s, delta, fps, sc, rs).upper| == |TickWorld(s, delta, fps, sc, rs).lower|
  {
    if s.hasBird {
      var p := Fall(s, delta, fps);
      if Failed(p, sc) {
        ResetIsWellFormed(p, sc, rs[0]);
      } else {
        var step := Step(delta, sc);
        var a := SweepFrom(p, Upper, p.upper, 0, true, sc, step, rs, 0);
        SweepKeepsWellFormed(p, Upper, p.upper, 0, true, sc, step, rs, 0);
        var b := SweepFrom(a.0, Lower, a.0.lower, 0, true, sc, step, rs, a.1);
        SweepKeepsWellFormed(a.0, Lower, a.0.lower, 0, true, sc, step, rs, a.1);
        RecycleKeepsWellFormed(b.0, sc, rs[b.1]);
      }
    }
  }

  /** Gravity only lowers the velocity when delta is not negative, and reset
      sets it to zero, so a tick never lifts the velocity above the flap cap. */
  lemma TickKeepsVelocityCapped(s: World, delta: real, fps: real, sc: Screen, rs: seq<real>)
    requires fps > 0.0 && |rs| >= Draws(s) && delta >= 0.0
    requires s.velocity <= BIRD_FLAP_MAX_SPEED
    ensures TickWorld(s, delta, fps, sc, rs).velocity <= BIRD_FLAP_MAX_SPEED
  {
  }

  // ---------------------------------------------------------------- the two hit tests

  /** The test written inline in gameLoop is collisionCheck of src/utils.ts with
      the bird's anchor as the point and the tube as the rectangle. */
  lemma HitIsCollisionCheck(birdX: real, birdY: real, t: Tube)
    ensures Hit(birdX, birdY, t) == Utils.CollisionCheck(birdX, t.x, t.width, birdY, t.y, t.height)
  {
  }
}
