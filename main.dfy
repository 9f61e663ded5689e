/** The simulation core of src/main.ts: the module state (bird, velocity, time and
    the two tube arrays) and the operations setup, addTube, reset, gameLoop and flap.

    The state is a class, Game, whose methods change it as the script does. Each
    method is specified by a function on World, a value copy of that state; the
    properties of those functions are proved in MainProperties. */
module Main {
  import opened Consts

  /** A tube sprite: its top-left corner and its size. */
  datatype Tube = Tube(x: real, y: real, width: real, height: real)

  /** The size of the screen at the moment of a call. */
  datatype Screen = Screen(width: real, height: real)

  /** The module-level state of the script. hasBird is false until setup has
      created the bird sprite; upper and lower are upperTubes and lowerTubes. */
  datatype World = World(hasBird: bool, birdX: real, birdY: real, velocity: real, time: real,
                         upper: seq<Tube>, lower: seq<Tube>)

  /** Which of the two tube arrays a loop walks over. */
  datatype Side = Upper | Lower

  function Field(s: World, side: Side): seq<Tube>
  {
    if side == Upper then s.upper else s.lower
  }

  function WithField(s: World, side: Side, a: seq<Tube>): World
  {
    if side == Upper then s.(upper := a) else s.(lower := a)
  }

  // ---------------------------------------------------------------- addTube

  /** The y of a new lower tube: `r` stands for the value of Math.random(). */
  function GapTop(sc: Screen, r: real): real
  {
    var min := TUBE_PADDING;
    var max := sc.height - TUBE_PADDING - TUBE_OPENING;
    r * (max - min) + min
  }

  function NewLower(sc: Screen, r: real): Tube
  {
    Tube(sc.width + TUBE_WIDTH, GapTop(sc, r), TUBE_WIDTH, sc.height)
  }

  function NewUpper(sc: Screen, r: real): Tube
  {
    Tube(sc.width + TUBE_WIDTH, NewLower(sc, r).y - TUBE_OPENING - sc.height, TUBE_WIDTH, sc.height)
  }

  /** addTube: one new tube pushed onto each array. */
  function AddTubeWorld(s: World, sc: Screen, r: real): World
  {
    s.(lower := s.lower + [NewLower(sc, r)], upper := s.upper + [NewUpper(sc, r)])
  }

  // ---------------------------------------------------------------- setup and reset

  /** The part of setup that is not presentation: the bird is created at its
      start position and the first pair of tubes is added. */
  function SetupWorld(s: World, sc: Screen, r: real): World
  {
    AddTubeWorld(s.(hasBird := true, birdX := sc.width / 3.0, birdY := sc.height / 2.0), sc, r)
  }

  /** reset: bird back to its start, velocity and time zero, both arrays replaced
      by empty ones and one new pair added. */
  function ResetWorld(s: World, sc: Screen, r: real): World
  {
    AddTubeWorld(s.(birdX := sc.width / 3.0, birdY := sc.height / 2.0, velocity := 0.0, time := 0.0,
                    upper := [], lower := []), sc, r)
  }

  // ---------------------------------------------------------------- flap

  function FlapVelocity(v: real): real
  {
    var w := v + BIRD_FLAP_SPEED;
    if w > BIRD_FLAP_MAX_SPEED then BIRD_FLAP_MAX_SPEED else w
  }

  // ---------------------------------------------------------------- gameLoop

  /** Gravity, the position step and the top clamp, at the start of a tick. */
  function Fall(s: World, delta: real, fps: real): (r: World)
    requires fps > 0.0
    ensures r.velocity + (GRAVITY / fps) * delta == s.velocity
    ensures r.birdY >= BOUNDARY_TOP
    ensures r.birdY == s.birdY - r.velocity || (r.birdY == BOUNDARY_TOP && s.birdY - r.velocity < BOUNDARY_TOP)
    ensures r == s.(velocity := r.velocity, birdY := r.birdY)
  {
    var v := s.velocity - (GRAVITY / fps) * delta;
    var y := s.birdY - v;
    s.(velocity := v, birdY := if y < BOUNDARY_TOP then BOUNDARY_TOP else y)
  }

  /** The bottom-boundary failure. */
  predicate Failed(s: World, sc: Screen)
  {
    s.birdY > sc.height - BOUNDARY_BOTTOM
  }

  /** The inline hit test of gameLoop: the bird's anchor point strictly inside the tube. */
  predicate Hit(birdX: real, birdY: real, t: Tube)
  {
    (birdX > t.x && birdX < t.x + t.width) && (birdY > t.y && birdY < t.y + t.height)
  }

  /** How far every tube moves left in one tick. */
  function Step(delta: real, sc: Screen): real
  {
    delta * ((GAME_SPEED * sc.width) / 360.0 + 0.5)
  }

  /** `a` with every tube from index `i` on moved left by `d`. */
  function MovedFrom(a: seq<Tube>, i: nat, d: real): seq<Tube>
    requires i <= |a|
  {
    seq(|a|, j requires 0 <= j < |a| => if j < i then a[j] else a[j].(x := a[j].x - d))
  }

  predicate NoHitFrom(birdX: real, birdY: real, a: seq<Tube>, i: nat)
  {
    forall j :: i <= j < |a| ==> !Hit(birdX, birdY, a[j])
  }

  /** Moving tube `i` and then the tubes after it moves the tubes from `i` on. */
  lemma MovedFromStep(a: seq<Tube>, i: nat, d: real)
    requires i < |a|
    ensures MovedFrom(a[i := a[i].(x := a[i].x - d)], i + 1, d) == MovedFrom(a, i, d)
  {
  }

  lemma MovedFromEnd(a: seq<Tube>, d: real)
    ensures MovedFrom(a, |a|, d) == a
  {
  }

  /** Moving tube `i` (which is not hit) leaves the hit test of the later tubes alone. */
  lemma NoHitFromStep(birdX: real, birdY: real, a: seq<Tube>, i: nat, d: real)
    requires i < |a| && !Hit(birdX, birdY, a[i])
    ensures NoHitFrom(birdX, birdY, a[i := a[i].(x := a[i].x - d)], i + 1) == NoHitFrom(birdX, birdY, a, i)
  {
    var b := a[i := a[i].(x := a[i].x - d)];
    assert forall j :: i < j < |a| ==> b[j] == a[j];
  }

  /** Two resets give the same state whatever was there before, apart from hasBird. */
  lemma ResetForgets(s: World, t: World, sc: Screen, r: real)
    requires s.hasBird == t.hasBird
    ensures ResetWorld(s, sc, r) == ResetWorld(t, sc, r)
  {
  }

  /** One forEach loop of gameLoop, from index `i` of the array `arr` it walks
      over. The callback of a colliding tube calls reset, which takes the next
      random value `rs[k]` and replaces both arrays, so from then on the loop is no
      longer `attached` to the array in the state: it goes on testing (against the
      reset bird) and moving the tubes of the old array, which nothing sees.
      Returns the new state and how many random values have been used. */
  function SweepFrom(s: World, side: Side, arr: seq<Tube>, i: nat, attached: bool,
                     sc: Screen, step: real, rs: seq<real>, k: nat): (r: (World, nat))
    requires i <= |arr|
    requires k + (|arr| - i) <= |rs|
    requires attached ==> Field(s, side) == arr
    ensures k <= r.1 <= k + (|arr| - i)
    ensures r.1 == k <==> NoHitFrom(s.birdX, s.birdY, arr, i)
    ensures r.1 == k ==> r.0 == if attached then WithField(s, side, MovedFrom(arr, i, step)) else s
    ensures r.1 > k ==> r.0 == ResetWorld(s, sc, rs[r.1 - 1])
    decreases |arr| - i
  {
    if i == |arr| then
      MovedFromEnd(arr, step);
      (s, k)
    else if Hit(s.birdX, s.birdY, arr[i]) then
      var s' := ResetWorld(s, sc, rs[k]);
      var r := SweepFrom(s', side, arr, i + 1, false, sc, step, rs, k + 1);
      ResetForgets(s', s, sc, rs[r.1 - 1]);
      r
    else
      var a := arr[i := arr[i].(x := arr[i].x - step)];
      var s' := if attached then WithField(s, side, a) else s;
      var r := SweepFrom(s', side, a, i + 1, attached, sc, step, rs, k);
      MovedFromStep(arr, i, step);
      NoHitFromStep(s.birdX, s.birdY, arr, i, step);
      if r.1 > k then ResetForgets(s', s, sc, rs[r.1 - 1]); r else r
  }

  /** The recycle check: the front lower tube has left the screen. */
  predicate Exited(s: World)
  {
    |s.lower| > 0 && s.lower[0].x < -s.lower[0].width
  }

  /** Array.prototype.shift on the tube arrays (an empty array stays empty). */
  function Shift(a: seq<Tube>): seq<Tube>
  {
    if |a| == 0 then [] else a[1..]
  }

  /** At most one pair per tick is dropped from the front and replaced at the back. */
  function RecycleWorld(s: World, sc: Screen, r: real): World
  {
    if Exited(s) then AddTubeWorld(s.(upper := Shift(s.upper), lower := s.lower[1..]), sc, r) else s
  }

  /** Enough random values for every addTube a tick can make: one per upper
      tube hit, at most |lower| (or one) in the second loop, and one recycle. */
  function Draws(s: World): nat
  {
    |s.upper| + |s.lower| + 2
  }

  /** gameLoop(delta). `fps` is app.ticker.FPS, `sc` the screen, and `rs` the
      values Math.random() returns, in order. */
  function TickWorld(s: World, delta: real, fps: real, sc: Screen, rs: seq<real>): World
    requires fps > 0.0
    requires |rs| >= Draws(s)
  {
    if !s.hasBird then s
    else
      var p := Fall(s, delta, fps);
      if Failed(p, sc) then ResetWorld(p, sc, rs[0])
      else
        var step := Step(delta, sc);
        var a := SweepFrom(p, Upper, p.upper, 0, true, sc, step, rs, 0);
        var b := SweepFrom(a.0, Lower, a.0.lower, 0, true, sc, step, rs, a.1);
        var c := RecycleWorld(b.0, sc, rs[b.1]);
        c.(time := c.time + delta)
  }

  // ---------------------------------------------------------------- the script's state

  class Game {
    var hasBird: bool
    var birdX: real
    var birdY: real
    var velocity: real
    var time: real
    var upperTubes: seq<Tube>
    var lowerTubes: seq<Tube>

    function Snapshot(): World
      reads this
    {
      World(hasBird, birdX, birdY, velocity, time, upperTubes, lowerTubes)
    }

    /** The state when the script is loaded: no bird yet, no tubes, velocity and time zero. */
    constructor ()
      ensures !hasBird && velocity == 0.0 && time == 0.0
      ensures upperTubes == [] && lowerTubes == []
    {
      hasBird := false;
      birdX, birdY := 0.0, 0.0;
      velocity, time := 0.0, 0.0;
      upperTubes, lowerTubes := [], [];
    }

    method Setup(sc: Screen, r: real)
      modifies this
      ensures Snapshot() == SetupWorld(old(Snapshot()), sc, r)
    {
      hasBird := true;
      birdX := sc.width / 3.0;
      birdY := sc.height / 2.0;
      AddTube(sc, r);
    }

    method AddTube(sc: Screen, r: real)
      modifies this`upperTubes, this`lowerTubes
      ensures Snapshot() == AddTubeWorld(old(Snapshot()), sc, r)
    {
      var x := sc.width + TUBE_WIDTH;
      var min := TUBE_PADDING;
      var max := sc.height - TUBE_PADDING - TUBE_OPENING;

      var lowerTube := Tube(x, r * (max - min) + min, TUBE_WIDTH, sc.height);
      lowerTubes := lowerTubes + [lowerTube];

      var upperTube := Tube(x, lowerTube.y - TUBE_OPENING - sc.height, TUBE_WIDTH, sc.height);
      upperTubes := upperTubes + [upperTube];
      assert lowerTube == NewLower(sc, r);
      assert upperTube == NewUpper(sc, r);
    }

    method Reset(sc: Screen, r: real)
      requires hasBird
      modifies this
      ensures Snapshot() == ResetWorld(old(Snapshot()), sc, r)
    {
      birdX := sc.width / 3.0;
      birdY := sc.height / 2.0;
      velocity := 0.0;
      time := 0.0;
      upperTubes := [];
      lowerTubes := [];
      AddTube(sc, r);
    }

    /** One forEach loop of gameLoop over the array on `side`, testing the bird
        against each tube and moving it left by `step`; `k0` is the number of
        random values used so far in this tick. */
    method Sweep(side: Side, sc: Screen, step: real, rs: seq<real>, k0: nat) returns (k: nat)
      requires hasBird
      requires k0 + |Field(Snapshot(), side)| <= |rs|
      modifies this
      ensures (Snapshot(), k) == SweepFrom(old(Snapshot()), side, old(Field(Snapshot(), side)), 0, true, sc, step, rs, k0)
    {
      var arr := if side == Upper then upperTubes else lowerTubes;
      ghost var s0 := Snapshot();
      ghost var arr0 := arr;
      var attached := true;
      var i := 0;
      k := k0;
      while i < |arr|
        invariant i <= |arr| == |arr0|
        invariant k0 <= k <= k0 + i
        invariant hasBird
        invariant attached ==> arr == Field(Snapshot(), side)
        invariant SweepFrom(Snapshot(), side, arr, i, attached, sc, step, rs, k)
               == SweepFrom(s0, side, arr0, 0, true, sc, step, rs, k0)
        decreases |arr| - i
      {
        arr, attached, k := Visit(side, sc, step, rs, arr, i, attached, k);
        i := i + 1;
      }
    }

    /** The forEach callback for tube `i` of `arr`: reset on a hit, otherwise
        move the tube, in the state only while the loop is still `attached`. */
    method Visit(side: Side, sc: Screen, step: real, rs: seq<real>, arr: seq<Tube>, i: nat, attached: bool, k: nat)
      returns (arr': seq<Tube>, attached': bool, k': nat)
      requires hasBird
      requires i < |arr| && k + (|arr| - i) <= |rs|
      requires attached ==> arr == Field(Snapshot(), side)
      modifies this
      ensures hasBird && |arr'| == |arr| && k <= k' <= k + 1
      ensures attached' ==> arr' == Field(Snapshot(), side)
      ensures SweepFrom(Snapshot(), side, arr', i + 1, attached', sc, step, rs, k')
           == SweepFrom(old(Snapshot()), side, arr, i, attached, sc, step, rs, k)
      ensures Hit(old(birdX), old(birdY), arr[i]) ==>
                Snapshot() == ResetWorld(old(Snapshot()), sc, rs[k]) && arr' == arr && !attached' && k' == k + 1
      ensures !Hit(old(birdX), old(birdY), arr[i]) ==>
                arr' == arr[i := arr[i].(x := arr[i].x - step)] && attached' == attached && k' == k &&
                Snapshot() == (if attached then WithField(old(Snapshot()), side, arr') else old(Snapshot()))
    {
      var tube := arr[i];
      if birdX > tube.x && birdX < tube.x + tube.width && birdY > tube.y && birdY < tube.y + tube.height {
        Reset(sc, rs[k]);
        arr', attached', k' := arr, false, k + 1;
      } else {
        arr' := arr[i := tube.(x := tube.x - step)];
        attached', k' := attached, k;
        if attached {
          if side == Upper { upperTubes := arr'; } else { lowerTubes := arr'; }
        }
        assert Snapshot() == if attached then WithField(old(Snapshot()), side, arr') else old(Snapshot());
      }
    }

    /** gameLoop(delta). */
    method Tick(delta: real, fps: real, sc: Screen, rs: seq<real>)
      requires fps > 0.0
      requires |rs| >= Draws(Snapshot())
      modifies this
      ensures Snapshot() == TickWorld(old(Snapshot()), delta, fps, sc, rs)
    {
      if !hasBird {
        return;
      }

      velocity := velocity - (GRAVITY / fps) * delta;
      birdY := birdY - velocity;

      if birdY < BOUNDARY_TOP {
        birdY := BOUNDARY_TOP;
      }
      if birdY > sc.height - BOUNDARY_BOTTOM {
        Reset(sc, rs[0]);
        return;
      }

      ghost var p := Snapshot();
      assert p == Fall(old(Snapshot()), delta, fps);
      var step := Step(delta, sc);
      var k := Sweep(Upper, sc, step, rs, 0);
      k := Sweep(Lower, sc, step, rs, k);
      Recycle(sc, rs[k]);
      time := time + delta;
    }

    /** The recycle step of gameLoop: when the front lower tube has left the
        screen, the front pair is dropped and a new one added. */
    method Recycle(sc: Screen, r: real)
      modifies this`upperTubes, this`lowerTubes
      ensures Snapshot() == RecycleWorld(old(Snapshot()), sc, r)
    {
      if |lowerTubes| > 0 && lowerTubes[0].x < -lowerTubes[0].width {
        upperTubes := Shift(upperTubes);
        lowerTubes := lowerTubes[1..];
        AddTube(sc, r);
      }
    }

    method Flap()
      modifies this`velocity
      ensures velocity == FlapVelocity(old(velocity))
    {
      velocity := velocity + BIRD_FLAP_SPEED;
      if velocity > BIRD_FLAP_MAX_SPEED {
        velocity := BIRD_FLAP_MAX_SPEED;
      }
    }
  }
}
