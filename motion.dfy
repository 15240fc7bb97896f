/**
 * Value-level model of the ball in src/MovableBall.java: its velocity pair,
 * the four direction setters and five direction predicates, and the tick
 * `animateBallPerTime` that reflects at the pane's borders and then moves.
 * The class in ball.dfy is proved against the functions of this module.
 */
module Motion {

  /** Distance the ball moves along its axis on every tick. */
  const Speed: real := 50.0

  /**
   * The pair (changeInX, changeInY) that every tick adds to the centre.
   * `Undirected` is the pair the ball is created with, both components
   * +infinity; no operation writes it again.
   */
  datatype Velocity = Undirected | Delta(changeInX: real, changeInY: real)

  /** The four directions, one per setter. */
  datatype Direction = Left | Right | Up | Down

  /** The pair each setter writes (moveHorizontalToRight, ...ToLeft, moveVerticalToUp, ...ToDown). */
  function Canonical(d: Direction): (v: Velocity)
    ensures Aligned(v)
    ensures d.Left? || d.Right? ==> Horizontal(v)
    ensures d.Up? || d.Down? ==> Vertical(v)
  {
    match d
    case Right => Delta(Speed, 0.0)
    case Left => Delta(-Speed, 0.0)
    case Up => Delta(0.0, -Speed)
    case Down => Delta(0.0, Speed)
  }

  // The five direction predicates: exact comparisons of the pair.

  predicate IsLeft(v: Velocity) {
    v.Delta? && v.changeInX == -Speed && v.changeInY == 0.0
  }

  predicate IsRight(v: Velocity) {
    v.Delta? && v.changeInX == Speed && v.changeInY == 0.0
  }

  predicate IsUp(v: Velocity) {
    v.Delta? && v.changeInX == 0.0 && v.changeInY == -Speed
  }

  predicate IsDown(v: Velocity) {
    v.Delta? && v.changeInX == 0.0 && v.changeInY == Speed
  }

  predicate NotDirected(v: Velocity) {
    v == Undirected
  }

  /** Motion along x only, at full speed in either sense. */
  predicate Horizontal(v: Velocity) {
    v.Delta? && v.changeInY == 0.0 && (v.changeInX == Speed || v.changeInX == -Speed)
  }

  /** Motion along y only, at full speed in either sense. */
  predicate Vertical(v: Velocity) {
    v.Delta? && v.changeInX == 0.0 && (v.changeInY == Speed || v.changeInY == -Speed)
  }

  /** One component is 0 and the other is +-Speed. */
  predicate Aligned(v: Velocity) {
    Horizontal(v) || Vertical(v)
  }

  /** Each setter is recognised by its own predicate and by no other. */
  lemma SetterRoundTrip(d: Direction)
    ensures IsLeft(Canonical(d)) <==> d == Left
    ensures IsRight(Canonical(d)) <==> d == Right
    ensures IsUp(Canonical(d)) <==> d == Up
    ensures IsDown(Canonical(d)) <==> d == Down
    ensures !NotDirected(Canonical(d))
  {
  }

  /** At most one of the five predicates holds of any pair. */
  lemma PredicatesExclusive(v: Velocity)
    ensures NotDirected(v) ==> !IsLeft(v) && !IsRight(v) && !IsUp(v) && !IsDown(v)
    ensures IsLeft(v) ==> !IsRight(v) && !IsUp(v) && !IsDown(v)
    ensures IsRight(v) ==> !IsUp(v) && !IsDown(v)
    ensures IsUp(v) ==> !IsDown(v)
  {
  }

  /** The axis-aligned pairs are exactly the four the setters write. */
  lemma AlignedIsCanonical(v: Velocity)
    ensures Aligned(v) <==> IsLeft(v) || IsRight(v) || IsUp(v) || IsDown(v)
    ensures Aligned(v) <==> exists d: Direction :: v == Canonical(d)
  {
    if Aligned(v) {
      if IsLeft(v) {
        assert v == Canonical(Left);
      } else if IsRight(v) {
        assert v == Canonical(Right);
      } else if IsUp(v) {
        assert v == Canonical(Up);
      } else {
        assert v == Canonical(Down);
      }
    }
  }

  /** One axis of the ball: the centre coordinate and the displacement along it. */
  datatype Axis = Axis(center: real, change: real)

  /**
   * The border test of the tick for one axis, made on the centre left by the
   * previous tick: the ball's edge is past the low or the high border.
   */
  predicate Crossed(center: real, radius: real, extent: real) {
    center < radius || center > extent - radius
  }

  /**
   * One axis of the tick: the displacement is negated when the previous centre
   * is past a border, and only then added to the centre.
   */
  function AxisTick(a: Axis, radius: real, extent: real): (r: Axis)
    ensures r.change == a.change || r.change == -a.change
    ensures r.center == a.center + r.change
    ensures a.change == 0.0 ==> r == a
  {
    var change := if Crossed(a.center, radius, extent) then -a.change else a.change;
    Axis(a.center + change, change)
  }

  /** Inside the borders the displacement is kept and the centre moves by it. */
  lemma AxisTickInside(a: Axis, radius: real, extent: real)
    requires radius <= a.center <= extent - radius
    ensures AxisTick(a, radius, extent) == Axis(a.center + a.change, a.change)
  {
  }

  /**
   * Past a border the displacement is negated first and the centre moves by the
   * negated value: the reflection takes effect one tick after the crossing.
   */
  lemma AxisTickReflects(a: Axis, radius: real, extent: real)
    requires a.center < radius || a.center > extent - radius
    ensures AxisTick(a, radius, extent) == Axis(a.center - a.change, -a.change)
  {
  }

  /** n ticks of one axis. */
  function AxisRun(a: Axis, radius: real, extent: real, n: nat): (r: Axis)
    ensures r.change == a.change || r.change == -a.change
    ensures a.change == 0.0 ==> r == a
    decreases n
  {
    if n == 0 then a else AxisRun(AxisTick(a, radius, extent), radius, extent, n - 1)
  }

  /**
   * The ball is at most one step past a border of this axis, and only while its
   * displacement still points outward.
   */
  predicate WithinOneStep(a: Axis, radius: real, extent: real) {
    (a.change == Speed || a.change == -Speed) &&
    radius - Speed <= a.center <= extent - radius + Speed &&
    (a.center < radius ==> a.change == -Speed) &&
    (a.center > extent - radius ==> a.change == Speed)
  }

  /** A ball inside the borders, moving at full speed, is within one step. */
  lemma InsideIsWithinOneStep(a: Axis, radius: real, extent: real)
    requires radius <= a.center <= extent - radius
    requires a.change == Speed || a.change == -Speed
    ensures WithinOneStep(a, radius, extent)
  {
  }

  /** A tick keeps the ball within one step of the borders when the pane holds the ball. */
  lemma AxisTickWithinOneStep(a: Axis, radius: real, extent: real)
    requires 2.0 * radius <= extent
    requires WithinOneStep(a, radius, extent)
    ensures WithinOneStep(AxisTick(a, radius, extent), radius, extent)
  {
  }

  /** The overshoot bound holds for every number of ticks. */
  lemma {:induction false} AxisRunWithinOneStep(a: Axis, radius: real, extent: real, n: nat)
    requires 2.0 * radius <= extent
    requires WithinOneStep(a, radius, extent)
    ensures WithinOneStep(AxisRun(a, radius, extent, n), radius, extent)
    decreases n
  {
    if n > 0 {
      AxisTickWithinOneStep(a, radius, extent);
      AxisRunWithinOneStep(AxisTick(a, radius, extent), radius, extent, n - 1);
    }
  }

  /**
   * An overshoot lasts one tick: when the pane is at least one step wider than
   * the ball, the tick after a crossing puts the ball back inside the borders.
   */
  lemma OvershootLastsOneTick(a: Axis, radius: real, extent: real)
    requires 2.0 * radius + Speed <= extent
    requires WithinOneStep(a, radius, extent)
    requires Crossed(a.center, radius, extent)
    ensures !Crossed(AxisTick(a, radius, extent).center, radius, extent)
  {
  }

  /**
   * When the centre and the centre one step back are both past a border, the
   * ball alternates between the two forever: each tick sees a crossing and
   * negates the displacement again.
   */
  lemma {:induction false} Oscillates(a: Axis, radius: real, extent: real, n: nat)
    requires Crossed(a.center, radius, extent)
    requires Crossed(a.center - a.change, radius, extent)
    ensures AxisRun(a, radius, extent, 2 * n) == a
    ensures AxisRun(a, radius, extent, 2 * n + 1) == Axis(a.center - a.change, -a.change)
    decreases n
  {
    var b := AxisTick(a, radius, extent);
    assert b == Axis(a.center - a.change, -a.change);
    assert AxisTick(b, radius, extent) == a;
    if n > 0 {
      Oscillates(a, radius, extent, n - 1);
      calc {
        AxisRun(a, radius, extent, 2 * n);
        AxisRun(b, radius, extent, 2 * n - 1);
        AxisRun(a, radius, extent, 2 * (n - 1));
      }
      calc {
        AxisRun(a, radius, extent, 2 * n + 1);
        AxisRun(b, radius, extent, 2 * n);
        AxisRun(a, radius, extent, 2 * (n - 1) + 1);
      }
    }
  }

  /** In that situation the ball never comes back inside the borders. */
  lemma NeverReturns(a: Axis, radius: real, extent: real, n: nat)
    requires Crossed(a.center, radius, extent)
    requires Crossed(a.center - a.change, radius, extent)
    ensures AxisRun(a, radius, extent, n).center in {a.center, a.center - a.change}
    ensures Crossed(AxisRun(a, radius, extent, n).center, radius, extent)
  {
    Oscillates(a, radius, extent, n / 2);
  }

  /**
   * Everything the core keeps about the ball: the circle (centre, radius,
   * colour), the velocity pair, whether the timeline plays, and the size of the
   * pane the ball lives in.
   */
  datatype BallState<Color> = BallState(
    centerX: real, centerY: real, radius: real, color: Color,
    velocity: Velocity, running: bool, width: real, height: real)

  function XAxis<Color>(b: BallState<Color>): Axis
    requires b.velocity.Delta?
  {
    Axis(b.centerX, b.velocity.changeInX)
  }

  function YAxis<Color>(b: BallState<Color>): Axis
    requires b.velocity.Delta?
  {
    Axis(b.centerY, b.velocity.changeInY)
  }

  /**
   * The tick animateBallPerTime: each axis is handled by AxisTick against the
   * pane's width or height, independently of the other axis.
   */
  function Tick<Color>(b: BallState<Color>): (r: BallState<Color>)
    requires b.velocity.Delta?
    ensures r.velocity.Delta?
    ensures XAxis(r) == AxisTick(XAxis(b), b.radius, b.width)
    ensures YAxis(r) == AxisTick(YAxis(b), b.radius, b.height)
    ensures r == b.(centerX := r.centerX, centerY := r.centerY, velocity := r.velocity)
    ensures Horizontal(b.velocity) ==> Horizontal(r.velocity) && r.centerY == b.centerY
    ensures Vertical(b.velocity) ==> Vertical(r.velocity) && r.centerX == b.centerX
  {
    var x := AxisTick(XAxis(b), b.radius, b.width);
    var y := AxisTick(YAxis(b), b.radius, b.height);
    b.(centerX := x.center, centerY := y.center, velocity := Delta(x.change, y.change))
  }

  /** n firings of the timeline's key frame while it plays. */
  function Run<Color>(b: BallState<Color>, n: nat): (r: BallState<Color>)
    requires b.velocity.Delta?
    ensures r.velocity.Delta?
    ensures r == b.(centerX := r.centerX, centerY := r.centerY, velocity := r.velocity)
    decreases n
  {
    if n == 0 then b else Run(Tick(b), n - 1)
  }

  /**
   * One firing of the timeline's key frame: a tick while the timeline plays,
   * nothing while it is stopped. A playing but undirected ball is left as it is
   * (the controller never lets that state arise; see Control.HandleKeepsInv).
   */
  function Frame<Color>(b: BallState<Color>): BallState<Color>
  {
    if b.running && b.velocity.Delta? then Tick(b) else b
  }

  /** Over any number of ticks each axis evolves on its own, as AxisRun says. */
  lemma {:induction false} RunAxes<Color>(b: BallState<Color>, n: nat)
    requires b.velocity.Delta?
    ensures XAxis(Run(b, n)) == AxisRun(XAxis(b), b.radius, b.width, n)
    ensures YAxis(Run(b, n)) == AxisRun(YAxis(b), b.radius, b.height, n)
    decreases n
  {
    if n > 0 {
      RunAxes(Tick(b), n - 1);
    }
  }

  /**
   * A directed ball stays axis-aligned at full speed; a horizontal one never
   * changes its centreY and a vertical one never changes its centreX.
   */
  lemma RunKeepsAxis<Color>(b: BallState<Color>, n: nat)
    requires b.velocity.Delta?
    ensures Horizontal(b.velocity) ==> Horizontal(Run(b, n).velocity) && Run(b, n).centerY == b.centerY
    ensures Vertical(b.velocity) ==> Vertical(Run(b, n).velocity) && Run(b, n).centerX == b.centerX
    ensures Aligned(b.velocity) ==> Aligned(Run(b, n).velocity)
  {
    RunAxes(b, n);
  }

  /** The border example: radius 20, width 600, moving right at centreX 595. */
  lemma ReflectionExample<Color>(b: BallState<Color>)
    requires b.radius == 20.0 && b.width == 600.0 && b.height == 600.0
    requires b.centerX == 595.0 && b.centerY == 300.0 && b.velocity == Delta(50.0, 0.0)
    ensures Tick(b).velocity == Delta(-50.0, 0.0)
    ensures Tick(b).centerX == 545.0 && Tick(b).centerY == 300.0
  {
  }
}
