/**
 * Value-level model of the event handlers that Main.ballController (src/Main.java)
 * installs: the two radio buttons, the colour picker, and the Start, Stop and
 * Reverse buttons with their disabled flags; plus the timeline's key frame,
 * which fires on its own while the ball plays. The class in controller.dfy is
 * proved against Handle.
 */
module Control {
  import opened Motion

  /** Preferred width and height of the window's pane; the ball starts at its middle. */
  const PrefSize: real := 600.0
  /** Radius of the ball created at start-up. */
  const BallRadius: real := 20.0

  /** The events the handlers react to. */
  datatype Event<Color> =
    | HorizontalToggled(selected: bool)
    | VerticalToggled(selected: bool)
    | ColorPicked(color: Color)
    | StartClicked
    | StopClicked
    | ReverseClicked
    | KeyFrame

  /** The ball together with the disabled flags of the Start and Stop buttons. */
  datatype Panel<Color> = Panel(ball: BallState<Color>, startDisabled: bool, stopDisabled: bool)

  /**
   * The state after start-up: the ball centred in the preferred pane size with
   * radius 20, not directed and not playing; Start enabled, Stop disabled.
   */
  function Initial<Color>(color: Color, width: real, height: real): (p: Panel<Color>)
    ensures Inv(p)
    ensures NotDirected(p.ball.velocity) && !p.ball.running
    ensures !p.startDisabled && p.stopDisabled
  {
    Panel(BallState(PrefSize / 2.0, PrefSize / 2.0, BallRadius, color, Undirected, false, width, height),
          false, true)
  }

  /** The Reverse handler: the opposite direction on the same axis, or no change. */
  function Reverse(v: Velocity): (r: Velocity)
    ensures IsLeft(v) <==> IsRight(r)
    ensures IsRight(v) <==> IsLeft(r)
    ensures IsUp(v) <==> IsDown(r)
    ensures IsDown(v) <==> IsUp(r)
    ensures !(IsLeft(v) || IsRight(v) || IsUp(v) || IsDown(v)) ==> r == v
  {
    if IsLeft(v) then Canonical(Right)
    else if IsRight(v) then Canonical(Left)
    else if IsDown(v) then Canonical(Up)
    else if IsUp(v) then Canonical(Down)
    else v
  }

  /** The effect of one event on the panel. */
  function Handle<Color>(p: Panel<Color>, e: Event<Color>): Panel<Color>
  {
    match e
    case HorizontalToggled(selected) =>
      if selected then p.(ball := p.ball.(velocity := Canonical(Right))) else p
    case VerticalToggled(selected) =>
      if selected then p.(ball := p.ball.(velocity := Canonical(Up))) else p
    case ColorPicked(c) =>
      p.(ball := p.ball.(color := c))
    case StartClicked =>
      // Without a direction only a warning is shown.
      if NotDirected(p.ball.velocity) then p
      else Panel(p.ball.(running := true), true, false)
    case StopClicked =>
      Panel(p.ball.(running := false), false, true)
    case ReverseClicked =>
      p.(ball := p.ball.(velocity := Reverse(p.ball.velocity)))
    case KeyFrame =>
      p.(ball := Frame(p.ball))
  }

  /** The effect of a sequence of events, in order. */
  function HandleAll<Color>(p: Panel<Color>, es: seq<Event<Color>>): Panel<Color>
    decreases |es|
  {
    if es == [] then p else HandleAll(Handle(p, es[0]), es[1..])
  }

  /**
   * What every reachable panel satisfies: the ball is undirected or axis-aligned
   * at full speed, it plays only when directed, and exactly one of Start and
   * Stop is disabled, Start exactly while the ball plays.
   */
  predicate Inv<Color>(p: Panel<Color>) {
    (NotDirected(p.ball.velocity) || Aligned(p.ball.velocity)) &&
    (p.ball.running ==> !NotDirected(p.ball.velocity)) &&
    p.startDisabled == p.ball.running &&
    p.stopDisabled == !p.ball.running
  }

  lemma HandleKeepsInv<Color>(p: Panel<Color>, e: Event<Color>)
    requires Inv(p)
    ensures Inv(Handle(p, e))
    ensures p.ball.radius == Handle(p, e).ball.radius
  {
  }

  lemma {:induction false} HandleAllKeepsInv<Color>(p: Panel<Color>, es: seq<Event<Color>>)
    requires Inv(p)
    ensures Inv(HandleAll(p, es))
    ensures HandleAll(p, es).ball.radius == p.ball.radius
    decreases |es|
  {
    if es != [] {
      HandleKeepsInv(p, es[0]);
      HandleAllKeepsInv(Handle(p, es[0]), es[1..]);
    }
  }

  /** No event sequence makes a directed ball undirected again. */
  lemma {:induction false} StaysDirected<Color>(p: Panel<Color>, es: seq<Event<Color>>)
    requires !NotDirected(p.ball.velocity)
    ensures !NotDirected(HandleAll(p, es).ball.velocity)
    decreases |es|
  {
    if es != [] {
      StaysDirected(Handle(p, es[0]), es[1..]);
    }
  }

  /** Start without a direction changes nothing: the running state and both flags stay. */
  lemma StartRefused<Color>(p: Panel<Color>)
    requires NotDirected(p.ball.velocity)
    ensures Handle(p, StartClicked) == p
  {
  }

  /** Start with a direction disables Start, enables Stop and plays the ball. */
  lemma StartAccepted<Color>(p: Panel<Color>)
    requires !NotDirected(p.ball.velocity)
    ensures Handle(p, StartClicked) == Panel(p.ball.(running := true), true, false)
  {
  }

  /** Stop enables Start, disables Stop and stops the ball; a second Stop changes nothing. */
  lemma StopIdempotent<Color>(p: Panel<Color>)
    ensures Handle(p, StopClicked) == Panel(p.ball.(running := false), false, true)
    ensures Handle(Handle(p, StopClicked), StopClicked) == Handle(p, StopClicked)
  {
  }

  /** Reverse maps each direction to its opposite and leaves an undirected ball alone. */
  lemma ReverseOpposite<Color>(p: Panel<Color>)
    ensures IsLeft(p.ball.velocity) ==> IsRight(Handle(p, ReverseClicked).ball.velocity)
    ensures IsRight(p.ball.velocity) ==> IsLeft(Handle(p, ReverseClicked).ball.velocity)
    ensures IsDown(p.ball.velocity) ==> IsUp(Handle(p, ReverseClicked).ball.velocity)
    ensures IsUp(p.ball.velocity) ==> IsDown(Handle(p, ReverseClicked).ball.velocity)
    ensures NotDirected(p.ball.velocity) ==> Handle(p, ReverseClicked) == p
  {
  }

  /** Reverse applied twice restores the velocity pair, and so the whole panel. */
  lemma ReverseTwice<Color>(p: Panel<Color>)
    ensures Handle(Handle(p, ReverseClicked), ReverseClicked) == p
  {
  }

  /** Selecting Horizontal gives Right, Vertical gives Up; deselection changes nothing. */
  lemma RadioButtons<Color>(p: Panel<Color>)
    ensures IsRight(Handle(p, HorizontalToggled(true)).ball.velocity)
    ensures IsUp(Handle(p, VerticalToggled(true)).ball.velocity)
    ensures Handle(p, HorizontalToggled(false)) == p && Handle(p, VerticalToggled(false)) == p
  {
  }

  /** A colour change touches only the ball's colour. */
  lemma ColorOnly<Color>(p: Panel<Color>, c: Color)
    ensures Handle(p, ColorPicked(c)) == p.(ball := p.ball.(color := c))
  {
  }

  /** Key frames on a stopped ball change nothing, however many fire. */
  lemma {:induction false} FramesWhileStopped<Color>(p: Panel<Color>, es: seq<Event<Color>>)
    requires !p.ball.running
    requires forall i :: 0 <= i < |es| ==> es[i].KeyFrame?
    ensures HandleAll(p, es) == p
    decreases |es|
  {
    if es != [] {
      FramesWhileStopped(Handle(p, es[0]), es[1..]);
    }
  }

  /** After Stop no number of key frames changes the ball. */
  lemma FramesAfterStop<Color>(p: Panel<Color>, es: seq<Event<Color>>)
    requires forall i :: 0 <= i < |es| ==> es[i].KeyFrame?
    ensures HandleAll(Handle(p, StopClicked), es) == Handle(p, StopClicked)
  {
    FramesWhileStopped(Handle(p, StopClicked), es);
  }

  /** Key frames on a playing, directed ball are exactly the ticks of Motion.Run. */
  lemma {:induction false} FramesAreTicks<Color>(p: Panel<Color>, es: seq<Event<Color>>)
    requires p.ball.running && p.ball.velocity.Delta?
    requires forall i :: 0 <= i < |es| ==> es[i].KeyFrame?
    ensures HandleAll(p, es) == p.(ball := Run(p.ball, |es|))
    decreases |es|
  {
    if es != [] {
      FramesAreTicks(Handle(p, es[0]), es[1..]);
    }
  }

  /** Running the events of a + b is running a, then b. */
  lemma {:induction false} HandleAllAppend<Color>(p: Panel<Color>, a: seq<Event<Color>>, b: seq<Event<Color>>)
    ensures HandleAll(p, a + b) == HandleAll(HandleAll(p, a), b)
    decreases |a|
  {
    if a != [] {
      assert (a + b)[0] == a[0];
      assert (a + b)[1..] == a[1..] + b;
      HandleAllAppend(Handle(p, a[0]), a[1..], b);
    } else {
      assert a + b == b;
    }
  }

  lemma HandleAllOne<Color>(p: Panel<Color>, e: Event<Color>)
    ensures HandleAll(p, [e]) == Handle(p, e)
  {
    var s := [e];
    assert HandleAll(p, s) == HandleAll(Handle(p, s[0]), s[1..]);
  }

  /** From start-up, Horizontal, Start and one key frame move the ball from (300, 300) to (350, 300). */
  lemma FirstStepRight<Color>(color: Color, width: real, height: real)
    requires width >= 320.0
    ensures var p := HandleAll(Initial(color, width, height), [HorizontalToggled(true), StartClicked, KeyFrame]);
      p.ball.centerX == 350.0 && p.ball.centerY == 300.0 && IsRight(p.ball.velocity) &&
      p.ball.running && p.startDisabled && !p.stopDisabled
  {
    var es: seq<Event<Color>> := [HorizontalToggled(true), StartClicked, KeyFrame];
    var p0 := Initial(color, width, height);
    var p1 := Handle(p0, es[0]);
    var p2 := Handle(p1, es[1]);
    var p3 := Handle(p2, es[2]);
    assert HandleAll(p0, es) == HandleAll(p1, es[1..]);
    assert HandleAll(p1, es[1..]) == HandleAll(p2, es[2..]);
    assert HandleAll(p2, es[2..]) == HandleAll(p3, es[3..]);
  }

  /**
   * Reverse pressed while the ball is one step past the top border leaves it
   * there for good: after Vertical, Start and six key frames the ball sits at
   * centreY 0 still moving up; Reverse sends it down, the next key frame sees
   * the crossing and sends it up again, and from then on every key frame does
   * the same, so centreY alternates between -50 and 0 and never comes back
   * inside the pane.
   */
  lemma ReverseDuringOvershoot<Color>(color: Color, width: real, height: real, es: seq<Event<Color>>)
    requires height >= 320.0
    requires forall i :: 0 <= i < |es| ==> es[i].KeyFrame?
    ensures var p := HandleAll(Initial(color, width, height),
                               [VerticalToggled(true), StartClicked] + Frames(6) + [ReverseClicked]);
      p.ball.centerY == 0.0 && IsDown(p.ball.velocity) && p.ball.running &&
      HandleAll(p, es).ball.centerY < BallRadius
  {
    var p0 := Initial(color, width, height);
    var start: seq<Event<Color>> := [VerticalToggled(true), StartClicked];
    var p2 := HandleAll(p0, start);
    HandleAllOne(p0, VerticalToggled(true));
    HandleAllOne(Handle(p0, VerticalToggled(true)), StartClicked);
    HandleAllAppend(p0, [VerticalToggled(true)], [StartClicked]);
    assert [VerticalToggled(true)] + [StartClicked] == start;
    var p8 := HandleAll(p2, Frames(6));
    TopReachedAfterSixFrames(p2);
    var p9 := Handle(p8, ReverseClicked);
    HandleAllOne(p8, ReverseClicked);
    HandleAllAppend(p0, start, Frames(6));
    HandleAllAppend(p0, start + Frames(6), [ReverseClicked]);
    StuckAfterReverse(p9, es);
  }

  /** Six key frames take a ball playing upward from centreY 300 to centreY 0. */
  lemma TopReachedAfterSixFrames<Color>(p: Panel<Color>)
    requires p.ball.running && IsUp(p.ball.velocity) && p.ball.centerY == 300.0
    requires p.ball.radius == BallRadius && p.ball.height >= 320.0
    ensures var q := HandleAll(p, Frames(6));
      q.ball.centerY == 0.0 && IsUp(q.ball.velocity) && q.ball.running && q.ball.radius == p.ball.radius
  {
    FramesAreTicks(p, Frames(6));
    RunAxes(p.ball, 6);
    SixStepsUp(p.ball.height);
  }

  /** A ball at centreY 0 moving down never comes back below the top border. */
  lemma StuckAfterReverse<Color>(p: Panel<Color>, es: seq<Event<Color>>)
    requires p.ball.running && IsDown(p.ball.velocity) && p.ball.centerY == 0.0
    requires p.ball.radius == BallRadius
    requires forall i :: 0 <= i < |es| ==> es[i].KeyFrame?
    ensures HandleAll(p, es).ball.centerY < BallRadius
  {
    FramesAreTicks(p, es);
    RunAxes(p.ball, |es|);
    NeverReturns(YAxis(p.ball), BallRadius, p.ball.height, |es|);
  }

  /** n key frames in a row. */
  function Frames<Color>(n: nat): (es: seq<Event<Color>>)
    ensures |es| == n && forall i :: 0 <= i < n ==> es[i].KeyFrame?
  {
    seq(n, i => KeyFrame)
  }

  /** Six upward steps from centreY 300 end at 0 without a crossing on the way. */
  lemma SixStepsUp(height: real)
    requires height >= 320.0
    ensures AxisRun(Axis(300.0, -Speed), BallRadius, height, 6) == Axis(0.0, -Speed)
  {
    var r, h := BallRadius, height;
    calc {
      AxisRun(Axis(300.0, -Speed), r, h, 6);
      AxisRun(Axis(250.0, -Speed), r, h, 5);
      AxisRun(Axis(200.0, -Speed), r, h, 4);
      AxisRun(Axis(150.0, -Speed), r, h, 3);
      AxisRun(Axis(100.0, -Speed), r, h, 2);
      AxisRun(Axis(50.0, -Speed), r, h, 1);
      AxisRun(Axis(0.0, -Speed), r, h, 0);
    }
  }
}
