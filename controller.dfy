/**
 * The controller part of src/Main.java: the Start and Stop buttons' disabled
 * flags, the shared MovableBall, and one method per event handler that
 * ballController installs. Every handler is proved against Control.Handle and
 * keeps Control.Inv.
 */
module Controller {
  import opened Motion
  import opened Ball
  import opened Control

  class BallController<Color> {
    var startDisabled: bool
    var stopDisabled: bool
    const ball: MovableBall<Color>

    ghost function State(): Panel<Color>
      reads this, ball
    {
      Panel(ball.State(), startDisabled, stopDisabled)
    }

    ghost predicate Valid()
      reads this, ball
    {
      Inv(State())
    }

    /**
     * Start-up: the ball centred in the preferred pane size with radius 20 and
     * the picker's colour; Stop is disabled, Start is enabled.
     */
    constructor (color: Color, width: real, height: real)
      ensures Valid() && fresh(ball)
      ensures State() == Initial(color, width, height)
    {
      ball := new MovableBall(PrefSize / 2.0, PrefSize / 2.0, BallRadius, color, width, height);
      startDisabled := false;
      stopDisabled := true;
    }

    /** The Horizontal radio button's selection changed to `selected`. */
    method OnHorizontalToggled(selected: bool)
      requires Valid()
      modifies ball
      ensures Valid()
      ensures State() == Handle(old(State()), HorizontalToggled(selected))
    {
      if selected {
        ball.MoveHorizontalToRight();
      }
      HandleKeepsInv(old(State()), HorizontalToggled(selected));
    }

    /** The Vertical radio button's selection changed to `selected`. */
    method OnVerticalToggled(selected: bool)
      requires Valid()
      modifies ball
      ensures Valid()
      ensures State() == Handle(old(State()), VerticalToggled(selected))
    {
      if selected {
        ball.MoveVerticalToUp();
      }
      HandleKeepsInv(old(State()), VerticalToggled(selected));
    }

    /** The colour picker's value changed to `color`. */
    method OnColorPicked(color: Color)
      requires Valid()
      modifies ball
      ensures Valid()
      ensures State() == Handle(old(State()), ColorPicked(color))
    {
      ball.ChangeBallColor(color);
      HandleKeepsInv(old(State()), ColorPicked(color));
    }

    /**
     * Start was clicked. Without a direction the warning "Select a direction"
     * is shown (`warned`) and nothing changes; otherwise Start is disabled,
     * Stop enabled and the ball plays.
     */
    method OnStart() returns (warned: bool)
      requires Valid()
      modifies this, ball
      ensures Valid()
      ensures warned == NotDirected(old(ball.velocity))
      ensures State() == Handle(old(State()), StartClicked)
    {
      if ball.NotDirected() {
        warned := true;
      } else {
        warned := false;
        startDisabled := true;
        stopDisabled := false;
        ball.Play();
      }
      HandleKeepsInv(old(State()), StartClicked);
    }

    /** Stop was clicked: Start enabled, Stop disabled, the ball stops. */
    method OnStop()
      requires Valid()
      modifies this, ball
      ensures Valid()
      ensures State() == Handle(old(State()), StopClicked)
    {
      startDisabled := false;
      stopDisabled := true;
      ball.Stop();
      HandleKeepsInv(old(State()), StopClicked);
    }

    /** Reverse was clicked: the if/else-if chain over the four directions. */
    method OnReverse()
      requires Valid()
      modifies ball
      ensures Valid()
      ensures State() == Handle(old(State()), ReverseClicked)
    {
      if ball.IsLeft() {
        ball.MoveHorizontalToRight();
      } else if ball.IsRight() {
        ball.MoveHorizontalToLeft();
      } else if ball.IsDown() {
        ball.MoveVerticalToUp();
      } else if ball.IsUp() {
        ball.MoveVerticalToDown();
      }
      HandleKeepsInv(old(State()), ReverseClicked);
    }

    /** The ball's timeline fired its key frame. */
    method OnKeyFrame()
      requires Valid()
      modifies ball
      ensures Valid()
      ensures State() == Handle(old(State()), KeyFrame)
    {
      ball.KeyFrame();
      HandleKeepsInv(old(State()), KeyFrame);
    }
  }

  /**
   * Start-up, Horizontal, Start, one key frame and Stop: the ball moves from
   * (300, 300) to (350, 300) and stays there while further key frames fire.
   */
  method FirstStepThenStop<Color>(color: Color, width: real, height: real)
    requires width >= 320.0
  {
    var c := new BallController(color, width, height);
    var warned := c.OnStart();
    assert warned && !c.ball.running && !c.startDisabled && c.stopDisabled;
    c.OnHorizontalToggled(true);
    warned := c.OnStart();
    assert !warned && c.ball.running && c.startDisabled && !c.stopDisabled;
    c.OnKeyFrame();
    assert c.ball.centerX == 350.0 && c.ball.centerY == 300.0 && c.ball.IsRight();
    c.OnStop();
    c.OnKeyFrame();
    c.OnKeyFrame();
    assert c.ball.centerX == 350.0 && c.ball.centerY == 300.0;
    assert !c.startDisabled && c.stopDisabled;
  }
}
