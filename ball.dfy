/**
 * The class MovableBall of src/MovableBall.java: a pane holding one circle,
 * with its velocity pair and its animation timeline. Every method is proved
 * against the value-level model in module Motion.
 */
module Ball {
  import opened Motion

  class MovableBall<Color> {
    var centerX: real
    var centerY: real
    /** The circle's radius: set by the constructor, never written again. */
    const radius: real
    var color: Color
    var velocity: Velocity
    /** Whether the animation timeline plays. */
    var running: bool
    /** The pane's size, fixed by the surrounding layout. */
    const width: real
    const height: real

    ghost function State(): BallState<Color>
      reads this
    {
      BallState(centerX, centerY, radius, color, velocity, running, width, height)
    }

    /** A ball at the given centre, not directed and not playing. */
    constructor (centerX: real, centerY: real, radius: real, color: Color, width: real, height: real)
      ensures State() == BallState(centerX, centerY, radius, color, Undirected, false, width, height)
      ensures NotDirected() && !IsLeft() && !IsRight() && !IsUp() && !IsDown()
    {
      this.centerX := centerX;
      this.centerY := centerY;
      this.radius := radius;
      this.color := color;
      this.velocity := Undirected;
      this.running := false;
      this.width := width;
      this.height := height;
    }

    /** Recolours the circle; position, radius and velocity stay as they are. */
    method ChangeBallColor(color: Color)
      modifies this
      ensures State() == old(State()).(color := color)
    {
      this.color := color;
    }

    /**
     * One firing of the key frame: reflect each axis whose border the previous
     * centre has crossed, then add the velocity to the centre.
     */
    method AnimateBallPerTime()
      requires velocity.Delta?
      modifies this
      ensures State() == Tick(old(State()))
    {
      var changeInX := velocity.changeInX;
      var changeInY := velocity.changeInY;
      if centerX < radius || centerX > width - radius {
        changeInX := changeInX * -1.0;
      }
      if centerY < radius || centerY > height - radius {
        changeInY := changeInY * -1.0;
      }
      velocity := Delta(changeInX, changeInY);
      centerX := changeInX + centerX;
      centerY := changeInY + centerY;
    }

    /** The timeline's key frame: it ticks the ball only while it plays. */
    method KeyFrame()
      requires running ==> velocity.Delta?
      modifies this
      ensures State() == Frame(old(State()))
    {
      if running {
        AnimateBallPerTime();
      }
    }

    method Stop()
      modifies this
      ensures State() == old(State()).(running := false)
    {
      running := false;
    }

    method Play()
      modifies this
      ensures State() == old(State()).(running := true)
    {
      running := true;
    }

    method MoveHorizontalToRight()
      modifies this
      ensures State() == old(State()).(velocity := Canonical(Right))
      ensures IsRight() && !NotDirected()
    {
      velocity := Delta(Speed, 0.0);
    }

    method MoveVerticalToUp()
      modifies this
      ensures State() == old(State()).(velocity := Canonical(Up))
      ensures IsUp() && !NotDirected()
    {
      velocity := Delta(0.0, -Speed);
    }

    method MoveVerticalToDown()
      modifies this
      ensures State() == old(State()).(velocity := Canonical(Down))
      ensures IsDown() && !NotDirected()
    {
      velocity := Delta(0.0, Speed);
    }

    method MoveHorizontalToLeft()
      modifies this
      ensures State() == old(State()).(velocity := Canonical(Left))
      ensures IsLeft() && !NotDirected()
    {
      velocity := Delta(-Speed, 0.0);
    }

    predicate IsLeft()
      reads this
    {
      Motion.IsLeft(velocity)
    }

    predicate IsRight()
      reads this
    {
      Motion.IsRight(velocity)
    }

    predicate IsUp()
      reads this
    {
      Motion.IsUp(velocity)
    }

    predicate IsDown()
      reads this
    {
      Motion.IsDown(velocity)
    }

    predicate NotDirected()
      reads this
    {
      Motion.NotDirected(velocity)
    }
  }
}
