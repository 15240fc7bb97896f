# BallMovement: the ball's motion and its controls, in Dafny

BallMovement is a JavaFX toy. A coloured ball moves inside a pane, one step of
50 units per second, and bounces off the pane's borders. The user picks a
direction with two radio buttons (Horizontal gives Right, Vertical gives Up),
starts and stops the motion, reverses it and recolours the ball with a colour
picker. This project models the two parts of the program that hold logic:

- `MovableBall` (src/MovableBall.java). It holds the circle's centre, radius
  and colour, and the velocity pair `changeInX`/`changeInY` added to the
  centre on every tick. It provides four direction setters and five direction
  predicates, `play`/`stop` of the animation timeline, and the tick
  `animateBallPerTime`. The tick first tests the centre left by the previous
  tick against the borders and negates the velocity component of each axis
  whose border it has crossed. Only then does it move the centre.
- The handlers that `Main.ballController` installs (src/Main.java). They
  cover the radio buttons, the colour picker, and the Start, Stop and Reverse
  buttons with the disabled flags of Start and Stop.

The project has four modules, one per file:

- `Motion` (motion.dfy) is the value-level model of the ball. It defines the
  `Velocity` pair, in which the constructor `Undirected` stands for the
  initial pair (+infinity, +infinity). It also defines the setters' pairs
  (`Canonical`), the five predicates, and the tick. The tick is split per
  axis (`AxisTick`) and repeated by `AxisRun` and `Run`. The module holds the
  lemmas about the motion.
- `Ball` (ball.dfy) is the class `MovableBall`. Each method is proved against
  `Motion`: each `ensures` gives the whole new `State()` as a function of the
  old one.
- `Control` (control.dfy) is the value-level model of the handlers. `Handle`
  gives the effect of one event and `HandleAll` the effect of a sequence of
  events. The invariant `Inv` is kept by every event. The module also holds
  the lemmas about the handlers.
- `Controller` (controller.dfy) is the class `BallController`. It holds the
  two disabled flags and the shared ball, with one method per handler. Each
  method is proved against `Handle` and keeps `Inv`. A client method,
  `FirstStepThenStop`, walks through start-up, a refused Start, Horizontal,
  Start, one key frame and Stop.

The proofs show a consequence of testing the borders before moving. Suppose
the user presses Reverse while the ball is one step past a border and still
moving outward. Reverse turns the ball back inward. But the next tick still
sees the crossing and negates the velocity again, so the ball moves further
out. From then on it alternates between two positions outside the pane and
never returns (`Motion.Oscillates`, `Motion.NeverReturns`). From start-up this
is reached by Vertical, Start, six key frames and Reverse
(`Control.ReverseDuringOvershoot`). The model keeps this behaviour exactly as
the code has it.

The direction predicates follow the code exactly. `notDirected` holds only
of the initial sentinel pair. A velocity
pair other than the sentinel and the four canonical pairs satisfies none of
the five predicates, and Reverse leaves it unchanged.

## Model

| member | source | states |
|---|---|---|
| `Motion.Canonical` | src/MovableBall.java:66-81 | each setter's pair is axis-aligned at speed 50: Right and Left are horizontal, Up and Down vertical |
| `Motion.SetterRoundTrip` | src/MovableBall.java:66-95 | after each setter, its own predicate holds, no other direction predicate holds, and the ball is directed |
| `Motion.PredicatesExclusive` | src/MovableBall.java:84-101 | at most one of isLeft, isRight, isUp, isDown and notDirected holds of any velocity pair |
| `Motion.AlignedIsCanonical` | src/MovableBall.java:66-95 | a pair has one component 0 and the other ±50 exactly when it is one of the four setters' pairs |
| `Motion.AxisTick` | src/MovableBall.java:38-50 | one axis of a tick keeps the speed, possibly negated, and moves the centre by the new displacement; a 0 component stays 0 and its centre stays put |
| `Motion.AxisTickInside` | src/MovableBall.java:40-49 | with the centre inside [radius, extent - radius], the displacement is unchanged and the centre moves by it |
| `Motion.AxisTickReflects` | src/MovableBall.java:40-48 | with the centre past a border, the displacement is negated first and the centre moves by the negated value, e.g. 595 with +50 gives 545 with -50 |
| `Motion.AxisRun` | src/MovableBall.java:30-50 | over any number of ticks an axis keeps its speed up to sign, and an axis with displacement 0 never moves |
| `Motion.InsideIsWithinOneStep` | src/MovableBall.java:40-49 | a ball inside the borders and moving at speed 50 satisfies the one-step overshoot bound |
| `Motion.AxisTickWithinOneStep` | src/MovableBall.java:38-50 | if the pane is at least as wide as the ball, a tick keeps the ball at most one step past a border, and only while it moves outward |
| `Motion.AxisRunWithinOneStep` | src/MovableBall.java:30-50 | the one-step overshoot bound holds after any number of ticks |
| `Motion.OvershootLastsOneTick` | src/MovableBall.java:40-49 | if the pane is at least one step wider than the ball, the tick after a crossing brings the ball back inside the borders |
| `Motion.Oscillates` | src/MovableBall.java:40-49 | if the centre and the centre one step back are both past a border, the ball alternates between those two positions forever |
| `Motion.NeverReturns` | src/MovableBall.java:40-49 | in that situation the ball stays past the border after every number of ticks |
| `Motion.Tick` | src/MovableBall.java:38-50 | a tick changes only the centre and the velocity; each axis follows AxisTick against the pane's width or height; a horizontal ball keeps centreY and a vertical one keeps centreX |
| `Motion.Run` | src/MovableBall.java:30-33 | repeated key frames change only the centre and the velocity, and the ball stays directed |
| `Motion.RunAxes` | src/MovableBall.java:38-50 | over any number of ticks each axis evolves on its own, as AxisRun of that axis |
| `Motion.RunKeepsAxis` | src/MovableBall.java:44-49 | over any number of ticks a horizontal ball stays horizontal with unchanged centreY, a vertical ball stays vertical with unchanged centreX, and an aligned velocity stays aligned |
| `Motion.ReflectionExample` | src/MovableBall.java:40-48 | radius 20, width 600, velocity (50, 0) and centreX 595 give velocity (-50, 0) and centreX 545 after one tick |
| `Ball.MovableBall.constructor` | src/MovableBall.java:12-21 | a new ball has the given centre, radius and colour, is not directed and not playing, and none of the four direction predicates holds |
| `Ball.MovableBall.ChangeBallColor` | src/MovableBall.java:24-26 | only the colour changes; centre, radius, velocity and running are unchanged |
| `Ball.MovableBall.AnimateBallPerTime` | src/MovableBall.java:38-50 | the new state is Motion.Tick of the old one: reflect on the previous centre, then move |
| `Ball.MovableBall.KeyFrame` | src/MovableBall.java:30-33 | a key frame ticks the ball while the timeline plays and changes nothing while it is stopped |
| `Ball.MovableBall.Stop` | src/MovableBall.java:53 | the timeline stops; nothing else changes |
| `Ball.MovableBall.Play` | src/MovableBall.java:55 | the timeline plays; nothing else changes |
| `Ball.MovableBall.MoveHorizontalToRight` | src/MovableBall.java:66-69 | the velocity becomes (50, 0), isRight holds, the ball is directed, nothing else changes |
| `Ball.MovableBall.MoveVerticalToUp` | src/MovableBall.java:70-73 | the velocity becomes (0, -50), isUp holds, the ball is directed, nothing else changes |
| `Ball.MovableBall.MoveVerticalToDown` | src/MovableBall.java:74-77 | the velocity becomes (0, 50), isDown holds, the ball is directed, nothing else changes |
| `Ball.MovableBall.MoveHorizontalToLeft` | src/MovableBall.java:78-81 | the velocity becomes (-50, 0), isLeft holds, the ball is directed, nothing else changes |
| `Control.Initial` | src/Main.java:77 | at start-up the ball is at (300, 300) with radius 20, not directed and not playing; Start is enabled and Stop disabled; the invariant holds |
| `Control.Reverse` | src/Main.java:174-184 | Left and Right swap, Up and Down swap (each in both directions), and any other pair is left unchanged |
| `Control.HandleKeepsInv` | src/Main.java:111-184 | every event keeps the invariant and the radius. The invariant: the ball is undirected or aligned, plays only when directed, Start is disabled exactly while it plays, and Stop exactly while it does not |
| `Control.HandleAllKeepsInv` | src/Main.java:111-184 | the invariant and the radius hold after any sequence of events from a state that satisfies the invariant |
| `Control.StaysDirected` | src/Main.java:113-184 | once directed, the ball never becomes undirected, whatever events follow |
| `Control.StartRefused` | src/Main.java:152-156 | Start while not directed changes nothing: the running state and both flags stay |
| `Control.StartAccepted` | src/Main.java:157-161 | Start while directed disables Start, enables Stop and plays the ball |
| `Control.StopIdempotent` | src/Main.java:166-171 | Stop enables Start, disables Stop and stops the ball; a second Stop changes nothing |
| `Control.ReverseOpposite` | src/Main.java:174-184 | Reverse turns Left into Right, Right into Left, Down into Up and Up into Down, and does nothing when not directed |
| `Control.ReverseTwice` | src/Main.java:174-184 | Reverse applied twice restores the velocity pair, and so the whole state |
| `Control.RadioButtons` | src/Main.java:113-134 | selecting Horizontal gives Right and selecting Vertical gives Up; deselection events change nothing |
| `Control.ColorOnly` | src/Main.java:136-141 | a colour-picker change changes only the ball's colour: direction, position, running and both flags stay |
| `Control.FramesWhileStopped` | src/MovableBall.java:30-33 | any number of key frames on a stopped ball change nothing |
| `Control.FramesAfterStop` | src/Main.java:166-171 | after Stop, no number of key frames changes the state |
| `Control.FramesAreTicks` | src/MovableBall.java:30-50 | key frames on a playing, directed ball advance it exactly as Motion.Run |
| `Control.FirstStepRight` | src/Main.java:144-161 | from start-up, Horizontal, Start and one key frame move the ball to (350, 300), heading right and playing, with Start disabled and Stop enabled |
| `Control.ReverseDuringOvershoot` | src/Main.java:174-184 | after Vertical, Start, six key frames and Reverse the ball is at centreY 0 heading down, and no number of further key frames brings it back below the top border |
| `Controller.BallController.constructor` | src/Main.java:189-208 | the controller starts in Control.Initial: the ball is centred with radius 20, Start is enabled and Stop disabled |
| `Controller.BallController.OnHorizontalToggled` | src/Main.java:113-122 | the new state is Handle of the Horizontal event, and the invariant is kept |
| `Controller.BallController.OnVerticalToggled` | src/Main.java:125-134 | the new state is Handle of the Vertical event, and the invariant is kept |
| `Controller.BallController.OnColorPicked` | src/Main.java:136-142 | the new state is Handle of the picker event, and the invariant is kept |
| `Controller.BallController.OnStart` | src/Main.java:144-163 | the warning is shown exactly when the ball is not directed; the new state is Handle of Start, and the invariant is kept |
| `Controller.BallController.OnStop` | src/Main.java:166-171 | the new state is Handle of Stop, and the invariant is kept |
| `Controller.BallController.OnReverse` | src/Main.java:174-184 | the if/else-if chain over the four predicates gives Handle of Reverse, and the invariant is kept |
| `Controller.BallController.OnKeyFrame` | src/MovableBall.java:31 | a key frame of the ball's timeline gives Handle of the key-frame event, and the invariant is kept |

## Left out

- Rendering and layout are not modelled: the scene, the border pane, the
  button bar, the background images, the stylesheet, the fonts and the
  window (src/Main.java:29-107, 189-234). They are presentation only.
- The warning dialog is not modelled as a dialog. `OnStart` returns `warned`
  instead, and the state does not change.
- The timeline's scheduling and its one-second cadence are not modelled.
  These belong to JavaFX's animation library. `play`/`stop` write the
  `running` flag, and each firing of the key frame is an explicit call
  (`KeyFrame` / `OnKeyFrame`, the `KeyFrame` event).
- Floating point is not modelled: coordinates and velocities are exact
  `real`s. With the program's values (300 ± multiples of 50, radius 20)
  doubles are exact as well. The +infinity sentinel is the constructor
  `Undirected`. The `-0.0` that Java produces from `0 * -1` is 0 here;
  Java's `==` treats the two as equal too.
- Ball.MovableBall.AnimateBallPerTime: requires a directed ball. Ticking an
  undirected ball would compute with infinities in the source, and the
  controller never lets an undirected ball play (`Control.Inv`). In the same
  situation `Motion.Frame` leaves the ball unchanged.
- The pane's width and height are not derived from the layout
  (`getWidth()`/`getHeight()`). They are constants given when the ball is
  created. The window is not resizable.
- `Color` is an opaque type parameter. The colour has no effect on motion.
- Clicks on a disabled button are not modelled separately. JavaFX does not
  deliver them. The handlers are modelled as written, and `Control.Inv`
  relates the flags to the running state.
- The JavaFX entry points `main` and `start`, and `initDrawing` beyond the
  ball's initial centre, radius and colour (src/Main.java:77), are not part
  of this model.
