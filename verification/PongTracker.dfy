/** The rule-based controller of the right paddle, and the proof that it never concedes a point. */
module PongTracker {
  import opened Wrappers
  import opened PongEngine

  const DEAD_ZONE := 20

  const NO_INPUT := Input(false, false, false, false)

  function BallCentre(s: State): real { s.ballY + s.ballSize as real / 2.0 }

  function PaddleCentre(s: State): real { s.rightY + s.paddleH as real / 2.0 }

  /** The controller: follow the ball's centre unless it is within the dead zone. */
  function GetInput(state: Option<State>, deadZone: int): Input {
    match state
    case None => NO_INPUT
    case Some(s) =>
      var diff := BallCentre(s) - PaddleCentre(s);
      NO_INPUT.(rightUp := diff < -(deadZone as real), rightDown := diff > deadZone as real)
  }

  /** The keys a human holds for the left paddle. */
  datatype Keys = Keys(up: bool, down: bool)

  function Drive(s: State, left: Keys, deadZone: int): Input {
    GetInput(Some(s), deadZone).(leftUp := left.up, leftDown := left.down)
  }

  /** A run in which the controller sees each state before the step, and the left player does anything. */
  function Play(s: State, lefts: seq<Keys>, deadZone: int): State
    decreases |lefts|
  {
    if lefts == [] then s else Play(Step(s, Drive(s, lefts[0], deadZone)), lefts[1..], deadZone)
  }

  /** What one step with the controller does to the paddles. With d the height of the ball's centre below the right
      paddle's: the right paddle moves towards the ball, by its speed or what is left of the field, iff the centres are
      further apart than the dead zone, and otherwise rests; the left one follows the left player's keys. Below a
      negative dead zone the controller may press both keys. Without a state it presses none. */
  lemma ControllerMoves(s: State, left: Keys, deadZone: int)
    requires InPlay(s)
    ensures var t, floor, zone := Step(s, Drive(s, left, deadZone)), (s.height - s.paddleH) as real, deadZone as real;
      var d := s.ballY + s.ballSize as real / 2.0 - (s.rightY + s.paddleH as real / 2.0);
      && t.rightY - s.rightY == Travel(s.rightY, floor, d < -zone, d > zone)
      && (deadZone >= 0 ==>
            && (-zone <= d <= zone ==> t.rightY == s.rightY)
            && (d > zone ==> t.rightY == if s.rightY + 7.0 <= floor then s.rightY + 7.0 else floor)
            && (d < -zone ==> t.rightY == if s.rightY - 7.0 >= 0.0 then s.rightY - 7.0 else 0.0)
            && (t.rightY == s.rightY
                <==> -zone <= d <= zone || (d > zone && s.rightY == floor) || (d < -zone && s.rightY == 0.0)))
      && t.leftY - s.leftY == Travel(s.leftY, floor, left.up, left.down)
      && (GetInput(Some(s), DEAD_ZONE) == NO_INPUT <==> -20.0 <= d <= 20.0)
    ensures GetInput(None, deadZone) == Input(false, false, false, false)
  {
    PaddlesTravel(s, Drive(s, left, deadZone));
  }

  /** How far the paddle's centre is from the ball's. */
  function Gap(s: State): real { Abs(BallCentre(s) - PaddleCentre(s)) }

  /** The largest gap at which the paddle still touches the ball. */
  function Reach(s: State): real { (s.paddleH + s.ballSize) as real / 2.0 }

  /** By how much the paddle closes in on the ball in one step, at least. */
  function Gain(s: State): real { PADDLE_SPEED - Abs(s.ballDy) }

  /** Horizontal flight left before the right paddle. */
  function Runway(s: State): real { Max(0.0, RightEdge(s) - s.ballX) }

  /** The paddle gains on the ball at least as fast as the ball flies, neither resting nor moving puts the ball
      out of its reach, and it can cross the whole field while the ball flies over from the left paddle, or from
      the centre after a serve. */
  predicate Catchable(s: State, deadZone: int) {
    && 0 <= deadZone && Abs(s.ballDx) <= Gain(s)
    && deadZone as real + Abs(s.ballDy) <= Reach(s)
    && PADDLE_SPEED + Abs(s.ballDy) <= Reach(s)
    && s.height as real - 2.0 * Reach(s) <= RightEdge(s) - s.paddleW as real
    && s.height as real / 2.0 - s.paddleH as real <= RightEdge(s) - s.width as real / 2.0
  }

  /** While the ball comes closer, the gap beyond the paddle's reach can still be closed in time. */
  predicate InTime(s: State) {
    s.ballDx > 0.0 ==> Gap(s) - Reach(s) <= Runway(s)
  }

  /** The gap once the paddles have moved and the ball has met the walls, before contacts and points. */
  function MovedGap(s: State, inp: Input): real {
    var p := MovePaddles(s, inp);
    Gap(p.(ballY := Max(0.0, Min(BallFloor(s), s.ballY + s.ballDy))))
  }

  predicate Closes(s: State, left: Keys, deadZone: int) {
    var g := MovedGap(s, Drive(s, left, deadZone));
    g <= Reach(s) || g <= Gap(s) - Gain(s)
  }

  lemma ClosesFromAbove(s: State, left: Keys, deadZone: int)
    requires InPlay(s) && Catchable(s, deadZone) && BallCentre(s) - PaddleCentre(s) > deadZone as real
    ensures Closes(s, left, deadZone)
  {
  }

  lemma ClosesFromBelow(s: State, left: Keys, deadZone: int)
    requires InPlay(s) && Catchable(s, deadZone) && BallCentre(s) - PaddleCentre(s) < -(deadZone as real)
    ensures Closes(s, left, deadZone)
  {
  }

  lemma ClosesAtRest(s: State, left: Keys, deadZone: int)
    requires InPlay(s) && Catchable(s, deadZone)
    requires -(deadZone as real) <= BallCentre(s) - PaddleCentre(s) <= deadZone as real
    ensures Closes(s, left, deadZone)
  {
  }

  /** One step either brings the gap within reach or shrinks it by the gain. */
  lemma GapCloses(s: State, left: Keys, deadZone: int)
    requires InPlay(s) && Catchable(s, deadZone)
    ensures Closes(s, left, deadZone)
  {
    var diff := BallCentre(s) - PaddleCentre(s);
    if diff > deadZone as real {
      ClosesFromAbove(s, left, deadZone);
    } else if diff < -(deadZone as real) {
      ClosesFromBelow(s, left, deadZone);
    } else {
      ClosesAtRest(s, left, deadZone);
    }
  }

  /** The paddle touches the ball exactly when the gap is within reach. */
  lemma TouchIsReach(s: State, y: real)
    requires Sized(s)
    ensures Touches(s, s.rightY, y) <==> Gap(s.(ballY := y)) <= Reach(s)
  {
  }

  /** An approaching ball flies on until the edge, where a touch turns it round. */
  lemma ApproachingBall(p: State)
    requires InPlay(p) && p.ballDx > 0.0
    ensures var y := Max(0.0, Min(BallFloor(p), p.ballY + p.ballDy)); var x := p.ballX + p.ballDx; var t := MoveBall(p);
      && (x < RightEdge(p) ==> t == p.(ballX := x, ballY := y, ballDy := t.ballDy))
      && (x >= RightEdge(p) && Touches(p, p.rightY, y) ==> t.ballDx < 0.0 && t.leftScore == p.leftScore)
  {
  }

  /** A receding ball turns round at the left paddle or by a serve from the centre. */
  lemma RecedingBall(p: State)
    requires InPlay(p) && p.ballDx < 0.0
    ensures var t := MoveBall(p);
      && t.leftScore == p.leftScore && 0.0 <= t.ballY <= BallFloor(p)
      && (t.ballDx > 0.0 ==> t.ballX == p.paddleW as real
                             || (t.ballX == p.width as real / 2.0 && t.ballY == p.height as real / 2.0))
  {
  }

  /** The ball's half of an approaching step, `g` being the gap once everything has moved. */
  lemma ApproachingBallInTime(p: State, y: real, g: real)
    requires InPlay(p) && p.ballDx > 0.0
    requires y == Max(0.0, Min(BallFloor(p), p.ballY + p.ballDy)) && g == Gap(p.(ballY := y))
    requires g - Reach(p) <= Max(0.0, Runway(p) - p.ballDx)
    ensures MoveBall(p).leftScore == p.leftScore && InTime(MoveBall(p))
  {
    ApproachingBall(p);
    TouchIsReach(p, y);
    if p.ballX + p.ballDx < RightEdge(p) {
      Aligned(p, MoveBall(p), y);
    }
  }

  /** The paddles' half of an approaching step. */
  lemma PaddlesInTime(s: State, left: Keys, deadZone: int)
    requires InPlay(s) && Catchable(s, deadZone) && InTime(s) && s.ballDx > 0.0
    ensures MovedGap(s, Drive(s, left, deadZone)) - Reach(s) <= Max(0.0, Runway(s) - s.ballDx)
  {
    GapCloses(s, left, deadZone);
  }

  /** With the ball approaching: no point for the left side, and still in time if it flies on. */
  lemma ApproachStep(s: State, left: Keys, deadZone: int)
    requires InPlay(s) && Catchable(s, deadZone) && InTime(s) && s.ballDx > 0.0
    ensures var t := Step(s, Drive(s, left, deadZone)); t.leftScore == s.leftScore && InTime(t)
  {
    var inp := Drive(s, left, deadZone);
    PaddlesStayInPlay(s, inp);
    PaddlesInTime(s, left, deadZone);
    ApproachingBallInTime(MovePaddles(s, inp), Max(0.0, Min(BallFloor(s), s.ballY + s.ballDy)), MovedGap(s, inp));
  }

  /** The gap only depends on the heights. */
  lemma Aligned(s: State, t: State, y: real)
    requires t == s.(ballX := t.ballX, ballY := y, ballDy := t.ballDy)
    ensures Gap(t) == Gap(s.(ballY := y)) && Reach(t) == Reach(s) && RightEdge(t) == RightEdge(s)
  {
  }

  /** With the ball receding: if it turns round, the paddle can still cross the field in time. */
  lemma RecedeStep(s: State, left: Keys, deadZone: int)
    requires InPlay(s) && Catchable(s, deadZone) && s.ballDx < 0.0
    ensures var t := Step(s, Drive(s, left, deadZone)); t.leftScore == s.leftScore && InTime(t)
  {
    var inp := Drive(s, left, deadZone);
    PaddlesStayInPlay(s, inp);
    RecedingBallInTime(MovePaddles(s, inp), deadZone);
  }

  /** The ball's half of a receding step. */
  lemma RecedingBallInTime(p: State, deadZone: int)
    requires InPlay(p) && Catchable(p, deadZone) && p.ballDx < 0.0
    ensures MoveBall(p).leftScore == p.leftScore && InTime(MoveBall(p))
  {
    RecedingBall(p);
    BallStaysInPlay(p);
    GapBound(MoveBall(p));
  }

  lemma GapBound(t: State)
    requires Sized(t) && 0.0 <= t.rightY <= PaddleFloor(t) && 0.0 <= t.ballY <= BallFloor(t)
    ensures Gap(t) - Reach(t) <= t.height as real - 2.0 * Reach(t)
    ensures t.ballY == t.height as real / 2.0 ==> Gap(t) - Reach(t) <= t.height as real / 2.0 - t.paddleH as real
  {
  }

  /** Whatever the left player does, the left side never scores against the controller. */
  lemma {:induction false} NeverConcedes(s: State, lefts: seq<Keys>, deadZone: int)
    requires InPlay(s) && Catchable(s, deadZone) && InTime(s)
    ensures var t := Play(s, lefts, deadZone);
      t.leftScore == s.leftScore && InPlay(t) && Catchable(t, deadZone) && InTime(t)
    decreases |lefts|
  {
    if lefts != [] {
      if s.ballDx > 0.0 {
        ApproachStep(s, lefts[0], deadZone);
      } else {
        RecedeStep(s, lefts[0], deadZone);
      }
      PlayfieldKept(s, Drive(s, lefts[0], deadZone));
      NeverConcedes(Step(s, Drive(s, lefts[0], deadZone)), lefts[1..], deadZone);
    }
  }

  /** From the default state the left side's score is 0 after any number of steps. */
  lemma DefaultNeverConcedes(lefts: seq<Keys>)
    ensures Play(DEFAULT_STATE, lefts, DEAD_ZONE).leftScore == 0
    ensures InPlay(Play(DEFAULT_STATE, lefts, DEAD_ZONE))
  {
    NeverConcedes(DEFAULT_STATE, lefts, DEAD_ZONE);
  }
}
