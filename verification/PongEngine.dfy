/** The Pong state machine: one step moves both paddles, then the ball.
    Positions and speeds are reals, so every starting state is covered, not only whole-numbered ones. */
module PongEngine {

  datatype Input = Input(leftUp: bool, leftDown: bool, rightUp: bool, rightDown: bool)

  datatype State = State(
    ballX: real, ballY: real, ballDx: real, ballDy: real,
    leftY: real, rightY: real,
    leftScore: int, rightScore: int,
    width: int, height: int, paddleW: int, paddleH: int, ballSize: int)

  const PADDLE_SPEED := 7.0

  const DEFAULT_STATE := State(400.0, 300.0, 4.0, 3.0, 260.0, 260.0, 0, 0, 800, 600, 12, 80, 12)

  function Abs(x: real): real { if x < 0.0 then -x else x }

  function Max(x: real, y: real): real { if x >= y then x else y }

  function Min(x: real, y: real): real { if x <= y then x else y }

  /** The lowest position of a paddle. */
  function PaddleFloor(s: State): real { (s.height - s.paddleH) as real }

  /** The lowest position of the ball. */
  function BallFloor(s: State): real { (s.height - s.ballSize) as real }

  /** Where the ball is put when it hits the right paddle. */
  function RightEdge(s: State): real { (s.width - s.paddleW - s.ballSize) as real }

  function MovePaddle(y: real, maxY: real, up: bool, down: bool): real {
    var raised := if up then Max(0.0, y - PADDLE_SPEED) else y;
    if down then Min(maxY, raised + PADDLE_SPEED) else raised
  }

  function MovePaddles(s: State, inp: Input): State {
    s.(leftY := MovePaddle(s.leftY, PaddleFloor(s), inp.leftUp, inp.leftDown),
       rightY := MovePaddle(s.rightY, PaddleFloor(s), inp.rightUp, inp.rightDown))
  }

  /** The paddle whose top is at `paddleY` touches a ball whose top is at `ballY`. */
  predicate Touches(s: State, paddleY: real, ballY: real) {
    paddleY <= ballY + s.ballSize as real && ballY <= paddleY + s.paddleH as real
  }

  function MoveBall(s: State): State {
    var movedX := s.ballX + s.ballDx;
    var movedY := s.ballY + s.ballDy;
    var wall := movedY <= 0.0 || movedY + s.ballSize as real >= s.height as real;
    var dy := if wall then -s.ballDy else s.ballDy;
    var y := if wall then Max(0.0, Min(BallFloor(s), movedY)) else movedY;
    var left := s.ballDx < 0.0 && movedX <= s.paddleW as real && Touches(s, s.leftY, y);
    var dx1 := if left then -s.ballDx else s.ballDx;
    var x1 := if left then s.paddleW as real else movedX;
    var right := dx1 > 0.0 && x1 >= RightEdge(s) && Touches(s, s.rightY, y);
    var dx2 := if right then -dx1 else dx1;
    var x2 := if right then RightEdge(s) else x1;
    if x2 < 0.0 then
      s.(ballX := s.width as real / 2.0, ballY := s.height as real / 2.0,
         ballDx := Abs(s.ballDx), ballDy := s.ballDy, rightScore := s.rightScore + 1)
    else if x2 > s.width as real then
      s.(ballX := s.width as real / 2.0, ballY := s.height as real / 2.0,
         ballDx := -Abs(s.ballDx), ballDy := s.ballDy, leftScore := s.leftScore + 1)
    else
      s.(ballX := x2, ballY := y, ballDx := dx2, ballDy := dy)
  }

  function Step(s: State, inp: Input): State {
    MoveBall(MovePaddles(s, inp))
  }

  /** The state after a finite run of inputs. */
  function Run(s: State, inputs: seq<Input>): State
    decreases |inputs|
  {
    if inputs == [] then s else Run(Step(s, inputs[0]), inputs[1..])
  }

  class Engine {
    var state: State

    constructor (initial: State)
      ensures state == initial
    {
      state := initial;
    }

    /** Advances the stored state by one step and returns it. */
    method Advance(inp: Input) returns (next: State)
      modifies this
      ensures state == next == Step(old(state), inp)
    {
      var s := state;
      s := MovePaddles(s, inp);
      s := MoveBall(s);
      state := s;
      return s;
    }
  }

  // ---------- The playfield invariant ----------

  /** The sizes leave room for the ball between the walls and between the paddles. */
  predicate Sized(s: State) {
    && 0 <= s.paddleW && 0 <= s.ballSize
    && 0 <= s.paddleH <= s.height
    && 2 * s.ballSize < s.height
    && 2 * s.paddleW + s.ballSize < s.width
  }

  /** Everything is inside the field, the ball moves, and on a wall it moves away from that wall. */
  predicate InPlay(s: State) {
    && Sized(s)
    && 0.0 <= s.leftY <= PaddleFloor(s)
    && 0.0 <= s.rightY <= PaddleFloor(s)
    && 0.0 <= s.ballX <= s.width as real
    && 0.0 <= s.ballY <= BallFloor(s)
    && s.ballDx != 0.0 && s.ballDy != 0.0
    && (s.ballY == 0.0 ==> s.ballDy > 0.0)
    && (s.ballY == BallFloor(s) ==> s.ballDy < 0.0)
  }

  predicate SameConfiguration(s: State, t: State) {
    && t.width == s.width && t.height == s.height && t.paddleW == s.paddleW
    && t.paddleH == s.paddleH && t.ballSize == s.ballSize
    && Abs(t.ballDx) == Abs(s.ballDx) && Abs(t.ballDy) == Abs(s.ballDy)
  }

  // What can be seen of a step by comparing the states before and after it.

  predicate Scored(s: State, t: State) {
    t.leftScore != s.leftScore || t.rightScore != s.rightScore
  }

  predicate Contact(s: State, t: State) {
    !Scored(s, t) && t.ballDx == -s.ballDx
  }

  predicate Recentred(s: State, t: State) {
    t.ballX == t.width as real / 2.0 && t.ballY == t.height as real / 2.0
  }

  predicate Within(p: real, top: real, size: int) {
    top <= p <= top + size as real
  }

  /** Some height belongs both to the paddle at `paddleY` and to the ball at `ballY`. */
  ghost predicate Overlap(s: State, paddleY: real, ballY: real) {
    exists p: real :: Within(p, paddleY, s.paddleH) && Within(p, ballY, s.ballSize)
  }

  lemma TouchIsOverlap(s: State, paddleY: real, ballY: real)
    requires Sized(s)
    ensures Touches(s, paddleY, ballY) <==> Overlap(s, paddleY, ballY)
  {
    if Touches(s, paddleY, ballY) {
      var p := Max(paddleY, ballY);
      assert Within(p, paddleY, s.paddleH) && Within(p, ballY, s.ballSize);
    }
  }

  lemma PaddlesStayInPlay(s: State, inp: Input)
    requires InPlay(s)
    ensures InPlay(MovePaddles(s, inp))
  {
  }

  /** The ball's half of a step. */
  lemma BallStaysInPlay(s: State)
    requires InPlay(s)
    ensures InPlay(MoveBall(s)) && SameConfiguration(s, MoveBall(s))
  {
  }

  /** One step keeps the field invariant, conserves both speeds, and does exactly one of: fly on,
      bounce off one paddle, or score one point for one side and recentre the ball. */
  lemma PlayfieldKept(s: State, inp: Input)
    requires InPlay(s)
    ensures var t := Step(s, inp);
      && InPlay(t) && SameConfiguration(s, t)
      && (Scored(s, t) ==> Recentred(s, t) && t.leftScore + t.rightScore == s.leftScore + s.rightScore + 1
                           && t.leftScore >= s.leftScore && t.rightScore >= s.rightScore)
      && (!Scored(s, t) && !Contact(s, t) ==> t.ballX == s.ballX + s.ballDx && t.ballDx == s.ballDx)
      && (Contact(s, t) ==> t.ballX == if s.ballDx < 0.0 then s.paddleW as real else RightEdge(s))
  {
    PaddlesStayInPlay(s, inp);
    BallStaysInPlay(MovePaddles(s, inp));
  }

  /** A paddle moves by its speed or as far as the field allows, on its own keys only; with both keys down
      it ends where it was, unless the top held it up. */
  lemma PaddlesTravel(s: State, inp: Input)
    requires InPlay(s)
    ensures var t, floor := Step(s, inp), PaddleFloor(s);
      && t.leftY - s.leftY == Travel(s.leftY, floor, inp.leftUp, inp.leftDown)
      && t.rightY - s.rightY == Travel(s.rightY, floor, inp.rightUp, inp.rightDown)
  {
  }

  /** The signed distance a paddle at y covers between 0 and its floor. */
  function Travel(y: real, floor: real, up: bool, down: bool): real {
    match (up, down)
    case (false, false) => 0.0
    case (true, false) => -Min(PADDLE_SPEED, y)
    case (false, true) => Min(PADDLE_SPEED, floor - y)
    case (true, true) => if y >= PADDLE_SPEED then 0.0 else Min(PADDLE_SPEED, floor) - y
  }

  /** Exactly when each side is hit or scored on, in terms of the positions after the paddles moved
      and the ball was kept between the walls. */
  lemma OutcomeDecided(s: State, inp: Input, y: real)
    requires InPlay(s)
    requires y == Max(0.0, Min(BallFloor(s), s.ballY + s.ballDy))
    ensures var t := Step(s, inp); var x := s.ballX + s.ballDx;
      && (t.rightScore == s.rightScore + 1 <==> x < 0.0 && !Overlap(s, t.leftY, y))
      && (t.leftScore == s.leftScore + 1 <==> x > s.width as real && !Overlap(s, t.rightY, y))
      && (Contact(s, t) <==>
            || (s.ballDx < 0.0 && x <= s.paddleW as real && Overlap(s, t.leftY, y))
            || (s.ballDx > 0.0 && x >= RightEdge(s) && Overlap(s, t.rightY, y)))
      && (!Scored(s, t) ==> t.ballY == y)
      && (Scored(s, t) ==> (t.ballDx > 0.0 <==> t.rightScore == s.rightScore + 1) && t.ballDy == s.ballDy)
  {
    var p := MovePaddles(s, inp);
    TouchIsOverlap(s, p.leftY, y);
    TouchIsOverlap(s, p.rightY, y);
  }

  lemma {:induction false} PlayfieldAlways(s: State, inputs: seq<Input>)
    requires InPlay(s)
    ensures var t := Run(s, inputs);
      && InPlay(t) && SameConfiguration(s, t)
      && 0 <= (t.leftScore + t.rightScore) - (s.leftScore + s.rightScore) <= |inputs|
    decreases |inputs|
  {
    if inputs != [] {
      PlayfieldKept(s, inputs[0]);
      PlayfieldAlways(Step(s, inputs[0]), inputs[1..]);
    }
  }

  /** The default state: nobody has scored, the ball flies to the lower right from the centre of the field, and the
      paddles are in the middle. */
  lemma DefaultIsCentred()
    ensures var s := DEFAULT_STATE;
      && InPlay(s) && Recentred(s, s) && s.leftScore == s.rightScore == 0
      && s.ballDx == 4.0 && s.ballDy == 3.0 && s.leftY == s.rightY == PaddleFloor(s) / 2.0
      && (s.width, s.height, s.paddleW, s.paddleH, s.ballSize) == (800, 600, 12, 80, 12)
  {
  }

  // ---------- Vertical mirror symmetry ----------

  function MirrorState(s: State): State {
    s.(ballY := BallFloor(s) - s.ballY, ballDy := -s.ballDy,
       leftY := PaddleFloor(s) - s.leftY, rightY := PaddleFloor(s) - s.rightY)
  }

  function MirrorInput(inp: Input): Input {
    Input(inp.leftDown, inp.leftUp, inp.rightDown, inp.rightUp)
  }

  /** The keys move a paddle evenly: up is applied before down, so that with both keys down the two ends differ. */
  predicate Even(y: real, floor: real, up: bool, down: bool) {
    up && down ==> floor == 0.0 || PADDLE_SPEED <= y <= floor - PADDLE_SPEED
  }

  lemma MovePaddleCommutesWithMirror(y: real, floor: real, up: bool, down: bool)
    requires 0.0 <= y <= floor
    ensures MovePaddle(floor - y, floor, down, up) == floor - MovePaddle(y, floor, up, down)
            <==> Even(y, floor, up, down)
  {
  }

  predicate EvenStep(s: State, inp: Input) {
    && Even(s.leftY, PaddleFloor(s), inp.leftUp, inp.leftDown)
    && Even(s.rightY, PaddleFloor(s), inp.rightUp, inp.rightDown)
  }

  lemma MovePaddlesCommutesWithMirror(s: State, inp: Input)
    requires InPlay(s)
    ensures var p, m := MovePaddles(s, inp), MovePaddles(MirrorState(s), MirrorInput(inp));
      && (EvenStep(s, inp) ==> m == MirrorState(p))
      && (!EvenStep(s, inp) ==> m.leftY != MirrorState(p).leftY || m.rightY != MirrorState(p).rightY)
  {
    MovePaddleCommutesWithMirror(s.leftY, PaddleFloor(s), inp.leftUp, inp.leftDown);
    MovePaddleCommutesWithMirror(s.rightY, PaddleFloor(s), inp.rightUp, inp.rightDown);
  }

  lemma MoveBallCommutesWithMirror(s: State)
    requires InPlay(s)
    ensures var t := MoveBall(s); var m := MoveBall(MirrorState(s));
      && (Scored(s, t) ==> m == MirrorState(t).(ballY := t.ballY))
      && (!Scored(s, t) ==> m == MirrorState(t))
  {
    var h := BallFloor(s);
    var y := Max(0.0, Min(h, s.ballY + s.ballDy));
    var f := MirrorState(s);
    assert BallFloor(f) == h && RightEdge(f) == RightEdge(s);
    assert h - y == Max(0.0, Min(h, f.ballY + f.ballDy));
    assert Touches(s, s.leftY, y) <==> Touches(f, f.leftY, h - y);
    assert Touches(s, s.rightY, y) <==> Touches(f, f.rightY, h - y);
  }

  lemma BallLeavesPaddles(s: State)
    ensures MoveBall(s).leftY == s.leftY && MoveBall(s).rightY == s.rightY
  {
  }

  /** A point is served from a fixed height, which is its own mirror image only for a ball without size. */
  lemma ServeCommutesWithMirror(s: State)
    requires InPlay(s)
    ensures MoveBall(MirrorState(s)) == MirrorState(MoveBall(s)) <==> !Scored(s, MoveBall(s)) || s.ballSize == 0
  {
    MoveBallCommutesWithMirror(s);
    var t := MoveBall(s);
    if Scored(s, t) {
      assert t.ballY == t.height as real / 2.0;
      assert BallFloor(t) - t.ballY == t.ballY - t.ballSize as real;
    }
  }

  /** Exactly when turning the field upside down commutes with a step: when no paddle at an end has both keys down,
      and no point is scored or the ball is a dot. */
  lemma StepCommutesWithMirror(s: State, inp: Input)
    requires InPlay(s)
    ensures Step(MirrorState(s), MirrorInput(inp)) == MirrorState(Step(s, inp))
            <==> EvenStep(s, inp) && (!Scored(s, Step(s, inp)) || s.ballSize == 0)
  {
    var p := MovePaddles(s, inp);
    PaddlesStayInPlay(s, inp);
    MovePaddlesCommutesWithMirror(s, inp);
    ServeCommutesWithMirror(p);
    BallLeavesPaddles(p);
    BallLeavesPaddles(MovePaddles(MirrorState(s), MirrorInput(inp)));
  }

  function MirrorInputs(inputs: seq<Input>): (r: seq<Input>)
    ensures |r| == |inputs|
  {
    seq(|inputs|, i requires 0 <= i < |inputs| => MirrorInput(inputs[i]))
  }

  /** Whole rallies have mirror images: until a point is scored, mirrored input leads to the mirrored state. */
  lemma {:induction false} RallyCommutesWithMirror(s: State, inputs: seq<Input>)
    requires InPlay(s)
    requires forall i :: 0 <= i < |inputs| ==>
      !(inputs[i].leftUp && inputs[i].leftDown) && !(inputs[i].rightUp && inputs[i].rightDown)
    requires !Scored(s, Run(s, inputs))
    ensures Run(MirrorState(s), MirrorInputs(inputs)) == MirrorState(Run(s, inputs))
    decreases |inputs|
  {
    if inputs != [] {
      var t, rest := Step(s, inputs[0]), inputs[1..];
      PlayfieldKept(s, inputs[0]);
      ScoresGrow(t, rest);
      StepCommutesWithMirror(s, inputs[0]);
      assert MirrorInputs(inputs)[0] == MirrorInput(inputs[0]);
      assert MirrorInputs(inputs)[1..] == MirrorInputs(rest);
      RallyCommutesWithMirror(t, rest);
    }
  }

  lemma {:induction false} ScoresGrow(s: State, inputs: seq<Input>)
    requires InPlay(s)
    ensures Run(s, inputs).leftScore >= s.leftScore && Run(s, inputs).rightScore >= s.rightScore
    decreases |inputs|
  {
    if inputs != [] {
      PlayfieldKept(s, inputs[0]);
      ScoresGrow(Step(s, inputs[0]), inputs[1..]);
    }
  }
}
