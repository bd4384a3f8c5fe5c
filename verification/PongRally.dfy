/** Laws over whole rallies: how long the ball can fly undisturbed, and where it is after n steps. */
module PongRally {
  import opened PongEngine

  /** Something other than plain flight happened between two successive states. */
  predicate Interrupted(s: State, t: State) {
    Scored(s, t) || t.ballDx != s.ballDx || t.ballX != s.ballX + s.ballDx
  }

  /** How far the ball can still fly before it leaves the field. */
  function Distance(s: State): real {
    if s.ballDx > 0.0 then s.width as real - s.ballX else s.ballX
  }

  lemma {:induction false} RallyEnds(s: State, inputs: seq<Input>) returns (k: nat)
    requires 0.0 <= s.ballX <= s.width as real && s.ballDx != 0.0
    requires |inputs| as real * Abs(s.ballDx) > Distance(s)
    ensures k < |inputs| && Interrupted(Run(s, inputs[..k]), Run(s, inputs[..k + 1]))
    decreases |inputs|
  {
    var t := Step(s, inputs[0]);
    if Interrupted(s, t) {
      k := 0;
      assert inputs[..1] == [inputs[0]] && [inputs[0]][1..] == [];
    } else {
      var n, d := |inputs| as real, Abs(s.ballDx);
      assert (n - 1.0) * d == n * d - d;
      var rest := RallyEnds(t, inputs[1..]);
      k := rest + 1;
      assert inputs[..k][1..] == inputs[1..][..rest] && inputs[..k + 1][1..] == inputs[1..][..rest + 1];
    }
  }

  /** Whatever the players do, a paddle contact or a point comes within floor(width / |dx|) + 1 steps. */
  lemma RallyBound(s: State, inputs: seq<Input>) returns (k: nat)
    requires 0.0 <= s.ballX <= s.width as real && s.ballDx != 0.0
    requires |inputs| >= (s.width as real / Abs(s.ballDx)).Floor + 1
    ensures k < (s.width as real / Abs(s.ballDx)).Floor + 1
    ensures k < |inputs| && Interrupted(Run(s, inputs[..k]), Run(s, inputs[..k + 1]))
    ensures var before := Run(s, inputs[..k]); InPlay(before) ==> Contact(before, Step(before, inputs[k]))
                                                                  || Scored(before, Step(before, inputs[k]))
  {
    var w, d := s.width as real, Abs(s.ballDx);
    var n := (w / d).Floor + 1;
    assert n as real > w / d;
    assert n as real * d > w by { assert w / d * d == w; ScaleUp(w / d, n as real, d); }
    k := RallyEnds(s, inputs[..n]);
    assert inputs[..n][..k] == inputs[..k] && inputs[..n][..k + 1] == inputs[..k + 1];
    RunSnoc(s, inputs[..k], inputs[k]);
    assert inputs[..k] + [inputs[k]] == inputs[..k + 1];
    if InPlay(Run(s, inputs[..k])) {
      PlayfieldKept(Run(s, inputs[..k]), inputs[k]);
    }
  }

  lemma ScaleUp(x: real, y: real, d: real)
    requires x < y && 0.0 < d
    ensures x * d < y * d
  {
  }

  lemma {:induction false} RunSnoc(s: State, inputs: seq<Input>, last: Input)
    ensures Run(s, inputs + [last]) == Step(Run(s, inputs), last)
    decreases |inputs|
  {
    if inputs == [] {
      assert [last][1..] == [];
    } else {
      assert (inputs + [last])[1..] == inputs[1..] + [last];
      RunSnoc(Step(s, inputs[0]), inputs[1..], last);
    }
  }

  // ---------- The vertical motion in closed form ----------

  /** The triangle wave of period 2m and height m. */
  function Triangle(phase: int, m: int): (h: int)
    requires 0 <= phase < 2 * m
    ensures 0 <= h <= m
  {
    if phase <= m then phase else 2 * m - phase
  }

  /** The ball is at the given phase of a wave that climbs by `d` per step, its floor being m such climbs. */
  ghost predicate OnWave(s: State, d: real, m: int, phase: int) {
    && d > 0.0 && m > 0 && BallFloor(s) == d * m as real
    && 0 <= phase < 2 * m
    && s.ballY == d * Triangle(phase, m) as real
    && s.ballDy == if phase < m then d else -d
  }

  /** In a step without a point the ball's height only depends on its own height and speed. */
  lemma VerticalStep(s: State, inp: Input)
    requires !Scored(s, Step(s, inp))
    ensures var t := Step(s, inp); var y := s.ballY + s.ballDy;
      if 0.0 < y < BallFloor(s) then t.ballY == y && t.ballDy == s.ballDy
      else t.ballY == Max(0.0, Min(BallFloor(s), y)) && t.ballDy == -s.ballDy
  {
  }

  function Next(phase: int, m: int): int {
    if phase + 1 == 2 * m then 0 else phase + 1
  }

  /** The wave's own step: one unit up or down, turning at 0 and m. */
  lemma WaveHeights(d: real, m: int, phase: int)
    requires d > 0.0 && m > 0 && 0 <= phase < 2 * m
    ensures var y := d * Triangle(phase, m) as real; var floor := d * m as real;
            var moved := if phase < m then y + d else y - d;
            var h := Triangle(Next(phase, m), m);
      && moved == d * h as real
      && (0 < h < m <==> 0.0 < moved < floor)
      && (h == 0 ==> moved == 0.0) && (h == m ==> moved == floor)
  {
    var h := Triangle(phase, m);
    var next := if phase < m then h + 1 else h - 1;
    assert d * next as real == d * h as real + if phase < m then d else -d;
    ScaleOrder(d, 0, next);
    ScaleOrder(d, next, m);
  }

  lemma WaveStep(s: State, inp: Input, d: real, m: int, phase: int)
    requires OnWave(s, d, m, phase) && !Scored(s, Step(s, inp))
    ensures OnWave(Step(s, inp), d, m, Next(phase, m))
  {
    VerticalStep(s, inp);
    WaveHeights(d, m, phase);
  }

  lemma Scale(d: real, x: int, y: int)
    requires d > 0.0 && x < y
    ensures d * x as real < d * y as real
  {
  }

  lemma ScaleOrder(d: real, x: int, y: int)
    requires d > 0.0
    ensures x < y <==> d * x as real < d * y as real
    ensures x == y <==> d * x as real == d * y as real
  {
    if x < y {
      Scale(d, x, y);
    } else if y < x {
      Scale(d, y, x);
    }
  }

  /** No point is scored anywhere along the run. */
  ghost predicate Scoreless(s: State, inputs: seq<Input>)
    decreases |inputs|
  {
    inputs == [] || (!Scored(s, Step(s, inputs[0])) && Scoreless(Step(s, inputs[0]), inputs[1..]))
  }

  lemma {:induction false} WaveRun(s: State, inputs: seq<Input>, d: real, m: int, phase: int)
    requires OnWave(s, d, m, phase) && Scoreless(s, inputs)
    ensures OnWave(Run(s, inputs), d, m, (phase + |inputs|) % (2 * m))
    decreases |inputs|
  {
    var n, p := |inputs|, 2 * m;
    if n == 0 {
      Remainder(phase, 0, phase, p);
    } else {
      WaveStep(s, inputs[0], d, m, phase);
      WaveRun(Step(s, inputs[0]), inputs[1..], d, m, Next(phase, m));
      if phase + 1 == p {
        SameRemainder(n - 1, 1, p);
      }
    }
  }

  lemma MultipleApart(e: int, m: int)
    requires m > 0
    ensures e >= 1 ==> e * m >= m
    ensures e <= -1 ==> e * m <= -m
  {
  }

  /** The remainder is the only number in range at a multiple's distance. */
  lemma Remainder(x: int, q: int, r: int, m: int)
    requires m > 0 && 0 <= r < m && x == q * m + r
    ensures x % m == r
  {
    var e := x / m - q;
    assert x == x / m * m + x % m;
    assert e * m == r - x % m by { assert (x / m - q) * m == x / m * m - q * m; }
    MultipleApart(e, m);
  }

  lemma SameRemainder(x: int, q: int, m: int)
    requires m > 0
    ensures (x + q * m) % m == x % m
  {
    assert x == x / m * m + x % m;
    assert x + q * m == (x / m + q) * m + x % m;
    Remainder(x + q * m, x / m + q, x % m, m);
  }

  /** The ball's speed d divides both its height d*a and the floor d*m. */
  ghost predicate OnGrid(s: State, d: real, a: int, m: int) {
    d == Abs(s.ballDy) && s.ballY == d * a as real && BallFloor(s) == d * m as real
  }

  /** The ball is where the triangle wave of height d*m is at position z of its period 2m. */
  ghost predicate AtPosition(s: State, d: real, m: int, z: int, falling: bool) {
    && 0 <= z < 2 * m
    && s.ballY == d * Triangle(z, m) as real
    && (s.ballDy > 0.0 <==> if falling then z < m else z == 0 || z > m)
  }

  lemma StartsOnWave(s: State, d: real, a: int, m: int)
    requires InPlay(s) && OnGrid(s, d, a, m)
    ensures 0 <= a <= m && 0 < m
    ensures OnWave(s, d, m, if s.ballDy > 0.0 then a else 2 * m - a)
  {
    GridBounds(s, d, a, m);
    if s.ballDy > 0.0 {
      OnFallingWave(s, d, a, m);
    } else {
      OnClimbingWave(s, d, a, m);
    }
  }

  lemma GridBounds(s: State, d: real, a: int, m: int)
    requires InPlay(s) && OnGrid(s, d, a, m)
    ensures d > 0.0 && 0 <= a <= m && 0 < m
    ensures (s.ballDy > 0.0 ==> a < m) && (s.ballDy < 0.0 ==> 0 < a)
  {
    assert d * 0 as real == 0.0;
    assert BallFloor(s) > 0.0;
    ScaleOrder(d, 0, a);
    ScaleOrder(d, a, m);
    ScaleOrder(d, 0, m);
  }

  lemma OnFallingWave(s: State, d: real, a: int, m: int)
    requires InPlay(s) && OnGrid(s, d, a, m) && s.ballDy > 0.0 && 0 <= a < m
    ensures OnWave(s, d, m, a)
  {
  }

  lemma OnClimbingWave(s: State, d: real, a: int, m: int)
    requires InPlay(s) && OnGrid(s, d, a, m) && s.ballDy < 0.0 && 0 < a <= m
    ensures OnWave(s, d, m, 2 * m - a)
  {
  }

  /** n steps on from position a, modulo the period 2m, in the direction the ball started in. */
  function PhaseAfter(a: int, n: nat, m: int, falling: bool): (z: int)
    requires m > 0
    ensures 0 <= z < 2 * m
  {
    if falling then (a + n) % (2 * m) else (a - n) % (2 * m)
  }

  lemma FallingRun(s: State, inputs: seq<Input>, d: real, a: int, m: int)
    requires 0 <= a < m && OnWave(s, d, m, a) && Scoreless(s, inputs)
    ensures AtPosition(Run(s, inputs), d, m, PhaseAfter(a, |inputs|, m, true), true)
  {
    WaveRun(s, inputs, d, m, a);
    ReadForwards(Run(s, inputs), d, m, PhaseAfter(a, |inputs|, m, true));
  }

  lemma ReadForwards(s: State, d: real, m: int, phase: int)
    requires OnWave(s, d, m, phase)
    ensures AtPosition(s, d, m, phase, true)
  {
  }

  /** The position counted backwards from a is opposite to the phase of a climb from there. */
  lemma OppositePhase(a: int, n: nat, m: int, up: int)
    requires m > 0 && up == (2 * m - a + n) % (2 * m)
    ensures PhaseAfter(a, n, m, false) == if up == 0 then 0 else 2 * m - up
  {
    var x, p := n - a, 2 * m;
    SameRemainder(x, 1, p);
    Opposite(x, p);
    assert p - a + n == x + 1 * p && a - n == -x;
  }

  lemma ReadBackwards(s: State, d: real, m: int, up: int, z: int)
    requires OnWave(s, d, m, up)
    requires z == if up == 0 then 0 else 2 * m - up
    ensures AtPosition(s, d, m, z, false)
  {
  }

  lemma ClimbingRun(s: State, inputs: seq<Input>, d: real, a: int, m: int)
    requires 0 < a <= m && OnWave(s, d, m, 2 * m - a) && Scoreless(s, inputs)
    ensures AtPosition(Run(s, inputs), d, m, PhaseAfter(a, |inputs|, m, false), false)
  {
    var up := (2 * m - a + |inputs|) % (2 * m);
    WaveRun(s, inputs, d, m, 2 * m - a);
    OppositePhase(a, |inputs|, m, up);
    ReadBackwards(Run(s, inputs), d, m, up, PhaseAfter(a, |inputs|, m, false));
  }

  /** Between points, with |dy| = d dividing both the starting height d*a and the floor d*m, the ball
      after n steps is on the triangle wave of (a + n*sign(dy)) modulo 2m, in units of d, and it is falling
      or climbing as the phase says. */
  lemma ClosedForm(s: State, inputs: seq<Input>, d: real, a: int, m: int)
    requires m > 0 && InPlay(s) && Scoreless(s, inputs) && OnGrid(s, d, a, m)
    ensures AtPosition(Run(s, inputs), d, m, PhaseAfter(a, |inputs|, m, s.ballDy > 0.0), s.ballDy > 0.0)
  {
    StartsOnWave(s, d, a, m);
    if s.ballDy > 0.0 {
      FallingRun(s, inputs, d, a, m);
    } else {
      ClimbingRun(s, inputs, d, a, m);
    }
  }

  lemma Opposite(x: int, m: int)
    requires m > 0
    ensures (-x) % m == if x % m == 0 then 0 else m - x % m
  {
    var q, r := x / m, x % m;
    assert x == q * m + r;
    if r == 0 {
      assert -x == (-q) * m;
      Remainder(-x, -q, 0, m);
    } else {
      assert (-q - 1) * m == -(q * m) - m;
      Remainder(-x, -q - 1, m - r, m);
    }
  }

  /** With the default sizes and speeds a serve lands on the wave again, so every reachable state is on it. */
  lemma {:induction false} DefaultStaysOnWave(s: State, inputs: seq<Input>, phase: int) returns (p: int)
    requires InPlay(s) && s.height == 600 && OnWave(s, 3.0, 196, phase)
    ensures OnWave(Run(s, inputs), 3.0, 196, p)
    decreases |inputs|
  {
    if inputs == [] {
      p := phase;
    } else {
      var t := Step(s, inputs[0]);
      PlayfieldKept(s, inputs[0]);
      if Scored(s, t) {
        OutcomeDecided(s, inputs[0], Max(0.0, Min(BallFloor(s), s.ballY + s.ballDy)));
        p := DefaultStaysOnWave(t, inputs[1..], if s.ballDy > 0.0 then 100 else 292);
      } else {
        WaveStep(s, inputs[0], 3.0, 196, phase);
        p := DefaultStaysOnWave(t, inputs[1..], Next(phase, 196));
      }
    }
  }

  /** From the default state on, every state is on the wave. */
  lemma DefaultAlwaysOnWave(inputs: seq<Input>) returns (p: int)
    ensures OnWave(Run(DEFAULT_STATE, inputs), 3.0, 196, p)
  {
    p := DefaultStaysOnWave(DEFAULT_STATE, inputs, 100);
  }
}
