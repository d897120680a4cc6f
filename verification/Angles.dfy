/** Turning the shortest way round: LerpAngleDegrees of src/client/WorldSystem.cpp over reals. */
module Angles {
  // Rounds toward zero.
  function Truncate(q: real): int {
    if q >= 0.0 then q.Floor else -((-q).Floor)
  }

  // The remainder of truncating division: it has the sign of x.
  function FMod(x: real, m: real): (r: real)
    requires m > 0.0
  {
    x - m * Truncate(x / m) as real
  }

  // How far LerpAngleDegrees turns at fraction 1.
  function Turn(from: real, to: real): real {
    FMod(to - from + 540.0, 360.0) - 180.0
  }

  function LerpAngleDegrees(from: real, to: real, t: real): real {
    from + Turn(from, to) * t
  }

  ghost predicate Congruent(a: real, b: real) {
    exists k: int :: WholeTurns(a, b, k)
  }

  predicate WholeTurns(a: real, b: real, k: int) {
    a == b + 360.0 * k as real
  }

  function Abs(x: real): real {
    if x < 0.0 then -x else x
  }

  ghost predicate IsShortest(turn: real, delta: real) {
    forall k: int :: Abs(turn) <= Abs(Rotated(delta, k))
  }

  // delta and k whole turns more.
  function Rotated(delta: real, k: int): real {
    delta + 360.0 * k as real
  }

  // The remainder stays on the side of zero its operand is on, within one modulus.
  lemma FModRange(x: real)
    ensures x >= 0.0 ==> 0.0 <= FMod(x, 360.0) < 360.0
    ensures x < 0.0 ==> -360.0 < FMod(x, 360.0) <= 0.0
  {
    var q := x / 360.0;
    assert x == 360.0 * q;
    if x >= 0.0 {
      assert q.Floor as real <= q < q.Floor as real + 1.0;
    } else {
      assert (-q).Floor as real <= -q < (-q).Floor as real + 1.0;
    }
  }

  // Whatever the angles, the turn at fraction 1 ends at `to`, up to whole turns.
  lemma TurnReaches(from: real, to: real)
    ensures Congruent(LerpAngleDegrees(from, to, 1.0), to)
    ensures Congruent(Turn(from, to), to - from)
  {
    var k := 1 - Truncate((to - from + 540.0) / 360.0);
    assert WholeTurns(Turn(from, to), to - from, k);
    assert WholeTurns(LerpAngleDegrees(from, to, 1.0), to, k);
  }

  lemma NothingShorter(turn: real, delta: real, j: int, k: int)
    requires WholeTurns(turn, delta, j) && -180.0 <= turn <= 180.0
    ensures Abs(turn) <= Abs(Rotated(delta, k))
  {
    var n := k - j;
    assert Rotated(delta, k) == turn + 360.0 * n as real;
    if n >= 1 {
      assert Rotated(delta, k) >= turn + 360.0;
    } else if n <= -1 {
      assert Rotated(delta, k) <= turn - 360.0;
    }
  }

  // Where the dividend handed to fmod is not negative, or is a multiple of a whole turn.
  predicate TurnsWell(from: real, to: real) {
    to - from >= -540.0 || FMod(to - from + 540.0, 360.0) == 0.0
  }

  // Exactly then the turn lies in [-180, 180) ...
  lemma TurnInRange(from: real, to: real)
    ensures -180.0 <= Turn(from, to) < 180.0 <==> TurnsWell(from, to)
  {
    FModRange(to - from + 540.0);
  }

  // ... and exactly then no turn to the same direction is shorter.
  lemma TurnIsShortest(from: real, to: real)
    ensures IsShortest(Turn(from, to), to - from) <==> TurnsWell(from, to)
  {
    var turn, delta := Turn(from, to), to - from;
    var j := 1 - Truncate((delta + 540.0) / 360.0);
    assert WholeTurns(turn, delta, j);
    TurnInRange(from, to);
    if TurnsWell(from, to) {
      forall k: int
        ensures Abs(turn) <= Abs(Rotated(delta, k))
      {
        NothingShorter(turn, delta, j, k);
      }
    } else {
      FModRange(delta + 540.0);
      assert Rotated(delta, j + 1) == turn + 360.0;
      assert Abs(Rotated(delta, j + 1)) < Abs(turn);
    }
  }

  // One step past the guard: from 541 to 0 the code turns by -181 degrees instead of 179.
  lemma LongWayRound()
    ensures Turn(541.0, 0.0) == -181.0
    ensures !IsShortest(Turn(541.0, 0.0), -541.0)
  {
    assert (1.0 / 360.0).Floor == 0;
    assert Abs(Rotated(-541.0, 2)) == 179.0;
  }
}
