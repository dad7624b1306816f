/** The spin engine's arithmetic: where the bottle must point for a winner, how many
    full turns it adds, and the cumulative rotation it is given. Angles are degrees,
    measured clockwise from the top, as reals (`360 / n` is not whole for n = 7, 9, 11). */
module Angles {

  /** `x` is a whole number of turns. */
  predicate WholeTurns(x: real) {
    x == 360.0 * ((x / 360.0).Floor as real)
  }

  /** The direction an angle points in: the representative in [0, 360). */
  function Mod360(r: real): (m: real)
    ensures 0.0 <= m < 360.0
    ensures WholeTurns(r - m)
  {
    r - 360.0 * ((r / 360.0).Floor as real)
  }

  /** Two angles that differ by whole turns and both lie in [0, 360) are equal: Mod360
      is the only reduction with the two properties its contract states. */
  lemma Mod360Unique(r: real, m: real)
    requires 0.0 <= m < 360.0 && WholeTurns(r - m)
    ensures Mod360(r) == m
  {
    var k := ((r - m) / 360.0).Floor;
    var q := (r / 360.0).Floor;
    assert r / 360.0 == (k as real) + m / 360.0;
    assert q == k;
  }

  /** `Math.trunc`, the rounding JavaScript's `%` uses. */
  function Trunc(x: real): (t: int)
    ensures 0.0 <= x ==> 0 <= t && t as real <= x < t as real + 1.0
    ensures x < 0.0 ==> t <= 0 && t as real - 1.0 < x <= t as real
  {
    if x >= 0.0 then x.Floor else -((-x).Floor)
  }

  /** JavaScript's `r % 360`: the remainder takes the sign of `r`. */
  function JsRem360(r: real): (m: real)
    ensures 0.0 <= r ==> 0.0 <= m < 360.0
    ensures r < 0.0 ==> -360.0 < m <= 0.0
    ensures WholeTurns(r - m)
  {
    var m := r - 360.0 * (Trunc(r / 360.0) as real);
    assert ((r - m) / 360.0).Floor == Trunc(r / 360.0);
    m
  }

  /** For the non-negative rotations the bottle ever has, JavaScript's `%` agrees with Mod360. */
  lemma JsRemIsMod360(r: real)
    requires 0.0 <= r
    ensures JsRem360(r) == Mod360(r)
  {
    Mod360Unique(r, JsRem360(r));
  }

  /** `360 / n`: the angular size of one player's segment. */
  function SegmentDeg(n: nat): (d: real)
    requires n > 0
    ensures 0.0 < d <= 360.0
    ensures (n as real) * d == 360.0
  {
    360.0 / (n as real)
  }

  /** `winnerIndex * segmentDeg`: where the bottle points when it lands on player `i` of `n`. */
  function TargetAngle(i: nat, n: nat): (a: real)
    requires i < n
    ensures 0.0 <= a < 360.0
  {
    var d := SegmentDeg(n);
    assert (i as real) * d < (n as real) * d;
    (i as real) * d
  }

  /** Different players get different target angles, so where the bottle points
      identifies the winner. */
  lemma TargetAngleInjective(i: nat, j: nat, n: nat)
    requires i < j < n
    ensures TargetAngle(i, n) < TargetAngle(j, n)
  {
    var d := SegmentDeg(n);
    var k := (j - i) as real;
    assert k >= 1.0;
    assert (j as real) * d == (i as real) * d + k * d;
    assert k * d == d + (k - 1.0) * d;
    assert (k - 1.0) * d >= 0.0;
  }

  /** `Math.floor(Math.random() * n)` for a draw `r` in [0, 1): an index below `n`. */
  function RandomIndex(r: real, n: nat): (k: nat)
    requires 0.0 <= r < 1.0 && n > 0
    ensures k < n
  {
    assert r * (n as real) < n as real;
    (r * (n as real)).Floor
  }

  /** `360 * (5 + extra)`: the cosmetic whole turns added to a spin. */
  function FullSpins(extra: nat): (f: real)
    ensures WholeTurns(f) && f >= 1800.0
  {
    var f := 360.0 * ((5 + extra) as real);
    assert (f / 360.0).Floor == 5 + extra;
    f
  }

  /** Whole turns added to whole turns are whole turns. */
  lemma WholeTurnsAdd(a: real, b: real)
    requires WholeTurns(a) && WholeTurns(b)
    ensures WholeTurns(a + b)
  {
    var fa, fb := (a / 360.0).Floor, (b / 360.0).Floor;
    var sum := a + b;
    assert sum == 360.0 * ((fa + fb) as real);
    assert sum / 360.0 == (fa + fb) as real;
    assert (sum / 360.0).Floor == fa + fb;
  }

  /** `rotation + fullSpins + (targetAngle - rotation % 360)`: the rotation committed by a
      spin. Whatever the starting rotation, it is the target plus whole turns whenever
      `fullSpins` is whole turns. */
  function FinalRotation(rotation: real, target: real, fullSpins: real): (r: real)
    ensures WholeTurns(fullSpins) ==> WholeTurns(r - target)
  {
    var r := rotation + fullSpins + (target - JsRem360(rotation));
    assert WholeTurns(fullSpins) ==> WholeTurns(r - target) by {
      if WholeTurns(fullSpins) {
        WholeTurnsAdd(rotation - JsRem360(rotation), fullSpins);
        assert r - target == (rotation - JsRem360(rotation)) + fullSpins;
      }
    }
    r
  }

  /** The bottle lands on the target: for any non-negative starting rotation, any target in
      [0, 360) and any whole number of extra turns, the final direction is the target. */
  lemma LandsOnTarget(rotation: real, target: real, fullSpins: real)
    requires 0.0 <= rotation && 0.0 <= target < 360.0 && WholeTurns(fullSpins)
    ensures Mod360(FinalRotation(rotation, target, fullSpins)) == target
  {
    Mod360Unique(FinalRotation(rotation, target, fullSpins), target);
  }

  /** The net rotation of a spin is its extra turns plus the way from the current direction
      to the target, so it lies strictly within one turn of `fullSpins`. */
  lemma NetRotation(rotation: real, target: real, fullSpins: real)
    requires 0.0 <= rotation && 0.0 <= target < 360.0
    ensures FinalRotation(rotation, target, fullSpins) - rotation
              == fullSpins + target - Mod360(rotation)
    ensures fullSpins - 360.0 < FinalRotation(rotation, target, fullSpins) - rotation < fullSpins + 360.0
  {
    JsRemIsMod360(rotation);
  }

  /** Every spin `spin` can make turns the bottle forward by more than four turns
      and keeps the rotation non-negative. */
  lemma SpinAdvances(rotation: real, i: nat, n: nat, extra: nat)
    requires 0.0 <= rotation && i < n
    ensures FinalRotation(rotation, TargetAngle(i, n), FullSpins(extra)) > rotation + 1440.0
  {
    NetRotation(rotation, TargetAngle(i, n), FullSpins(extra));
  }

  /** `5 + Math.floor(Math.random() * 3)` gives 5, 6 or 7 turns: never the 8 the comment
      above it announces. */
  lemma FullSpinsChoices(r: real)
    requires 0.0 <= r < 1.0
    ensures FullSpins(RandomIndex(r, 3)) in {1800.0, 2160.0, 2520.0}
    ensures FullSpins(RandomIndex(r, 3)) < 2880.0
  {
    var k := RandomIndex(r, 3);
    assert k == 0 || k == 1 || k == 2;
  }

  /** The net rotation can fall short of the chosen whole turns, from a rotation the bottle
      reaches. With two players, a five-turn spin from rest to player 1 leaves the bottle at
      1980 degrees; a second five-turn spin, to player 0, then turns it by only 1620. */
  lemma NetRotationBelowFullSpins()
    ensures FinalRotation(0.0, TargetAngle(1, 2), FullSpins(0)) == 1980.0
    ensures FinalRotation(1980.0, TargetAngle(0, 2), FullSpins(0)) - 1980.0 == 1620.0
    ensures FullSpins(0) == 1800.0
  {
    assert TargetAngle(1, 2) == 180.0;
    assert Trunc(0.0 / 360.0) == 0;
    assert Trunc(1980.0 / 360.0) == 5;
  }
}
