/** The accrual rule every deployment's `calcPoints` copies: a value held from
    the snapshot's time to now earns `value × dailyPoints × elapsed days ×
    multiplier`, and nothing when no time has passed or the snapshot lies in
    the future. Each deployment's calcPoints is proved equal to `Points`. */
module Accrual {

  /** 60 × 60 × 1000 × 24: one day in milliseconds. */
  const MillisecondsPerDay: int := 60 * 60 * 1000 * 24

  /** Reference definition of the points earned between `from` and `now`. */
  function Points(value: real, dailyPoints: real, msPerDay: int, from: int, now: int, multiplier: real): real
    requires msPerDay > 0
  {
    if now <= from then 0.0
    else value * dailyPoints * ((now - from) as real / msPerDay as real) * multiplier
  }

  /** A snapshot from the future, or one taken in the same instant, earns nothing. */
  lemma NoAccrualWithoutElapsedTime(value: real, dailyPoints: real, msPerDay: int, from: int, now: int, multiplier: real)
    requires msPerDay > 0
    ensures now <= from ==> Points(value, dailyPoints, msPerDay, from, now, multiplier) == 0.0
    ensures now > from && value != 0.0 && dailyPoints != 0.0 && multiplier != 0.0 ==>
              Points(value, dailyPoints, msPerDay, from, now, multiplier) != 0.0
  {
    if now > from && value != 0.0 && dailyPoints != 0.0 && multiplier != 0.0 {
      var days := (now - from) as real / msPerDay as real;
      assert days > 0.0;
      NonZeroProduct(value * dailyPoints, days);
      NonZeroProduct(value, dailyPoints);
      NonZeroProduct(value * dailyPoints * days, multiplier);
    }
  }

  lemma NonZeroProduct(x: real, y: real)
    requires x != 0.0 && y != 0.0
    ensures x * y != 0.0
  {
    if x > 0.0 && y > 0.0 { assert x * y > 0.0; }
    else if x > 0.0 { assert x * -y > 0.0; }
    else if y > 0.0 { assert -x * y > 0.0; }
    else { assert -x * -y > 0.0; }
  }

  /** Non-negative value, rate and multiplier never accrue negative points. */
  lemma PointsNonNegative(value: real, dailyPoints: real, msPerDay: int, from: int, now: int, multiplier: real)
    requires msPerDay > 0
    requires value >= 0.0 && dailyPoints >= 0.0 && multiplier >= 0.0
    ensures Points(value, dailyPoints, msPerDay, from, now, multiplier) >= 0.0
  {
    if now > from {
      var days := (now - from) as real / msPerDay as real;
      assert days >= 0.0;
      assert value * dailyPoints >= 0.0;
      assert value * dailyPoints * days >= 0.0;
    }
  }

  /** Reprocessing at an intermediate instant splits the accrual without
      changing its total (value and multiplier held fixed): periodic
      reconciliation neither loses nor adds points. */
  lemma PointsAdditive(value: real, dailyPoints: real, msPerDay: int, from: int, mid: int, now: int, multiplier: real)
    requires msPerDay > 0
    requires from <= mid <= now
    ensures Points(value, dailyPoints, msPerDay, from, mid, multiplier)
          + Points(value, dailyPoints, msPerDay, mid, now, multiplier)
         == Points(value, dailyPoints, msPerDay, from, now, multiplier)
  {
    var c := value * dailyPoints;
    var d := msPerDay as real;
    var a := (mid - from) as real / d;
    var b := (now - mid) as real / d;
    assert a + b == (now - from) as real / d;
    assert c * a * multiplier + c * b * multiplier == c * (a + b) * multiplier;
  }

  /** A longer holding period never earns less (non-negative inputs). */
  lemma PointsMonotoneInTime(value: real, dailyPoints: real, msPerDay: int, from: int, now: int, later: int, multiplier: real)
    requires msPerDay > 0
    requires value >= 0.0 && dailyPoints >= 0.0 && multiplier >= 0.0
    requires now <= later
    ensures Points(value, dailyPoints, msPerDay, from, now, multiplier)
         <= Points(value, dailyPoints, msPerDay, from, later, multiplier)
  {
    if now <= from {
      PointsNonNegative(value, dailyPoints, msPerDay, from, later, multiplier);
    } else {
      PointsAdditive(value, dailyPoints, msPerDay, from, now, later, multiplier);
      PointsNonNegative(value, dailyPoints, msPerDay, now, later, multiplier);
    }
  }
}
