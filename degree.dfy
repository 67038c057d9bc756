/** The `Degree` helpers of liblatlng: conversion between degrees and radians,
    and the two normalisers that fold an angle in degrees into [-180, 180) and
    into [0, 360). */
module Degree {
  import opened Ieee

  type Positive = r: real | r > 0.0 witness 1.0

  /** The circle constant at the working precision. The model knows only that
      it is positive, so every conversion lemma holds for whichever value the
      build picks. */
  const Pi: Positive

  /** Degrees to radians: `deg * pi / 180`. */
  function ToRadian(deg: Float): (rad: Float)
    ensures rad.Fin? <==> deg.Fin?
    ensures rad.NaN? <==> deg.NaN?
    ensures rad.PosInf? <==> deg.PosInf?
    ensures deg.Fin? ==> rad.v * 180.0 == deg.v * Pi
  {
    Scale(deg, Pi, 180.0)
  }

  /** Radians to degrees: `rad * 180 / pi`. */
  function FromRadian(rad: Float): (deg: Float)
    ensures deg.Fin? <==> rad.Fin?
    ensures deg.NaN? <==> rad.NaN?
    ensures deg.PosInf? <==> rad.PosInf?
    ensures rad.Fin? ==> deg.v * Pi == rad.v * 180.0
  {
    Scale(rad, 180.0, Pi)
  }

  lemma {:induction false} FromRadianToRadian(deg: Float)
    ensures FromRadian(ToRadian(deg)) == deg
  {
    ScaleInverse(deg, Pi, 180.0);
  }

  lemma {:induction false} ToRadianFromRadian(rad: Float)
    ensures ToRadian(FromRadian(rad)) == rad
  {
    ScaleInverse(rad, 180.0, Pi);
  }

  /** A straight angle is pi radians, and a half turn of pi radians is 180 degrees. */
  lemma StraightAngle()
    ensures ToRadian(Fin(180.0)) == Fin(Pi)
    ensures FromRadian(Fin(Pi)) == Fin(180.0)
  {
  }

  /** `q` is a whole number. */
  predicate IsWhole(q: real) {
    q.Floor as real == q
  }

  /** `a` and `b` differ by a whole number of turns of 360 degrees. */
  predicate Congruent(a: real, b: real) {
    IsWhole((a - b) / 360.0)
  }

  /** Adding `k` whole turns keeps a value congruent to itself. */
  lemma {:induction false} WholeTurns(a: real, b: real, k: int)
    requires a == b + 360.0 * k as real
    ensures Congruent(a, b)
  {
    assert (a - b) / 360.0 == k as real;
    assert (k as real).Floor == k;
  }

  /** The value in [lo, lo + 360) that differs from `x` by whole turns,
      in closed form. Both normalisers share it. */
  function Wrap(x: real, lo: real): (r: real)
    ensures lo <= r < lo + 360.0
    ensures Congruent(r, x)
  {
    var q := (x - lo) / 360.0;
    var n := q.Floor;
    assert x - lo == 360.0 * q;
    WholeTurns(x - 360.0 * n as real, x, -n);
    x - 360.0 * n as real
  }

  /** There is only one value in [lo, lo + 360) congruent to `x`. */
  lemma {:induction false} WrapUnique(x: real, lo: real, y: real)
    requires lo <= y < lo + 360.0
    requires Congruent(y, x)
    ensures y == Wrap(x, lo)
  {
    var n := ((y - x) / 360.0).Floor;
    assert y == x + 360.0 * n as real;
    var q := (x - lo) / 360.0;
    assert 0.0 <= q + n as real < 1.0;
    assert q.Floor == -n;
  }

  /** A value already in [lo, lo + 360) is its own wrap. */
  lemma {:induction false} WrapFixed(x: real, lo: real)
    requires lo <= x < lo + 360.0
    ensures Wrap(x, lo) == x
  {
    WrapUnique(x, lo, x);
  }

  /** The guard both normalisers take first after NaN: `deg > 1e9 || deg < -1e9`. */
  predicate OutOfBounds(deg: Float)
    ensures OutOfBounds(deg) <==>
              deg.PosInf? || deg.NegInf? || (deg.Fin? && (deg.v > 1e9 || deg.v < -1e9))
  {
    Greater(deg, 1e9) || Less(deg, -1e9)
  }

  /** What `normalizeRelative` returns for `deg`. */
  function Relative(deg: Float): (r: Float)
    ensures deg.NaN? ==> r == deg
    ensures deg.PosInf? || deg.NegInf? ==> r == Fin(0.0)
    ensures deg.Fin? && (deg.v > 1e9 || deg.v < -1e9) ==> r == Fin(0.0)
    ensures deg.Fin? && -1e9 <= deg.v <= 1e9 ==>
              r.Fin? && -180.0 <= r.v < 180.0 && Congruent(r.v, deg.v)
  {
    if deg.NaN? then deg
    else if OutOfBounds(deg) then Fin(0.0)
    else Fin(Wrap(deg.v, -180.0))
  }

  /** What `normalizeAbsolute` returns for `deg`. */
  function Absolute(deg: Float): (r: Float)
    ensures deg.NaN? ==> r == deg
    ensures deg.PosInf? || deg.NegInf? ==> r == Fin(0.0)
    ensures deg.Fin? && (deg.v > 1e9 || deg.v < -1e9) ==> r == Fin(0.0)
    ensures deg.Fin? && -1e9 <= deg.v <= 1e9 ==>
              r.Fin? && 0.0 <= r.v < 360.0 && Congruent(r.v, deg.v)
  {
    if deg.NaN? then deg
    else if OutOfBounds(deg) then Fin(0.0)
    else Fin(Wrap(deg.v, 0.0))
  }

  /** Folds an angle into [-180, 180) by whole turns of 360 degrees, after
      returning NaN unchanged and out-of-bounds values (the infinities
      included) as 0. */
  method NormalizeRelative(deg: Float) returns (r: Float)
    ensures r == Relative(deg)
  {
    if deg.NaN? {
      return deg;
    }
    if OutOfBounds(deg) {
      return Fin(0.0);
    }
    var d := deg.v;
    ghost var turns: int := 0;
    while d >= 180.0
      invariant d == deg.v + 360.0 * turns as real
      decreases d.Floor
    {
      assert (d - 360.0).Floor == d.Floor - 360;
      d := d - 360.0;
      turns := turns - 1;
    }
    while d < -180.0
      invariant d < 180.0
      invariant d == deg.v + 360.0 * turns as real
      decreases (-d).Floor
    {
      assert (-(d + 360.0)).Floor == (-d).Floor - 360;
      d := d + 360.0;
      turns := turns + 1;
    }
    WholeTurns(d, deg.v, turns);
    WrapUnique(deg.v, -180.0, d);
    r := Fin(d);
  }

  /** Folds an angle into [0, 360) by whole turns of 360 degrees, with the
      same two guards as `NormalizeRelative`. */
  method NormalizeAbsolute(deg: Float) returns (r: Float)
    ensures r == Absolute(deg)
  {
    if deg.NaN? {
      return deg;
    }
    if OutOfBounds(deg) {
      return Fin(0.0);
    }
    var d := deg.v;
    ghost var turns: int := 0;
    while d >= 360.0
      invariant d == deg.v + 360.0 * turns as real
      decreases d.Floor
    {
      assert (d - 360.0).Floor == d.Floor - 360;
      d := d - 360.0;
      turns := turns - 1;
    }
    while d < 0.0
      invariant d < 360.0
      invariant d == deg.v + 360.0 * turns as real
      decreases (-d).Floor
    {
      assert (-(d + 360.0)).Floor == (-d).Floor - 360;
      d := d + 360.0;
      turns := turns + 1;
    }
    WholeTurns(d, deg.v, turns);
    WrapUnique(deg.v, 0.0, d);
    r := Fin(d);
  }

  /** An angle already in [-180, 180) is returned unchanged. */
  lemma {:induction false} RelativeFixed(deg: Float)
    requires deg.Fin? && -180.0 <= deg.v < 180.0
    ensures Relative(deg) == deg
  {
    WrapFixed(deg.v, -180.0);
  }

  /** An angle already in [0, 360) is returned unchanged. */
  lemma {:induction false} AbsoluteFixed(deg: Float)
    requires deg.Fin? && 0.0 <= deg.v < 360.0
    ensures Absolute(deg) == deg
  {
    WrapFixed(deg.v, 0.0);
  }

  /** Normalising twice is normalising once. */
  lemma {:induction false} RelativeIdempotent(deg: Float)
    ensures Relative(Relative(deg)) == Relative(deg)
  {
    var r := Relative(deg);
    if r.Fin? {
      RelativeFixed(r);
    }
  }

  lemma {:induction false} AbsoluteIdempotent(deg: Float)
    ensures Absolute(Absolute(deg)) == Absolute(deg)
  {
    var r := Absolute(deg);
    if r.Fin? {
      AbsoluteFixed(r);
    }
  }

  /** The two normalisers agree: the absolute angle is the relative one with
      a negative result moved up by one turn. This holds for every input,
      NaN and the out-of-bounds values included. */
  lemma {:induction false} AbsoluteFromRelative(deg: Float)
    ensures Absolute(deg) ==
              match Relative(deg)
              case Fin(v) => Fin(if v < 0.0 then v + 360.0 else v)
              case other => other
  {
    if deg.Fin? && !OutOfBounds(deg) {
      var v := Wrap(deg.v, -180.0);
      assert Relative(deg) == Fin(v);
      var n := ((v - deg.v) / 360.0).Floor;
      assert v == deg.v + 360.0 * n as real;
      var a := if v < 0.0 then v + 360.0 else v;
      WholeTurns(a, deg.v, if v < 0.0 then n + 1 else n);
      WrapUnique(deg.v, 0.0, a);
    }
  }
}
