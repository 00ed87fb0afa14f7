/// The escape-time iteration `bounded` of `src/mandelbrot.rs`, over `real`
/// (the source is generic over an `Arithmetic` type; floating-point rounding
/// is not modelled).
module Mandelbrot {

  /// One step of z := z^2 + c, computed from the old (x, y).
  function Step(z: (real, real), a: real, b: real): (real, real)
  {
    (Re(z, a), Im(z, b))
  }

  /// The new real part x^2 - y^2 + a.
  function Re(z: (real, real), a: real): real
  {
    (z.0 * z.0 - z.1 * z.1) + a
  }

  /// The new imaginary part 2xy + b.
  function Im(z: (real, real), b: real): real
  {
    2.0 * z.0 * z.1 + b
  }

  /// The n-th iterate from z = (0, 0).
  function Iterate(a: real, b: real, n: nat): (real, real)
  {
    if n == 0 then (0.0, 0.0) else Step(Iterate(a, b, n - 1), a, b)
  }

  /// The escape test |z|^2 >= 4.
  predicate Escaped(z: (real, real))
  {
    z.0 * z.0 + z.1 * z.1 >= 4.0
  }

  /// Reference definition of the escape time, by recursion on the iterate
  /// index: `(true, maxiter)` when no iterate up to `maxiter` escapes,
  /// otherwise `(false, n)` for the first iterate `n` that does.
  function EscapeFrom(a: real, b: real, k: nat, maxiter: nat): (bool, nat)
    requires k <= maxiter
    decreases maxiter - k
  {
    if k == maxiter then (true, k)
    else if Escaped(Iterate(a, b, k + 1)) then (false, k + 1)
    else EscapeFrom(a, b, k + 1, maxiter)
  }

  function EscapeTime(a: real, b: real, maxiter: nat): (bool, nat)
  {
    EscapeFrom(a, b, 0, maxiter)
  }

  lemma {:induction false} EscapeFromFirstCrossing(a: real, b: real, k: nat, maxiter: nat)
    requires k <= maxiter
    requires forall j :: 1 <= j <= k ==> !Escaped(Iterate(a, b, j))
    ensures k <= EscapeFrom(a, b, k, maxiter).1 <= maxiter
    ensures EscapeFrom(a, b, k, maxiter).0 ==>
              EscapeFrom(a, b, k, maxiter).1 == maxiter &&
              forall j :: 1 <= j <= maxiter ==> !Escaped(Iterate(a, b, j))
    ensures !EscapeFrom(a, b, k, maxiter).0 ==>
              var n := EscapeFrom(a, b, k, maxiter).1;
              1 <= n && Escaped(Iterate(a, b, n)) &&
              forall j :: 1 <= j < n ==> !Escaped(Iterate(a, b, j))
    decreases maxiter - k
  {
    if k < maxiter && !Escaped(Iterate(a, b, k + 1)) {
      EscapeFromFirstCrossing(a, b, k + 1, maxiter);
    }
  }

  /// The escape time never exceeds `maxiter`; `(true, i)` means `i ==
  /// maxiter` and no iterate escaped; `(false, i)` means iterate `i` is the
  /// first one with |z|^2 >= 4.
  lemma EscapeTimeFirstCrossing(a: real, b: real, maxiter: nat)
    ensures EscapeTime(a, b, maxiter).1 <= maxiter
    ensures EscapeTime(a, b, maxiter).0 ==>
              EscapeTime(a, b, maxiter).1 == maxiter &&
              forall j :: 1 <= j <= maxiter ==> !Escaped(Iterate(a, b, j))
    ensures !EscapeTime(a, b, maxiter).0 ==>
              var n := EscapeTime(a, b, maxiter).1;
              1 <= n && Escaped(Iterate(a, b, n)) &&
              forall j :: 1 <= j < n ==> !Escaped(Iterate(a, b, j))
  {
    EscapeFromFirstCrossing(a, b, 0, maxiter);
  }

  lemma {:induction false} OriginIsFixed(n: nat)
    ensures Iterate(0.0, 0.0, n) == (0.0, 0.0)
  {
    if n > 0 {
      OriginIsFixed(n - 1);
    }
  }

  /// With `maxiter == 0` nothing is iterated; the origin never escapes.
  lemma EscapeTimeEdgeCases(a: real, b: real, maxiter: nat)
    ensures EscapeTime(a, b, 0) == (true, 0)
    ensures EscapeTime(0.0, 0.0, maxiter) == (true, maxiter)
  {
    EscapeTimeFirstCrossing(0.0, 0.0, maxiter);
    if !EscapeTime(0.0, 0.0, maxiter).0 {
      OriginIsFixed(EscapeTime(0.0, 0.0, maxiter).1);
    }
  }

  /// `bounded((a, b), maxiter)`: iterates until an iterate escapes or
  /// `maxiter` iterations are done.
  method Bounded(a: real, b: real, maxiter: nat) returns (inside: bool, i: nat)
    ensures (inside, i) == EscapeTime(a, b, maxiter)
    ensures i <= maxiter
    ensures inside ==> i == maxiter && forall j :: 1 <= j <= maxiter ==> !Escaped(Iterate(a, b, j))
    ensures !inside ==> 1 <= i && Escaped(Iterate(a, b, i)) && forall j :: 1 <= j < i ==> !Escaped(Iterate(a, b, j))
  {
    var z: (real, real) := (0.0, 0.0);
    i := 0;
    while i < maxiter
      invariant i <= maxiter
      invariant z == Iterate(a, b, i)
      invariant EscapeTime(a, b, maxiter) == EscapeFrom(a, b, i, maxiter)
    {
      // z.1 is updated from the old z.0 before z.0 is overwritten
      var z0 := Re(z, a);
      var z1 := Im(z, b);
      z := (z0, z1);
      i := i + 1;
      if Escaped(z) {
        EscapeTimeFirstCrossing(a, b, maxiter);
        return false, i;
      }
    }
    EscapeTimeFirstCrossing(a, b, maxiter);
    return true, i;
  }
}
