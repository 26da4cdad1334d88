/** Gravitation in coordinates: which way and how strongly bodies pull, that the pulls of
    two bodies on each other cancel, and with them all forces in the universe. */
module Gravity {
  import opened Accelerations
  import opened Bodies

  function Product(a: real, b: real): real { a * b }

  function Squared(x: real): real { Product(x, x) }

  /** The square of the distance. */
  function DistanceSquared(a: RealVector, b: RealVector): real {
    Squared(b.x - a.x) + Squared(b.y - a.y) + Squared(b.z - a.z)
  }

  /** Along the line to the other body, in proportion to its mass. */
  lemma PullIs(law: real -> real, at: RealVector, mass: real, position: RealVector)
    ensures var k := mass * law(DistanceSquared(at, position));
            Pull(law, at, mass, position)
            == RealVector((position.x - at.x) * k, (position.y - at.y) * k, (position.z - at.z) * k)
  {
    var distance := position.Minus(at);
    assert distance == RealVector(position.x - at.x, position.y - at.y, position.z - at.z);
    assert distance.Square() == DistanceSquared(at, position);
    var k := mass * law(DistanceSquared(at, position));
    assert 0.0 * k == 0.0;
  }

  lemma ProductPositive(a: real, b: real)
    requires a > 0.0 && b > 0.0
    ensures Product(a, b) > 0.0
  {
  }

  lemma ProductOpposite(a: real, b: real)
    ensures Product(-a, -b) == Product(a, b) && Product(a, 0.0) == 0.0
  {
  }

  lemma SquareAtLeastZero(x: real)
    ensures Squared(x) >= 0.0 && (x != 0.0 ==> Squared(x) > 0.0)
  {
    hide Product;
    ProductOpposite(x, x);
    if x > 0.0 {
      ProductPositive(x, x);
    } else if x < 0.0 {
      ProductPositive(-x, -x);
    }
  }

  lemma ApartIsPositive(a: RealVector, b: RealVector)
    ensures DistanceSquared(a, b) >= 0.0 && (a != b ==> DistanceSquared(a, b) > 0.0)
  {
    hide Squared;
    SquareAtLeastZero(b.x - a.x);
    SquareAtLeastZero(b.y - a.y);
    SquareAtLeastZero(b.z - a.z);
  }

  /** Gravity attracts: the pull has a positive scalar product with the way to the other
      body, is parallel to it, and its square is that of mass times law, times the square
      of the distance. */
  lemma PullAttracts(law: real -> real, at: RealVector, mass: real, position: RealVector)
    requires mass > 0.0 && at != position && law(DistanceSquared(at, position)) > 0.0
    ensures var p, d := Pull(law, at, mass, position), DistanceSquared(at, position);
            var x, y, z := position.x - at.x, position.y - at.y, position.z - at.z;
            && p.x * x + p.y * y + p.z * z > 0.0
            && p.x * y == p.y * x && p.y * z == p.z * y && p.z * x == p.x * z
            && p.x * p.x + p.y * p.y + p.z * p.z == (mass * law(d)) * (mass * law(d)) * d
  {
    PullIs(law, at, mass, position);
    ApartIsPositive(at, position);
    var d := DistanceSquared(at, position);
    Scaled(position.x - at.x, position.y - at.y, position.z - at.z, mass * law(d));
    Positive(mass, law(d));
    Positive(mass * law(d), d);
  }

  lemma Positive(a: real, b: real)
    requires a > 0.0 && b > 0.0
    ensures a * b > 0.0
  {
  }

  lemma Scaled(x: real, y: real, z: real, k: real)
    ensures (x * k) * x + (y * k) * y + (z * k) * z == k * (x * x + y * y + z * z)
    ensures (x * k) * y == (y * k) * x && (y * k) * z == (z * k) * y && (z * k) * x == (x * k) * z
    ensures (x * k) * (x * k) + (y * k) * (y * k) + (z * k) * (z * k) == k * k * (x * x + y * y + z * z)
  {
    SwapFactors(x, k, x);
    SwapFactors(y, k, y);
    SwapFactors(z, k, z);
    SwapFactors(x, k, y);
    SwapFactors(y, k, z);
    SwapFactors(z, k, x);
    SquareOfProduct(x, k);
    SquareOfProduct(y, k);
    SquareOfProduct(z, k);
    assert k * (x * x + y * y + z * z) == k * (x * x) + k * (y * y) + k * (z * z);
    assert k * k * (x * x + y * y + z * z) == (k * k) * (x * x) + (k * k) * (y * y) + (k * k) * (z * z);
  }

  lemma SwapFactors(a: real, k: real, b: real)
    ensures (a * k) * b == k * (a * b) == (b * k) * a
  {
    assert (a * k) * b == (k * a) * b == k * (a * b);
    assert (b * k) * a == (k * b) * a == k * (b * a);
  }

  lemma SquareOfProduct(a: real, k: real)
    ensures (a * k) * (a * k) == (k * k) * (a * a)
  {
    assert (a * k) * (a * k) == a * (k * (a * k)) == a * ((k * a) * k) == a * ((a * k) * k);
    assert a * ((a * k) * k) == (a * (a * k)) * k == ((a * a) * k) * k == (a * a) * (k * k);
  }

  /** With the law that the program uses, the inverse cube of the distance, the strength
      is the mass over the square of the distance. */
  lemma InverseSquare(law: real -> real, at: RealVector, mass: real, position: RealVector)
    requires mass > 0.0 && at != position
    requires var d := DistanceSquared(at, position); law(d) > 0.0 && (law(d) * law(d)) * (d * d * d) == 1.0
    ensures var p, d := Pull(law, at, mass, position), DistanceSquared(at, position);
            (p.x * p.x + p.y * p.y + p.z * p.z) * (d * d) == mass * mass
  {
    PullAttracts(law, at, mass, position);
    var d, p := DistanceSquared(at, position), Pull(law, at, mass, position);
    Strength(p.x * p.x + p.y * p.y + p.z * p.z, mass, law(d), d);
  }

  lemma Strength(square: real, m: real, l: real, d: real)
    requires square == (m * l) * (m * l) * d && (l * l) * (d * d * d) == 1.0
    ensures square * (d * d) == m * m
  {
    SquareOfProduct(m, l);
    Gather(m * m, l * l, d);
    assert (m * l) * (m * l) == (l * l) * (m * m);
  }

  lemma Gather(m: real, l: real, d: real)
    requires l * (d * d * d) == 1.0
    ensures (((l * m) * d) * (d * d)) == m
  {
    assert ((l * m) * d) * (d * d) == (l * m) * (d * (d * d));
    assert (l * m) * (d * d * d) == m * (l * (d * d * d));
  }

  // ------------------------------------------------------------- action and reaction

  lemma DistanceSymmetric(a: RealVector, b: RealVector)
    ensures DistanceSquared(a, b) == DistanceSquared(b, a)
  {
    Opposite(a.x, b.x);
    Opposite(a.y, b.y);
    Opposite(a.z, b.z);
  }

  lemma Opposite(a: real, b: real)
    ensures (b - a) * (b - a) == (a - b) * (a - b)
  {
  }

  /** The forces of two bodies on each other cancel. */
  lemma ActionReaction(law: real -> real, a: Body, b: Body)
    ensures Pull(law, a.position, b.mass, b.position).Times(a.mass)
              .Plus(Pull(law, b.position, a.mass, a.position).Times(b.mass)) == ZERO
  {
    PullIs(law, a.position, b.mass, b.position);
    PullIs(law, b.position, a.mass, a.position);
    DistanceSymmetric(a.position, b.position);
    hide Pull, DistanceSquared;
    var l := law(DistanceSquared(a.position, b.position));
    Cancels(b.position.x - a.position.x, l, a.mass, b.mass);
    Cancels(b.position.y - a.position.y, l, a.mass, b.mass);
    Cancels(b.position.z - a.position.z, l, a.mass, b.mass);
    assert a.position.x - b.position.x == -(b.position.x - a.position.x);
    assert a.position.y - b.position.y == -(b.position.y - a.position.y);
    assert a.position.z - b.position.z == -(b.position.z - a.position.z);
  }

  lemma Cancels(x: real, l: real, m: real, n: real)
    ensures (x * (n * l)) * m + ((-x) * (m * l)) * n == 0.0
  {
    assert (x * (n * l)) * m == x * ((n * l) * m) && (n * l) * m == (n * m) * l;
    assert ((-x) * (m * l)) * n == (-x) * ((m * l) * n) && (m * l) * n == (n * m) * l;
    assert (-x) * ((n * m) * l) == -(x * ((n * m) * l));
  }

  /** The force on the first `n` bodies: each one's mass times the pull of all others. */
  ghost function Force(law: real -> real, bodies: seq<Body>, n: nat): RealVector
    requires n <= |bodies|
  {
    if n == 0 then ZERO
    else
      var b := bodies[n - 1];
      Force(law, bodies, n - 1).Plus(
        if b.IsActive() then Others(law, b.position, bodies, n - 1).Times(b.mass) else ZERO)
  }

  /** The force of one further body on the first `n`. */
  ghost function ForceFrom(law: real -> real, bodies: seq<Body>, other: Body, n: nat): RealVector
    requires n <= |bodies|
  {
    if n == 0 then ZERO
    else
      var b := bodies[n - 1];
      ForceFrom(law, bodies, other, n - 1).Plus(
        if b.IsActive() then Pull(law, b.position, other.mass, other.position).Times(b.mass) else ZERO)
  }

  lemma VectorLaws(a: RealVector, b: RealVector, c: RealVector, d: RealVector, k: real)
    ensures a.Plus(b).Plus(c.Plus(d)) == a.Plus(c).Plus(b.Plus(d))
    ensures a.Plus(b).Times(k) == a.Times(k).Plus(b.Times(k)) && ZERO.Times(k) == ZERO && a.Plus(ZERO) == a
  {
  }

  /** A further active body adds its force to that on all earlier ones. */
  lemma {:induction false} ForceGrows(law: real -> real, front: seq<Body>, other: Body, n: nat)
    requires n <= |front|
    ensures Force(law, front + [other], n)
         == if other.IsActive() then Force(law, front, n).Plus(ForceFrom(law, front, other, n))
            else Force(law, front, n)
  {
    hide Pull, Others;
    if n > 0 {
      ForceGrows(law, front, other, n - 1);
      var b, all := front[n - 1], front + [other];
      OthersPush(law, b.position, front, other, n - 1);
      var before := Others(law, b.position, front, n - 1);
      var more := Pull(law, b.position, other.mass, other.position);
      VectorLaws(before, more, ZERO, ZERO, b.mass);
      VectorLaws(Force(law, front, n - 1), ForceFrom(law, front, other, n - 1),
                 if b.IsActive() then before.Times(b.mass) else ZERO,
                 if b.IsActive() then more.Times(b.mass) else ZERO, 1.0);
      assert all[n - 1] == b;
    }
  }

  lemma OthersPush(law: real -> real, at: RealVector, front: seq<Body>, other: Body, skip: nat)
    requires skip < |front|
    ensures Others(law, at, front + [other], skip)
         == if other.IsActive() then Others(law, at, front, skip).Plus(Pull(law, at, other.mass, other.position))
            else Others(law, at, front, skip)
  {
    OthersStep(law, at, front + [other], skip, |front|);
    assert (front + [other])[..|front|] == front && (front + [other])[..|front| + 1] == front + [other];
  }

  /** The force of a body on the others and theirs on it cancel. */
  lemma {:induction false} ForcesCancel(law: real -> real, bodies: seq<Body>, other: Body, n: nat)
    requires n <= |bodies|
    ensures ForceFrom(law, bodies, other, n)
              .Plus(Others(law, other.position, bodies[..n], -1).Times(other.mass)) == ZERO
  {
    hide Pull;
    if n > 0 {
      ForcesCancel(law, bodies, other, n - 1);
      OthersStep(law, other.position, bodies, -1, n - 1);
      var b := bodies[n - 1];
      var own := Others(law, other.position, bodies[..n - 1], -1);
      var back := Pull(law, other.position, b.mass, b.position);
      var there := Pull(law, b.position, other.mass, other.position);
      if b.IsActive() {
        ActionReaction(law, b, other);
        VectorLaws(own, back, ZERO, ZERO, other.mass);
        VectorLaws(ForceFrom(law, bodies, other, n - 1), there.Times(b.mass), own.Times(other.mass),
                   back.Times(other.mass), 1.0);
      }
    }
  }

  /** All forces in the universe add up to nothing, whatever the law. */
  lemma {:induction false} ForcesVanish(law: real -> real, bodies: seq<Body>)
    ensures Force(law, bodies, |bodies|) == ZERO
  {
    hide Others;
    if bodies != [] {
      var m := |bodies| - 1;
      var front, b := bodies[..m], bodies[m];
      ForcesVanish(law, front);
      assert bodies == front + [b];
      ForceGrows(law, front, b, m);
      if b.IsActive() {
        OthersSelf(law, front, b);
        ForcesCancel(law, front, b, m);
        assert front[..m] == front;
      }
    }
  }

  /** A body does not pull itself. */
  lemma OthersSelf(law: real -> real, front: seq<Body>, b: Body)
    ensures Others(law, b.position, front + [b], |front|) == Others(law, b.position, front, -1)
  {
    var all := front + [b];
    OthersStep(law, b.position, all, |front|, |front|);
    assert all[..|front|] == front && all[..|front| + 1] == all;
    SkipOutside(law, b.position, front, |front|);
  }
}
