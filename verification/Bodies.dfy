/** Vectors and bodies of the n-body simulation in exact arithmetic. */
module Bodies {
  import opened BlockDistribution

  datatype RealVector = RealVector(x: real, y: real, z: real)
  {
    function Plus(v: RealVector): RealVector { RealVector(x + v.x, y + v.y, z + v.z) }

    function Minus(v: RealVector): RealVector { RealVector(x - v.x, y - v.y, z - v.z) }

    function Times(k: real): RealVector { RealVector(x * k, y * k, z * k) }

    /** The square of the magnitude. */
    function Square(): real { x * x + y * y + z * z }
  }

  const ZERO := RealVector(0.0, 0.0, 0.0)

  datatype Body = Body(mass: real, radius: real, position: RealVector, velocity: RealVector, acceleration: RealVector)
  {
    predicate IsActive() { mass > 0.0 }

    /** Everything but the acceleration. */
    function Matter(): Body { this.(acceleration := ZERO) }
  }

  /** The acceleration that a mass at `position` gives a body at `at`. The law maps
      the square of the distance to the inverse of its cube. */
  function Pull(law: real -> real, at: RealVector, mass: real, position: RealVector): RealVector {
    var distance := position.Minus(at);
    if distance == ZERO then ZERO else distance.Times(mass * law(distance.Square()))
  }

  function UpdateAcceleration(law: real -> real, body: Body, otherMass: real, otherPosition: RealVector): Body {
    var distance := otherPosition.Minus(body.position);
    if distance == ZERO then body
    else body.(acceleration := body.acceleration.Plus(distance.Times(otherMass * law(distance.Square()))))
  }

  /** `g` is the gravitational constant. */
  function UpdateVelocity(g: real, deltaTime: real, body: Body): Body {
    body.(velocity := body.velocity.Plus(body.acceleration.Times(g).Times(deltaTime)))
  }

  function UpdatePosition(deltaTime: real, body: Body): Body {
    body.(position := body.position.Plus(body.velocity.Times(deltaTime)))
  }

  /** The velocity first, and the position with the new velocity. */
  function Moved(g: real, deltaTime: real, body: Body): Body {
    UpdatePosition(deltaTime, UpdateVelocity(g, deltaTime, body))
  }

  /** A body with equal coordinates, the body itself included, does not pull. */
  lemma UpdateAddsPull(law: real -> real, body: Body, otherMass: real, otherPosition: RealVector)
    ensures UpdateAcceleration(law, body, otherMass, otherPosition)
         == body.(acceleration := body.acceleration.Plus(Pull(law, body.position, otherMass, otherPosition)))
  {
  }

  lemma PlusAssociates(a: RealVector, b: RealVector, c: RealVector)
    ensures a.Plus(b).Plus(c) == a.Plus(b.Plus(c)) && a.Plus(b) == b.Plus(a) && a.Plus(ZERO) == a
  {
  }

  // ------------------------------------------------------------ process blocks

  /** The bodies of all processes in rank order. */
  function Flat(parts: seq<seq<Body>>): seq<Body> {
    if parts == [] then [] else Flat(parts[..|parts| - 1]) + parts[|parts| - 1]
  }

  /** The active bodies in order. */
  function Active(bodies: seq<Body>): seq<Body> {
    if bodies == [] then []
    else
      var last := bodies[|bodies| - 1];
      Active(bodies[..|bodies| - 1]) + if last.IsActive() then [last] else []
  }

  /** A body of positive mass is found behind the active ones that precede it; no other
      is listed. */
  lemma {:induction false} ActivePlace(bodies: seq<Body>, i: nat)
    requires i < |bodies|
    ensures bodies[i].mass > 0.0 ==>
              && |Active(bodies[..i])| < |Active(bodies)| && Active(bodies)[|Active(bodies[..i])|] == bodies[i]
              && |Active(bodies[..i + 1])| == |Active(bodies[..i])| + 1
    ensures bodies[i].mass <= 0.0 ==> Active(bodies[..i + 1]) == Active(bodies[..i])
  {
    var n := |bodies| - 1;
    if i < n {
      ActivePlace(bodies[..n], i);
      assert bodies[..n][..i] == bodies[..i] && bodies[..n][..i + 1] == bodies[..i + 1];
    } else {
      assert bodies[..i + 1] == bodies && bodies[..i + 1][..i] == bodies[..i];
    }
  }

  lemma FlatPush(parts: seq<seq<Body>>, part: seq<Body>)
    ensures Flat(parts + [part]) == Flat(parts) + part
  {
    assert (parts + [part])[..|parts|] == parts;
  }

  /** A body is found in the flat sequence behind the blocks of lower ranks. */
  lemma {:induction false} FlatAt(parts: seq<seq<Body>>, p: nat, i: nat)
    requires p < |parts| && i < |parts[p]|
    ensures |Flat(parts[..p])| + i < |Flat(parts)| && Flat(parts)[|Flat(parts[..p])| + i] == parts[p][i]
    decreases |parts|
  {
    var last := |parts| - 1;
    if p < last {
      FlatAt(parts[..last], p, i);
      assert parts[..last][..p] == parts[..p];
    }
  }

  /** The blocks of the ranks below `r`. */
  function Blocks(all: seq<Body>, workers: nat, r: nat): (parts: seq<seq<Body>>)
    requires workers > 0 && r <= workers
    ensures |parts| == r
  {
    if r == 0 then []
    else
      StartBounds(r - 1, |all|, workers);
      StartBounds(r, |all|, workers);
      StartsInOrder(r - 1, r, |all|, workers);
      Blocks(all, workers, r - 1) + [all[Start(r - 1, |all|, workers)..Finish(r - 1, |all|, workers)]]
  }

  /** The blocks of all ranks are the bodies in their order. */
  lemma {:induction false} BlocksAreFlat(all: seq<Body>, workers: nat, r: nat)
    requires workers > 0 && r <= workers
    ensures 0 <= Start(r, |all|, workers) <= |all|
    ensures Flat(Blocks(all, workers, r)) == all[..Start(r, |all|, workers)]
    ensures r == workers ==> Flat(Blocks(all, workers, r)) == all
    decreases r
  {
    hide Start;
    BlocksCover(|all|, workers);
    StartBounds(r, |all|, workers);
    if r > 0 {
      BlocksAreFlat(all, workers, r - 1);
      StartsInOrder(r - 1, r, |all|, workers);
      FlatPush(Blocks(all, workers, r - 1), all[Start(r - 1, |all|, workers)..Start(r, |all|, workers)]);
    }
  }

  lemma {:induction false} BlockOf(all: seq<Body>, workers: nat, r: nat, p: nat)
    requires workers > 0 && p < r <= workers
    ensures 0 <= Start(p, |all|, workers) <= Finish(p, |all|, workers) <= |all|
    ensures Blocks(all, workers, r)[p] == all[Start(p, |all|, workers)..Finish(p, |all|, workers)]
    decreases r
  {
    hide Start;
    StartBounds(p, |all|, workers);
    StartBounds(p + 1, |all|, workers);
    StartsInOrder(p, p + 1, |all|, workers);
    if p < r - 1 { BlockOf(all, workers, r - 1, p); }
  }

  ghost predicate NoneIdle(parts: seq<seq<Body>>) { forall p :: 0 <= p < |parts| ==> parts[p] != [] }

  /** Every process has a body exactly when there are enough of them, which the
      simulation checks before it starts. */
  lemma BlocksHaveBodies(all: seq<Body>, workers: nat)
    requires workers > 0
    ensures NoneIdle(Blocks(all, workers, workers)) <==> |all| >= workers
  {
    hide Start, Blocks;
    BlocksNonempty(|all|, workers);
    var parts := Blocks(all, workers, workers);
    if |all| >= workers {
      forall p | 0 <= p < workers ensures parts[p] != [] {
        BlockOf(all, workers, workers, p);
      }
    } else {
      BlockOf(all, workers, workers, workers - 1);
      assert parts[workers - 1] == [];
    }
  }
}
