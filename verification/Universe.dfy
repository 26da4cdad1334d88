/** `Universe`: the bodies of one process and what a process does with them. A
    parallel loop visits the bodies in any order. */
module Universes {
  import opened Accelerations
  import opened Bodies
  import opened Collisions
  import Distances

  /** Some order in which the threads may visit `n` bodies. */
  ghost predicate IsOrder(order: seq<nat>, n: nat) {
    && (forall k :: 0 <= k < |order| ==> order[k] < n)
    && (forall k, l :: 0 <= k < l < |order| ==> order[k] != order[l])
    && (forall i :: 0 <= i < n ==> i in order)
  }

  /** The active bodies have moved, the others have not. */
  ghost predicate HaveMoved(g: real, deltaTime: real, now: seq<Body>, before: seq<Body>) {
    && |now| == |before|
    && forall i :: 0 <= i < |now| ==>
         now[i] == if before[i].IsActive() then Moved(g, deltaTime, before[i]) else before[i]
  }

  lemma MovedInTwo(g: real, deltaTime: real, body: Body)
    ensures Moved(g, deltaTime, body) == UpdatePosition(deltaTime, UpdateVelocity(g, deltaTime, body))
    ensures UpdateVelocity(g, deltaTime, body).mass == body.mass
  {
  }

  class Universe {
    var bodies: seq<Body>
    var activeBodiesCount: int

    /** `createUniverse` and `loadUniverse` count every body as active. */
    constructor (bodies: seq<Body>)
      ensures this.bodies == bodies && activeBodiesCount == |bodies|
    {
      this.bodies, activeBodiesCount := bodies, |bodies|;
    }

    /** The count is the number of bodies with positive mass. */
    ghost predicate Counted()
      reads this
    {
      activeBodiesCount == |Active(bodies)|
    }

    // -------------------------------------------------------- accelerations

    method ResetAccelerations(order: seq<nat>)
      requires IsOrder(order, |bodies|)
      modifies `bodies
      ensures SameMatter(bodies, old(bodies))
      ensures forall i :: 0 <= i < |bodies| ==>
                bodies[i].acceleration == if bodies[i].IsActive() then ZERO else old(bodies)[i].acceleration
    {
      for k := 0 to |order|
        invariant SameMatter(bodies, old(bodies))
        invariant forall i :: 0 <= i < |bodies| ==>
                    bodies[i].acceleration
                    == if bodies[i].IsActive() && i in order[..k] then ZERO else old(bodies)[i].acceleration
      {
        var i := order[k];
        if bodies[i].IsActive() {
          bodies := bodies[i := bodies[i].(acceleration := bodies[i].acceleration.Times(0.0))];
        }
      }
      assert order[..|order|] == order;
    }

    /** The inner loop: body `i` against the other local bodies. */
    method AttractLocally(law: real -> real, i: nat)
      requires i < |bodies| && bodies[i].IsActive()
      modifies `bodies
      ensures bodies == old(bodies)[i := old(bodies)[i].(acceleration :=
                          old(bodies)[i].acceleration.Plus(Others(law, old(bodies)[i].position, old(bodies), i)))]
    {
      hide Pull, UpdateAcceleration;
      ghost var before, at := bodies, bodies[i].position;
      assert before[..0] == [];
      PlusAssociates(before[i].acceleration, ZERO, ZERO);
      for j := 0 to |bodies|
        invariant bodies == before[i := before[i].(acceleration :=
                              before[i].acceleration.Plus(Others(law, at, before[..j], i)))]
      {
        OthersStep(law, at, before, i, j);
        if i != j && bodies[j].IsActive() {
          UpdateAddsPull(law, bodies[i], bodies[j].mass, bodies[j].position);
          PlusAssociates(before[i].acceleration, Others(law, at, before[..j], i),
                         Pull(law, at, before[j].mass, before[j].position));
          bodies := bodies[i := UpdateAcceleration(law, bodies[i], bodies[j].mass, bodies[j].position)];
        }
      }
      assert before[..|before|] == before;
    }

    /** `updateAccelerations`: every active body is reset and then attracted by
        all other active local bodies, whatever the order. */
    method UpdateAccelerations(law: real -> real, resetOrder: seq<nat>, order: seq<nat>)
      requires IsOrder(resetOrder, |bodies|) && IsOrder(order, |bodies|)
      modifies `bodies
      ensures SameMatter(bodies, old(bodies))
      ensures forall i :: 0 <= i < |bodies| && bodies[i].IsActive() ==>
                bodies[i].acceleration == Others(law, bodies[i].position, old(bodies), i)
    {
      hide Others;
      ResetAccelerations(resetOrder);
      ghost var reset := bodies;
      for k := 0 to |order|
        invariant SameMatter(bodies, reset)
        invariant forall i :: 0 <= i < |bodies| && bodies[i].IsActive() ==>
                    bodies[i].acceleration
                    == if i in order[..k] then Others(law, bodies[i].position, old(bodies), i) else ZERO
      {
        var i := order[k];
        if bodies[i].IsActive() {
          ghost var before := bodies;
          assert i !in order[..k];
          assert SameMatter(before, old(bodies));
          OthersSame(law, before[i].position, before, old(bodies), i);
          PlusAssociates(Others(law, before[i].position, before, i), ZERO, ZERO);
          PlusAssociates(ZERO, Others(law, before[i].position, before, i), ZERO);
          AttractLocally(law, i);
        }
      }
      assert order[..|order|] == order;
    }

    /** The inner loop over one received message. */
    method AttractReceived(law: real -> real, serializedBodies: seq<real>, i: nat)
      requires i < |bodies| && |serializedBodies| % 4 == 0
      modifies `bodies
      ensures bodies == old(bodies)[i := old(bodies)[i].(acceleration :=
                          old(bodies)[i].acceleration.Plus(
                            Received(law, old(bodies)[i].position, serializedBodies, |serializedBodies| / 4)))]
    {
      hide Pull, UpdateAcceleration;
      ghost var before, at, n := bodies, bodies[i].position, 0;
      PlusAssociates(before[i].acceleration, ZERO, ZERO);
      var offset := 0;
      while offset < |serializedBodies|
        invariant offset == 4 * n && offset <= |serializedBodies| && n >= 0
        invariant bodies == before[i := before[i].(acceleration :=
                              before[i].acceleration.Plus(Received(law, at, serializedBodies, n)))]
      {
        var otherMass := serializedBodies[offset];
        var otherPosition :=
          RealVector(serializedBodies[offset + 1], serializedBodies[offset + 2], serializedBodies[offset + 3]);
        UpdateAddsPull(law, bodies[i], otherMass, otherPosition);
        PlusAssociates(before[i].acceleration, Received(law, at, serializedBodies, n),
                       Pull(law, at, otherMass, otherPosition));
        bodies := bodies[i := UpdateAcceleration(law, bodies[i], otherMass, otherPosition)];
        offset, n := offset + 4, n + 1;
      }
    }

    /** `updateAccelerations(serializedBodies)`. */
    method UpdateFromReceived(law: real -> real, serializedBodies: seq<real>, order: seq<nat>)
      requires IsOrder(order, |bodies|) && |serializedBodies| % 4 == 0
      modifies `bodies
      ensures SameMatter(bodies, old(bodies))
      ensures forall i :: 0 <= i < |bodies| && bodies[i].IsActive() ==>
                bodies[i].acceleration == old(bodies)[i].acceleration.Plus(
                  Received(law, bodies[i].position, serializedBodies, |serializedBodies| / 4))
    {
      hide Received;
      for k := 0 to |order|
        invariant SameMatter(bodies, old(bodies))
        invariant forall i :: 0 <= i < |bodies| && bodies[i].IsActive() ==>
                    bodies[i].acceleration
                    == if i in order[..k]
                       then old(bodies)[i].acceleration.Plus(
                              Received(law, bodies[i].position, serializedBodies, |serializedBodies| / 4))
                       else old(bodies)[i].acceleration
      {
        var i := order[k];
        assert i !in order[..k];
        if bodies[i].IsActive() { AttractReceived(law, serializedBodies, i); }
      }
      assert order[..|order|] == order;
    }

    method SerializeAccelerationData() returns (serializedBodies: seq<real>)
      ensures serializedBodies == Serialized(bodies)
    {
      serializedBodies := [];
      for k := 0 to |bodies|
        invariant serializedBodies == Serialized(bodies[..k])
      {
        assert bodies[..k + 1][..k] == bodies[..k];
        var body := bodies[k];
        if body.IsActive() {
          serializedBodies := serializedBodies + [body.mass, body.position.x, body.position.y, body.position.z];
        }
      }
      assert bodies[..|bodies|] == bodies;
    }

    // --------------------------------------------------------------- motion

    /** `updateVelocitiesAndPositions`: every active body moves once, whatever the
        order. */
    method UpdateVelocitiesAndPositions(g: real, deltaTime: real, order: seq<nat>)
      requires IsOrder(order, |bodies|)
      modifies `bodies
      ensures HaveMoved(g, deltaTime, bodies, old(bodies))
    {
      hide Moved;
      for k := 0 to |order|
        invariant |bodies| == |old(bodies)|
        invariant forall i :: 0 <= i < |bodies| ==>
                    bodies[i] == if old(bodies)[i].IsActive() && i in order[..k]
                                 then Moved(g, deltaTime, old(bodies)[i]) else old(bodies)[i]
      {
        var i := order[k];
        assert i !in order[..k];
        if bodies[i].IsActive() {
          MovedInTwo(g, deltaTime, bodies[i]);
          bodies := bodies[i := UpdateVelocity(g, deltaTime, bodies[i])];
          bodies := bodies[i := UpdatePosition(deltaTime, bodies[i])];
        }
      }
      assert order[..|order|] == order;
    }

    // ------------------------------------------------------------ distances

    /** The loop bound `bodies.size() - 1` is unsigned: without any body it would
        wrap around. */
    method AggregateOwnDistances(distances: seq<RealVector>) returns (out: seq<RealVector>)
      requires bodies != []
      ensures multiset(out) == multiset(distances) + Distances.Pairs(bodies)
    {
      hide Distances.Pairs, Distances.From;
      out := distances;
      assert bodies[0..] == bodies;
      for start := 0 to |bodies| - 1
        invariant multiset(out) + Distances.Pairs(bodies[start..]) == multiset(distances) + Distances.Pairs(bodies)
      {
        ghost var before := multiset(out);
        PairsStep(bodies, start);
        ghost var later := bodies[start + 1..];
        if bodies[start].IsActive() {
          out := AggregateFrom(out, start);
        } else {
          FromInactive(bodies[start], later);
        }
        Distances.UnionAssociates(before, Distances.From(bodies[start], later), Distances.Pairs(later));
      }
      LastAlone(bodies[|bodies| - 1..]);
    }

    method AggregateFrom(distances: seq<RealVector>, start: nat) returns (out: seq<RealVector>)
      requires start < |bodies| && bodies[start].IsActive()
      ensures multiset(out) == multiset(distances) + Distances.From(bodies[start], bodies[start + 1..])
    {
      hide Distances.From;
      out := distances;
      ghost var later := bodies[start + 1..];
      FromNothing(bodies[start], later[..0]);
      for current := start + 1 to |bodies|
        invariant multiset(out) == multiset(distances) + Distances.From(bodies[start], later[..current - start - 1])
      {
        Distances.FromStep(bodies[start], later, current - start - 1);
        assert later[current - start - 1] == bodies[current];
        if bodies[current].IsActive() { out := out + [bodies[start].position.Minus(bodies[current].position)]; }
      }
      assert later[..|later|] == later;
    }

    method SerializePositions() returns (serializedPositions: seq<real>)
      ensures serializedPositions == Distances.Positions(bodies)
    {
      serializedPositions := [];
      for k := 0 to |bodies|
        invariant serializedPositions == Distances.Positions(bodies[..k])
      {
        assert bodies[..k + 1][..k] == bodies[..k];
        var b := bodies[k];
        if b.IsActive() { serializedPositions := serializedPositions + [b.position.x, b.position.y, b.position.z]; }
      }
      assert bodies[..|bodies|] == bodies;
    }

    /** The distances from the active bodies of a sender to the own ones. */
    method AggregateDistances(distances: seq<RealVector>, serializedPositions: seq<real>, ghost sender: seq<Body>)
      returns (out: seq<RealVector>)
      requires serializedPositions == Distances.Positions(sender)
      ensures multiset(out) == multiset(distances) + Distances.Cross(sender, bodies)
    {
      hide Distances.Positions, Distances.Cross, Distances.Towards;
      out := distances;
      CrossStart(sender, bodies);
      Distances.PositionsLength(sender);
      for my := 0 to |bodies|
        invariant multiset(out) == multiset(distances) + Distances.Cross(sender, bodies[..my])
      {
        CrossStep(sender, bodies, my);
        if bodies[my].IsActive() {
          Distances.ReceivedIsTowards(sender, bodies[my]);
          out := AggregateReceived(out, serializedPositions, bodies[my].position);
        } else {
          TowardsInactive(sender, bodies[my]);
        }
      }
      assert bodies[..|bodies|] == bodies;
    }

    static method AggregateReceived(distances: seq<RealVector>, data: seq<real>, at: RealVector)
      returns (out: seq<RealVector>)
      requires |data| % 3 == 0
      ensures multiset(out) == multiset(distances) + Distances.ReceivedTowards(data, |data| / 3, at)
    {
      hide Distances.ReceivedTowards;
      out := distances;
      var offset := 0;
      ghost var n := 0;
      NothingReceived(data, at);
      while offset < |data|
        invariant offset == 3 * n && n >= 0 && offset <= |data|
        invariant multiset(out) == multiset(distances) + Distances.ReceivedTowards(data, n, at)
      {
        var distance := RealVector(data[offset], data[offset + 1], data[offset + 2]).Minus(at);
        ReceivedStep(data, n, at);
        Distances.UnionAssociates(multiset(distances), Distances.ReceivedTowards(data, n, at), multiset{distance});
        out := out + [distance];
        offset, n := offset + 3, n + 1;
      }
    }

    // ----------------------------------------------------------- collisions

    method SerializeCollisionData() returns (serializedBodies: seq<real>)
      ensures serializedBodies == Records(bodies)
    {
      serializedBodies := [];
      for k := 0 to |bodies|
        invariant serializedBodies == Records(bodies[..k])
      {
        assert bodies[..k + 1][..k] == bodies[..k];
        if bodies[k].IsActive() { serializedBodies := serializedBodies + Record(bodies[k]); }
      }
      assert bodies[..|bodies|] == bodies;
    }

    /** `collideBodies`. */
    method CollideBodies(root: real -> real, i: nat, other: Body, rank: nat, otherRank: nat)
      requires Counted() && i < |bodies| && bodies[i].IsActive() && other.IsActive()
      modifies `bodies, `activeBodiesCount
      ensures bodies == old(bodies)[i := Collided(root, old(bodies)[i], other, rank, otherRank)]
      ensures Counted()
    {
      hide Active;
      ActiveUpdate(bodies, i, Collided(root, bodies[i], other, rank, otherRank));
      if bodies[i].mass == other.mass && rank < otherRank {
        bodies := bodies[i := Deactivated(bodies[i])];
        activeBodiesCount := activeBodiesCount - 1;
        return;
      }
      if bodies[i].mass >= other.mass {
        bodies := bodies[i := Absorbed(root, bodies[i], other)];
      } else {
        bodies := bodies[i := Deactivated(bodies[i])];
        activeBodiesCount := activeBodiesCount - 1;
      }
    }

    /** The inner loop: the first received body that this one touches. */
    method CheckReceived(root: real -> real, i: nat, data: seq<real>, ghost sender: seq<Body>, rank: nat,
                         otherRank: nat)
      requires Counted() && i < |bodies| && data == Records(sender)
      modifies `bodies, `activeBodiesCount
      ensures bodies == old(bodies)[i := Passed(root, old(bodies)[i], Active(sender), rank, otherRank)]
      ensures Counted()
    {
      hide Records, Active, Collided, Touch, Counted;
      if !bodies[i].IsActive() { return; }
      ghost var received := Active(sender);
      RecordsLength(sender);
      var offset := 0;
      ghost var n := 0;
      while offset < |data|
        invariant offset == 8 * n && 0 <= n <= |received| && bodies == old(bodies)
        invariant activeBodiesCount == old(activeBodiesCount)
        invariant forall k :: 0 <= k < n ==> !Touch(bodies[i], received[k])
      {
        RecordAt(sender, n);
        var other := ReadRecord(data, offset);
        MatterMeets(root, bodies[i], received[n], rank, otherRank);
        if Touch(bodies[i], other) {
          assert FirstTouched(bodies[i], received) == n;
          CollideBodies(root, i, other, rank, otherRank);
          return;
        }
        offset, n := offset + 8, n + 1;
      }
      assert FirstTouched(bodies[i], received) == |received|;
    }

    /** `checkCollisions(serializedBodies, rank, otherRank)`: every body as one
        message leaves it, and the count kept, whatever the order. */
    method CheckCollisions(root: real -> real, data: seq<real>, ghost sender: seq<Body>, rank: nat, otherRank: nat,
                           order: seq<nat>)
      requires Counted() && IsOrder(order, |bodies|) && data == Records(sender)
      modifies `bodies, `activeBodiesCount
      ensures bodies == PassedAll(root, old(bodies), Active(sender), rank, otherRank)
      ensures Counted()
    {
      hide Records, Active, Passed, Counted, PassedAll;
      for k := 0 to |order|
        invariant |bodies| == |old(bodies)|
        invariant forall i :: 0 <= i < |bodies| ==>
                    bodies[i] == if i in order[..k] then Passed(root, old(bodies)[i], Active(sender), rank, otherRank)
                                 else old(bodies)[i]
        invariant Counted()
      {
        assert order[k] !in order[..k];
        CheckReceived(root, order[k], data, sender, rank, otherRank);
      }
      assert order[..|order|] == order;
    }
  }

  // ----------------------------------------------------- steps of the loops

  lemma PairsStep(bodies: seq<Body>, k: nat)
    requires k < |bodies|
    ensures Distances.Pairs(bodies[k..])
         == Distances.From(bodies[k], bodies[k + 1..]) + Distances.Pairs(bodies[k + 1..])
  {
    assert bodies[k..][1..] == bodies[k + 1..];
  }

  lemma LastAlone(bodies: seq<Body>)
    requires |bodies| == 1
    ensures Distances.Pairs(bodies) == multiset{}
  {
    assert bodies[1..] == [];
  }

  lemma FromNothing(a: Body, later: seq<Body>)
    requires later == []
    ensures Distances.From(a, later) == multiset{}
  {
  }

  lemma {:induction false} FromInactive(a: Body, later: seq<Body>)
    requires !a.IsActive()
    ensures Distances.From(a, later) == multiset{}
  {
    if later != [] { FromInactive(a, later[..|later| - 1]); }
  }

  lemma {:induction false} TowardsInactive(earlier: seq<Body>, b: Body)
    requires !b.IsActive()
    ensures Distances.Towards(earlier, b) == multiset{}
  {
    if earlier != [] { TowardsInactive(earlier[..|earlier| - 1], b); }
  }

  lemma NothingReceived(data: seq<real>, at: RealVector)
    ensures Distances.ReceivedTowards(data, 0, at) == multiset{}
  {
  }

  lemma ReceivedStep(data: seq<real>, n: nat, at: RealVector)
    requires 3 * n + 3 <= |data|
    ensures Distances.ReceivedTowards(data, n + 1, at)
         == Distances.ReceivedTowards(data, n, at)
            + multiset{RealVector(data[3 * n], data[3 * n + 1], data[3 * n + 2]).Minus(at)}
  {
  }

  lemma CrossStart(sender: seq<Body>, bodies: seq<Body>)
    ensures Distances.Cross(sender, bodies[..0]) == multiset{}
  {
  }

  lemma CrossStep(sender: seq<Body>, bodies: seq<Body>, k: nat)
    requires k < |bodies|
    ensures Distances.Cross(sender, bodies[..k + 1])
         == Distances.Cross(sender, bodies[..k]) + Distances.Towards(sender, bodies[k])
  {
    assert bodies[..k + 1][..k] == bodies[..k];
  }

  /** `serializeCheckCollision`. */
  function Record(b: Body): (r: seq<real>)
    ensures |r| == 8
  {
    [b.mass, b.radius, b.position.x, b.position.y, b.position.z, b.velocity.x, b.velocity.y, b.velocity.z]
  }

  function ReadRecord(data: seq<real>, offset: nat): Body
    requires offset + 8 <= |data|
  {
    Body(data[offset], data[offset + 1], RealVector(data[offset + 2], data[offset + 3], data[offset + 4]),
         RealVector(data[offset + 5], data[offset + 6], data[offset + 7]), ZERO)
  }

  function Records(bodies: seq<Body>): seq<real> {
    if bodies == [] then []
    else
      var b := bodies[|bodies| - 1];
      Records(bodies[..|bodies| - 1]) + if b.IsActive() then Record(b) else []
  }

  lemma {:induction false} RecordsLength(bodies: seq<Body>)
    ensures |Records(bodies)| == 8 * |Active(bodies)|
  {
    if bodies != [] { RecordsLength(bodies[..|bodies| - 1]); }
  }

  /** The receiver finds every active body, without its acceleration. */
  lemma {:induction false} RecordAt(bodies: seq<Body>, k: nat)
    requires k < |Active(bodies)|
    ensures 8 * k + 8 <= |Records(bodies)|
    ensures ReadRecord(Records(bodies), 8 * k) == Active(bodies)[k].Matter() && Active(bodies)[k].IsActive()
  {
    RecordsLength(bodies);
    var front, b := bodies[..|bodies| - 1], bodies[|bodies| - 1];
    RecordsLength(front);
    if k < |Active(front)| {
      RecordAt(front, k);
    } else {
      assert Records(bodies) == Records(front) + Record(b);
      assert forall n :: 0 <= n < 8 ==> Records(bodies)[8 * k + n] == Record(b)[n];
    }
  }

  /** Accelerations play no part in a collision. */
  lemma MatterMeets(root: real -> real, b: Body, other: Body, rank: nat, otherRank: nat)
    ensures Touch(b, other.Matter()) == Touch(b, other)
    ensures Collided(root, b, other.Matter(), rank, otherRank) == Collided(root, b, other, rank, otherRank)
  {
  }
}
