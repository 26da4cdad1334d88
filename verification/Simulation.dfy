/** The broadcast rounds of `Simulation` over all processes. */
module Simulation {
  import opened Accelerations
  import opened Bodies
  import opened Collisions
  import opened Universes
  import Distances

  // ------------------------------------------------------------- all processes

  ghost predicate Apart(universes: seq<Universe>) {
    forall p, q :: 0 <= p < q < |universes| ==> universes[p] != universes[q]
  }

  ghost function Parts(universes: seq<Universe>): (parts: seq<seq<Body>>)
    reads set p | 0 <= p < |universes| :: universes[p]
    ensures |parts| == |universes| && forall p :: 0 <= p < |parts| ==> parts[p] == universes[p].bodies
  {
    if universes == [] then [] else Parts(universes[..|universes| - 1]) + [universes[|universes| - 1].bodies]
  }

  ghost predicate SameParts(a: seq<seq<Body>>, b: seq<seq<Body>>) {
    |a| == |b| && forall p :: 0 <= p < |a| ==> SameMatter(a[p], b[p])
  }

  /** One parallel loop on every process: the order in which the threads of rank
      `p` visit its bodies is `orders[p]`. */
  ghost predicate Orders(orders: seq<seq<nat>>, parts: seq<seq<Body>>) {
    |orders| == |parts| && forall p :: 0 <= p < |parts| ==> IsOrder(orders[p], |parts[p]|)
  }

  /** A parallel loop on every process in every round, each with its own order. */
  ghost predicate RoundOrders(rounds: seq<seq<seq<nat>>>, parts: seq<seq<Body>>) {
    |rounds| == |parts| && forall r :: 0 <= r < |rounds| ==> Orders(rounds[r], parts)
  }

  /** Every active body carries its own block's pull and that of the ranks below `r`. */
  ghost predicate Attracted(law: real -> real, now: seq<seq<Body>>, start: seq<seq<Body>>, r: nat) {
    && SameParts(now, start) && r <= |start|
    && forall p, i :: 0 <= p < |start| && 0 <= i < |start[p]| && start[p][i].IsActive() ==>
         now[p][i].acceleration
         == Others(law, start[p][i].position, start[p], i).Plus(Gathered(law, start[p][i].position, start, p, r))
  }

  /** The receiving process `p` in round `r`. */
  ghost predicate Pulled(law: real -> real, now: seq<Body>, before: seq<Body>, sender: seq<Body>) {
    && SameMatter(now, before)
    && forall i :: 0 <= i < |now| && now[i].IsActive() ==>
         now[i].acceleration == before[i].acceleration.Plus(Others(law, now[i].position, sender, -1))
  }

  lemma PulledNext(law: real -> real, start: seq<seq<Body>>, before: seq<seq<Body>>, now: seq<seq<Body>>, r: nat)
    requires r < |start| && Attracted(law, before, start, r) && SameParts(now, before)
    requires forall p :: 0 <= p < |start| && p != r ==> Pulled(law, now[p], before[p], before[r])
    requires now[r] == before[r]
    ensures Attracted(law, now, start, r + 1)
  {
    hide Others, Pull;
    forall p | 0 <= p < |start| ensures SameMatter(now[p], start[p]) {
      assert SameMatter(now[p], before[p]) && SameMatter(before[p], start[p]);
      forall k | 0 <= k < |now[p]| ensures now[p][k].Matter() == start[p][k].Matter() {
        assert now[p][k].Matter() == before[p][k].Matter() == start[p][k].Matter();
      }
    }
    forall p, i | 0 <= p < |start| && 0 <= i < |start[p]| && start[p][i].IsActive()
      ensures now[p][i].acceleration
           == Others(law, start[p][i].position, start[p], i).Plus(Gathered(law, start[p][i].position, start, p, r + 1))
    {
      var at := start[p][i].position;
      if p != r {
        assert Pulled(law, now[p], before[p], before[r]);
        assert now[p][i].Matter() == start[p][i].Matter();
        assert SameMatter(before[r], start[r]);
        OthersSame(law, at, before[r], start[r], -1);
        PlusAssociates(Others(law, at, start[p], i), Gathered(law, at, start, p, r), Others(law, at, start[r], -1));
      }
    }
  }

  /** One round: rank `r` broadcasts its active bodies, all other ranks add their
      pull. */
  method Round(law: real -> real, universes: seq<Universe>, orders: seq<seq<nat>>, r: nat)
    requires Apart(universes) && r < |universes| && Orders(orders, Parts(universes))
    modifies set p | 0 <= p < |universes| :: universes[p]
    ensures SameParts(Parts(universes), old(Parts(universes)))
    ensures Parts(universes)[r] == old(Parts(universes))[r]
    ensures forall p :: 0 <= p < |universes| && p != r ==>
              Pulled(law, Parts(universes)[p], old(Parts(universes))[p], old(Parts(universes))[r])
  {
    hide Others, Received, Serialized;
    ghost var before := Parts(universes);
    var serializedBodies := universes[r].SerializeAccelerationData();
    ReceivedIsOthers(law, ZERO, universes[r].bodies);
    for p := 0 to |universes|
      invariant forall q :: 0 <= q < p && q != r ==> Pulled(law, universes[q].bodies, before[q], before[r])
      invariant forall q :: 0 <= q < |universes| && (q >= p || q == r) ==> universes[q].bodies == before[q]
    {
      if p != r {
        assert IsOrder(orders[p], |before[p]|);
        universes[p].UpdateFromReceived(law, serializedBodies, orders[p]);
        forall i | 0 <= i < |before[p]| && universes[p].bodies[i].IsActive()
          ensures universes[p].bodies[i].acceleration
               == before[p][i].acceleration.Plus(Others(law, universes[p].bodies[i].position, before[r], -1))
        {
          ReceivedIsOthers(law, universes[p].bodies[i].position, before[r]);
        }
      }
    }
    assert forall p :: 0 <= p < |universes| && p != r ==> Pulled(law, Parts(universes)[p], before[p], before[r]);
  }

  method LocalPass(law: real -> real, universes: seq<Universe>, resets: seq<seq<nat>>, orders: seq<seq<nat>>)
    requires Apart(universes) && Orders(resets, Parts(universes)) && Orders(orders, Parts(universes))
    modifies set p | 0 <= p < |universes| :: universes[p]
    ensures Attracted(law, Parts(universes), old(Parts(universes)), 0)
  {
    hide SelfAttracted, IsOrder, Attracted, Parts;
    ghost var start := Parts(universes);
    for p := 0 to |universes|
      invariant forall q :: p <= q < |universes| ==> universes[q].bodies == start[q]
      invariant forall q :: 0 <= q < p ==> SelfAttracted(law, universes[q].bodies, start[q])
    {
      assert IsOrder(resets[p], |start[p]|) && IsOrder(orders[p], |start[p]|);
      universes[p].UpdateAccelerations(law, resets[p], orders[p]);
      LocallyAttracted(law, universes[p].bodies, start[p]);
    }
    BeforeTheRounds(law, Parts(universes), start);
  }

  /** Every active body of a block carries the pull of its own block. */
  ghost predicate SelfAttracted(law: real -> real, now: seq<Body>, start: seq<Body>) {
    && SameMatter(now, start)
    && forall i :: 0 <= i < |start| && start[i].IsActive() ==>
         now[i].acceleration == Others(law, start[i].position, start, i)
  }

  lemma LocallyAttracted(law: real -> real, now: seq<Body>, start: seq<Body>)
    requires SameMatter(now, start)
    requires forall i :: 0 <= i < |now| && now[i].IsActive() ==>
               now[i].acceleration == Others(law, now[i].position, start, i)
    ensures SelfAttracted(law, now, start)
  {
    hide Others;
    assert forall i :: 0 <= i < |start| ==> now[i].Matter() == start[i].Matter();
  }

  lemma BeforeTheRounds(law: real -> real, now: seq<seq<Body>>, start: seq<seq<Body>>)
    requires |now| == |start| && forall q :: 0 <= q < |start| ==> SelfAttracted(law, now[q], start[q])
    ensures Attracted(law, now, start, 0)
  {
    hide Others;
    forall q, i | 0 <= q < |start| && 0 <= i < |start[q]| && start[q][i].IsActive()
      ensures now[q][i].acceleration
           == Others(law, start[q][i].position, start[q], i).Plus(Gathered(law, start[q][i].position, start, q, 0))
    {
      assert SelfAttracted(law, now[q], start[q]);
      PlusAssociates(Others(law, start[q][i].position, start[q], i), ZERO, ZERO);
    }
    forall q | 0 <= q < |start| ensures SameMatter(now[q], start[q]) { assert SelfAttracted(law, now[q], start[q]); }
  }

  /** Every active body is attracted by all other active bodies of the universe,
      each of them once. */
  ghost predicate SerialAccelerations(law: real -> real, now: seq<seq<Body>>, start: seq<seq<Body>>) {
    && SameParts(now, start)
    && forall p, i :: 0 <= p < |start| && 0 <= i < |start[p]| && start[p][i].IsActive() ==>
         now[p][i].acceleration == Others(law, start[p][i].position, Flat(start), |Flat(start[..p])| + i)
  }

  lemma SerialResult(law: real -> real, now: seq<seq<Body>>, start: seq<seq<Body>>)
    requires Attracted(law, now, start, |start|)
    ensures SerialAccelerations(law, now, start)
  {
    hide Others, Gathered, Flat;
    assert start[..|start|] == start;
    forall p, i | 0 <= p < |start| && 0 <= i < |start[p]| && start[p][i].IsActive()
      ensures now[p][i].acceleration == Others(law, start[p][i].position, Flat(start), |Flat(start[..p])| + i)
    {
      GatheredIsSerial(law, start[p][i].position, start, p, i, |start|);
    }
  }

  lemma OrdersStay(law: real -> real, now: seq<seq<Body>>, start: seq<seq<Body>>, r: nat, orders: seq<seq<nat>>)
    requires Attracted(law, now, start, r) && Orders(orders, start)
    ensures Orders(orders, now)
  {
    forall p | 0 <= p < |start| ensures IsOrder(orders[p], |now[p]|) {
      assert SameMatter(now[p], start[p]) && IsOrder(orders[p], |start[p]|);
    }
  }

  /** `stateAccelerations` on all processes: afterwards every active body has the
      acceleration of the serial simulation, the pull of all other active bodies
      of the universe. Every parallel loop, the reset, the local pass and each
      round, may visit the bodies of a process in an order of its own. */
  method StateAccelerations(law: real -> real, universes: seq<Universe>, resets: seq<seq<nat>>,
                            locals: seq<seq<nat>>, rounds: seq<seq<seq<nat>>>)
    requires Apart(universes) && RoundOrders(rounds, Parts(universes))
    requires Orders(resets, Parts(universes)) && Orders(locals, Parts(universes))
    modifies set p | 0 <= p < |universes| :: universes[p]
    ensures SerialAccelerations(law, Parts(universes), old(Parts(universes)))
  {
    hide Attracted, SerialAccelerations, Pulled, SameMatter, Orders;
    ghost var start := Parts(universes);
    LocalPass(law, universes, resets, locals);
    for rank := 0 to |universes|
      invariant Attracted(law, Parts(universes), start, rank)
    {
      ghost var before := Parts(universes);
      OrdersStay(law, before, start, rank, rounds[rank]);
      Round(law, universes, rounds[rank], rank);
      PulledNext(law, start, before, Parts(universes), rank);
    }
    SerialResult(law, Parts(universes), start);
  }

  /** Two runs over the same bodies, shared out to any two numbers of processes,
      leave every active body with the same acceleration. */
  lemma ProcessCountDoesNotMatter(law: real -> real, startA: seq<seq<Body>>, nowA: seq<seq<Body>>,
                                  startB: seq<seq<Body>>, nowB: seq<seq<Body>>, p: nat, i: nat, q: nat, j: nat)
    requires SerialAccelerations(law, nowA, startA) && SerialAccelerations(law, nowB, startB)
    requires Flat(startA) == Flat(startB)
    requires p < |startA| && i < |startA[p]| && startA[p][i].IsActive() && q < |startB| && j < |startB[q]|
    requires |Flat(startA[..p])| + i == |Flat(startB[..q])| + j
    ensures |nowA| == |startA| && |nowA[p]| == |startA[p]| && |nowB| == |startB| && |nowB[q]| == |startB[q]|
    ensures nowA[p][i] == nowB[q][j]
  {
    hide Others, Flat;
    FlatAt(startA, p, i);
    FlatAt(startB, q, j);
    assert SameMatter(nowA[p], startA[p]) && SameMatter(nowB[q], startB[q]);
    assert nowA[p][i].Matter() == startA[p][i].Matter() && nowB[q][j].Matter() == startB[q][j].Matter();
    assert nowA[p][i] == nowA[p][i].Matter().(acceleration := nowA[p][i].acceleration);
  }

  /** The active bodies of two universes agree, body by body. */
  ghost predicate Agree(nowA: seq<seq<Body>>, nowB: seq<seq<Body>>) {
    && |Flat(nowA)| == |Flat(nowB)|
    && forall k :: 0 <= k < |Flat(nowA)| && Flat(nowA)[k].IsActive() ==> Flat(nowA)[k] == Flat(nowB)[k]
  }

  /** A body of the flat sequence belongs to some process. */
  lemma {:induction false} FlatOwner(parts: seq<seq<Body>>, k: nat) returns (p: nat, i: nat)
    requires k < |Flat(parts)|
    ensures p < |parts| && i < |parts[p]| && k == |Flat(parts[..p])| + i && Flat(parts)[k] == parts[p][i]
  {
    var n := |parts| - 1;
    if k < |Flat(parts[..n])| {
      p, i := FlatOwner(parts[..n], k);
      assert parts[..n][..p] == parts[..p];
    } else {
      p, i := n, k - |Flat(parts[..n])|;
    }
  }

  lemma {:induction false} FlatLength(a: seq<seq<Body>>, b: seq<seq<Body>>)
    requires |a| == |b| && forall p :: 0 <= p < |a| ==> |a[p]| == |b[p]|
    ensures |Flat(a)| == |Flat(b)|
  {
    if a != [] { FlatLength(a[..|a| - 1], b[..|b| - 1]); }
  }

  lemma RunsAgree(law: real -> real, startA: seq<seq<Body>>, nowA: seq<seq<Body>>, startB: seq<seq<Body>>,
                  nowB: seq<seq<Body>>)
    requires SerialAccelerations(law, nowA, startA) && SerialAccelerations(law, nowB, startB)
    requires Flat(startA) == Flat(startB)
    ensures Agree(nowA, nowB)
  {
    hide Others, Flat;
    SameShape(nowA, startA);
    SameShape(nowB, startB);
    FlatLength(nowA, startA);
    FlatLength(nowB, startB);
    forall k | 0 <= k < |Flat(nowA)| && Flat(nowA)[k].IsActive() ensures Flat(nowA)[k] == Flat(nowB)[k] {
      var p, i := FlatOwner(nowA, k);
      var q, j := FlatOwner(nowB, k);
      FlatLength(nowA[..p], startA[..p]);
      FlatLength(nowB[..q], startB[..q]);
      assert SameMatter(nowA[p], startA[p]) && nowA[p][i].Matter() == startA[p][i].Matter();
      ProcessCountDoesNotMatter(law, startA, nowA, startB, nowB, p, i, q, j);
    }
  }

  lemma SameShape(now: seq<seq<Body>>, start: seq<seq<Body>>)
    requires SameParts(now, start)
    ensures |now| == |start| && forall p :: 0 <= p < |now| ==> |now[p]| == |start[p]|
  {
    forall p | 0 <= p < |now| ensures |now[p]| == |start[p]| { assert SameMatter(now[p], start[p]); }
  }

  /** The schedule of one run: an order for every parallel loop. */
  datatype Schedule = Schedule(resets: seq<seq<nat>>, locals: seq<seq<nat>>, rounds: seq<seq<seq<nat>>>)
  {
    ghost predicate Fits(parts: seq<seq<Body>>) {
      Orders(resets, parts) && Orders(locals, parts) && RoundOrders(rounds, parts)
    }
  }

  /** Two runs of `stateAccelerations` on the same bodies, on any two numbers of
      processes and under any two schedules, end with the same accelerations. */
  method TwoRuns(law: real -> real, a: seq<Universe>, b: seq<Universe>, scheduleA: Schedule, scheduleB: Schedule)
    requires Apart(a) && Apart(b) && forall p, q :: 0 <= p < |a| && 0 <= q < |b| ==> a[p] != b[q]
    requires scheduleA.Fits(Parts(a)) && scheduleB.Fits(Parts(b)) && Flat(Parts(a)) == Flat(Parts(b))
    modifies set p | 0 <= p < |a| :: a[p]
    modifies set q | 0 <= q < |b| :: b[q]
    ensures Agree(Parts(a), Parts(b))
  {
    hide SerialAccelerations, Agree, Flat, Orders, RoundOrders;
    ghost var startA, startB := Parts(a), Parts(b);
    StateAccelerations(law, a, scheduleA.resets, scheduleA.locals, scheduleA.rounds);
    ghost var nowA := Parts(a);
    assert Parts(b) == startB;
    StateAccelerations(law, b, scheduleB.resets, scheduleB.locals, scheduleB.rounds);
    assert Parts(a) == nowA;
    RunsAgree(law, startA, nowA, startB, Parts(b));
  }

  // --------------------------------------------------------------- distances

  /** `getMyDistances` on one process: its own pairs, and those with the bodies that
      the lower ranks broadcast. */
  method GetMyDistances(universes: seq<Universe>, rank: nat) returns (distances: seq<RealVector>)
    requires rank < |universes| && universes[rank].bodies != []
    ensures multiset(distances) == Distances.Mine(Parts(universes), rank)
  {
    hide Distances.Pairs, Distances.Cross, Distances.CrossBelow, Distances.Positions;
    ghost var parts := Parts(universes);
    distances := universes[rank].AggregateOwnDistances([]);
    NothingBelow(parts, rank);
    for current := 0 to |universes|
      invariant multiset(distances)
             == Distances.Pairs(parts[rank])
                + Distances.CrossBelow(parts, rank, if current < rank then current else rank)
    {
      var receivedPositions := universes[current].SerializePositions();
      if rank > current {
        BelowStep(parts, rank, current);
        Distances.UnionAssociates(Distances.Pairs(parts[rank]), Distances.CrossBelow(parts, rank, current),
                        Distances.Cross(parts[current], parts[rank]));
        distances := universes[rank].AggregateDistances(distances, receivedPositions, universes[current].bodies);
      }
    }
  }

  lemma NothingBelow(parts: seq<seq<Body>>, p: nat)
    requires p < |parts|
    ensures Distances.CrossBelow(parts, p, 0) == multiset{}
  {
  }

  lemma BelowStep(parts: seq<seq<Body>>, p: nat, r: nat)
    requires p < |parts| && r < |parts|
    ensures Distances.CrossBelow(parts, p, r + 1)
         == Distances.CrossBelow(parts, p, r) + Distances.Cross(parts[r], parts[p])
  {
  }

  /** All processes together collect the distances of the serial program. */
  method CollectDistances(universes: seq<Universe>) returns (all: seq<RealVector>)
    requires forall p :: 0 <= p < |universes| ==> universes[p].bodies != []
    ensures multiset(all) == Distances.Pairs(Flat(Parts(universes)))
  {
    hide Distances.Mine, Distances.Pairs, Flat;
    all := [];
    ghost var parts := Parts(universes);
    for rank := 0 to |universes|
      invariant multiset(all) == Distances.Collected(parts, rank)
    {
      var mine := GetMyDistances(universes, rank);
      all := all + mine;
    }
    Distances.CollectedIsSerial(parts, |parts|);
  }

  // -------------------------------------------------------------- collisions

  ghost predicate AllCounted(universes: seq<Universe>)
    reads set p | 0 <= p < |universes| :: universes[p]
  {
    forall p :: 0 <= p < |universes| ==> universes[p].Counted()
  }

  /** One round of `stateCollisions` on all processes. */
  method CollisionRound(root: real -> real, universes: seq<Universe>, orders: seq<seq<nat>>, r: nat)
    requires Apart(universes) && r < |universes| && Orders(orders, Parts(universes)) && AllCounted(universes)
    modifies set p | 0 <= p < |universes| :: universes[p]
    ensures Parts(universes) == RoundUpTo(root, old(Parts(universes)), r, |universes|)
    ensures AllCounted(universes)
  {
    hide Active, Records, PassedAll, RoundUpTo, Universe.Counted, IsOrder, Parts;
    ghost var before := Parts(universes);
    ghost var sender := universes[r].bodies;
    var serializedBodies := universes[r].SerializeCollisionData();
    for p := 0 to |universes|
      invariant forall q :: 0 <= q < p ==>
                  universes[q].bodies == if q == r then before[q] else PassedAll(root, before[q], Active(sender), q, r)
      invariant forall q :: p <= q < |universes| ==> universes[q].bodies == before[q]
      invariant forall q :: 0 <= q < |universes| ==> universes[q].Counted()
    {
      if p != r {
        assert IsOrder(orders[p], |before[p]|);
        universes[p].CheckCollisions(root, serializedBodies, sender, p, r, orders[p]);
      }
    }
    RoundIs(root, before, Parts(universes), r);
  }

  lemma RoundIs(root: real -> real, before: seq<seq<Body>>, after: seq<seq<Body>>, r: nat)
    requires r < |before| == |after|
    requires forall q :: 0 <= q < |before| ==>
               after[q] == if q == r then before[q] else PassedAll(root, before[q], Active(before[r]), q, r)
    ensures after == RoundUpTo(root, before, r, |before|)
  {
    hide PassedAll, Active;
  }

  lemma NextRound(root: real -> real, start: seq<seq<Body>>, r: nat, orders: seq<seq<nat>>)
    requires r < |start| && Orders(orders, start)
    ensures AfterRounds(root, start, r + 1) == RoundUpTo(root, AfterRounds(root, start, r), r, |start|)
    ensures Orders(orders, AfterRounds(root, start, r))
  {
    hide RoundUpTo, IsOrder;
  }

  /** All rounds: the result does not depend on the order of the threads, and every
      process still counts its active bodies. */
  method CollisionRounds(root: real -> real, universes: seq<Universe>, rounds: seq<seq<seq<nat>>>)
    requires Apart(universes) && RoundOrders(rounds, Parts(universes)) && AllCounted(universes)
    modifies set p | 0 <= p < |universes| :: universes[p]
    ensures Parts(universes) == AfterRounds(root, old(Parts(universes)), |universes|)
    ensures AllCounted(universes)
  {
    hide RoundUpTo, AfterRounds, Orders, Parts, AllCounted;
    ghost var start := Parts(universes);
    BeforeRounds(root, start);
    for rank := 0 to |universes|
      invariant Parts(universes) == AfterRounds(root, start, rank) && AllCounted(universes)
    {
      NextRound(root, start, rank, rounds[rank]);
      CollisionRound(root, universes, rounds[rank], rank);
    }
  }
}
