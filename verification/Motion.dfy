/** A time step without collisions: how a body moves, that two bodies fall towards each
    other, and that the momentum of the universe is kept and its centre moves evenly, on
    any number of processes. */
module Motion {
  import opened Accelerations
  import opened Bodies
  import opened Gravity
  import opened Simulation
  import opened Universes

  // ---------------------------------------------------------------- one body

  /** In coordinates. */
  lemma MovedIs(g: real, deltaTime: real, b: Body)
    ensures var m := Moved(g, deltaTime, b);
            && m.mass == b.mass && m.radius == b.radius && m.acceleration == b.acceleration
            && m.velocity.x == b.velocity.x + b.acceleration.x * g * deltaTime
            && m.velocity.y == b.velocity.y + b.acceleration.y * g * deltaTime
            && m.velocity.z == b.velocity.z + b.acceleration.z * g * deltaTime
            && m.position.x == b.position.x + m.velocity.x * deltaTime
            && m.position.y == b.position.y + m.velocity.y * deltaTime
            && m.position.z == b.position.z + m.velocity.z * deltaTime
  {
  }

  // -------------------------------------------------------- the flat universe

  ghost predicate SameShapes(a: seq<seq<Body>>, b: seq<seq<Body>>) {
    |a| == |b| && forall p :: 0 <= p < |a| ==> |a[p]| == |b[p]|
  }

  /** The same place in two universes of one shape. */
  lemma FlatPlace(a: seq<seq<Body>>, b: seq<seq<Body>>, k: nat) returns (p: nat, i: nat)
    requires SameShapes(a, b) && k < |Flat(a)|
    ensures |Flat(b)| == |Flat(a)|
    ensures p < |a| && i < |a[p]| && k == |Flat(a[..p])| + i
    ensures Flat(a)[k] == a[p][i] && Flat(b)[k] == b[p][i]
  {
    hide Flat;
    p, i := FlatOwner(a, k);
    FlatLength(a, b);
    FlatLength(a[..p], b[..p]);
    FlatAt(b, p, i);
  }

  /** Every active body of the flat universe is attracted by all the others. */
  ghost predicate FlatSerial(law: real -> real, now: seq<Body>, start: seq<Body>) {
    && |now| == |start|
    && forall k :: 0 <= k < |start| ==>
         && now[k].Matter() == start[k].Matter()
         && (start[k].IsActive() ==> now[k].acceleration == Others(law, start[k].position, start, k))
  }

  lemma SerialIsFlat(law: real -> real, now: seq<seq<Body>>, start: seq<seq<Body>>)
    requires SerialAccelerations(law, now, start)
    ensures FlatSerial(law, Flat(now), Flat(start))
  {
    hide Others, Flat, SerialAccelerations;
    SerialShape(law, now, start);
    FlatLength(now, start);
    forall k | 0 <= k < |Flat(start)|
      ensures Flat(now)[k].Matter() == Flat(start)[k].Matter()
      ensures Flat(start)[k].IsActive() ==>
                Flat(now)[k].acceleration == Others(law, Flat(start)[k].position, Flat(start), k)
    {
      var p, i := FlatPlace(start, now, k);
      SerialAt(law, now, start, p, i);
    }
  }

  lemma SerialShape(law: real -> real, now: seq<seq<Body>>, start: seq<seq<Body>>)
    requires SerialAccelerations(law, now, start)
    ensures SameShapes(now, start) && SameShapes(start, now)
  {
    hide Others, Flat;
    SameShape(now, start);
  }

  lemma SerialAt(law: real -> real, now: seq<seq<Body>>, start: seq<seq<Body>>, p: nat, i: nat)
    requires SerialAccelerations(law, now, start) && p < |start| && i < |start[p]|
    ensures p < |now| && i < |now[p]| && now[p][i].Matter() == start[p][i].Matter()
    ensures start[p][i].IsActive() ==>
              now[p][i].acceleration == Others(law, start[p][i].position, Flat(start), |Flat(start[..p])| + i)
  {
    hide Others, Flat;
    assert SameMatter(now[p], start[p]);
  }

  /** Two bodies, wherever they live, fall towards each other: the acceleration of each in
      coordinates. */
  lemma TwoBodiesAttract(law: real -> real, now: seq<seq<Body>>, start: seq<seq<Body>>, a: Body, b: Body)
    requires SerialAccelerations(law, now, start) && Flat(start) == [a, b] && a.mass > 0.0 && b.mass > 0.0
    ensures |Flat(now)| == 2
    ensures var l := law(DistanceSquared(a.position, b.position));
            && Flat(now)[0].acceleration
               == RealVector((b.position.x - a.position.x) * (b.mass * l), (b.position.y - a.position.y) * (b.mass * l),
                             (b.position.z - a.position.z) * (b.mass * l))
            && Flat(now)[1].acceleration
               == RealVector((a.position.x - b.position.x) * (a.mass * l), (a.position.y - b.position.y) * (a.mass * l),
                             (a.position.z - b.position.z) * (a.mass * l))
  {
    hide SerialAccelerations, Flat, Pull, DistanceSquared;
    TwoBodiesPull(law, now, start, a, b);
    PullIs(law, a.position, b.mass, b.position);
    PullIs(law, b.position, a.mass, a.position);
    DistanceSymmetric(a.position, b.position);
  }

  lemma TwoBodiesPull(law: real -> real, now: seq<seq<Body>>, start: seq<seq<Body>>, a: Body, b: Body)
    requires SerialAccelerations(law, now, start) && Flat(start) == [a, b] && a.IsActive() && b.IsActive()
    ensures |Flat(now)| == 2
    ensures Flat(now)[0].acceleration == Pull(law, a.position, b.mass, b.position)
    ensures Flat(now)[1].acceleration == Pull(law, b.position, a.mass, a.position)
  {
    hide SerialAccelerations, Flat, Pull;
    SerialIsFlat(law, now, start);
    OfTwo(law, a, b);
  }

  lemma OfTwo(law: real -> real, a: Body, b: Body)
    requires a.IsActive() && b.IsActive()
    ensures Others(law, a.position, [a, b], 0) == Pull(law, a.position, b.mass, b.position)
    ensures Others(law, b.position, [a, b], 1) == Pull(law, b.position, a.mass, a.position)
  {
    hide Pull;
    assert [a, b][..1] == [a] && [a][..0] == [];
    assert Others(law, a.position, [a], 0) == ZERO;
    assert Others(law, b.position, [a], 1) == ZERO.Plus(Pull(law, b.position, a.mass, a.position));
  }

  // ------------------------------------------------------------------ momentum

  /** The momentum of the active ones among the first `n` bodies. */
  ghost function Momentum(bodies: seq<Body>, n: nat): RealVector
    requires n <= |bodies|
  {
    if n == 0 then ZERO
    else
      var b := bodies[n - 1];
      Momentum(bodies, n - 1).Plus(if b.IsActive() then b.velocity.Times(b.mass) else ZERO)
  }

  /** Their masses times their positions: the centre of mass, times the mass. */
  ghost function Centre(bodies: seq<Body>, n: nat): RealVector
    requires n <= |bodies|
  {
    if n == 0 then ZERO
    else
      var b := bodies[n - 1];
      Centre(bodies, n - 1).Plus(if b.IsActive() then b.position.Times(b.mass) else ZERO)
  }

  lemma Distributes(a: RealVector, b: RealVector, k: real)
    ensures a.Plus(b).Times(k) == a.Times(k).Plus(b.Times(k)) && ZERO.Times(k) == ZERO
  {
  }

  lemma Commutes(v: RealVector, k: real, l: real)
    ensures v.Times(k).Times(l) == v.Times(l).Times(k)
  {
    Exchange(v.x, k, l);
    Exchange(v.y, k, l);
    Exchange(v.z, k, l);
  }

  lemma Exchange(x: real, k: real, l: real)
    ensures (x * k) * l == (x * l) * k
  {
  }

  lemma SpeedUp(v: RealVector, a: RealVector, m: real, g: real, t: real)
    ensures v.Plus(a.Times(g).Times(t)).Times(m) == v.Times(m).Plus(a.Times(m).Times(g).Times(t))
  {
    hide RealVector.Plus, RealVector.Times;
    Distributes(v, a.Times(g).Times(t), m);
    Commutes(a.Times(g), t, m);
    Commutes(a, g, m);
  }

  lemma Interchange(a: RealVector, b: RealVector, c: RealVector, d: RealVector)
    ensures a.Plus(b).Plus(c.Plus(d)) == a.Plus(c).Plus(b.Plus(d)) && a.Plus(ZERO) == a
  {
  }

  /** The momentum changes by the force. */
  lemma {:induction false} MomentumMoves(law: real -> real, start: seq<Body>, now: seq<Body>, moved: seq<Body>,
                                         g: real, t: real, n: nat)
    requires FlatSerial(law, now, start) && HaveMoved(g, t, moved, now) && n <= |start|
    ensures Momentum(moved, n) == Momentum(start, n).Plus(Force(law, start, n).Times(g).Times(t))
  {
    hide Others, RealVector.Plus, RealVector.Times;
    if n == 0 {
      Distributes(ZERO, ZERO, g);
      Distributes(ZERO, ZERO, t);
      Interchange(ZERO, ZERO, ZERO, ZERO);
    } else {
      MomentumMoves(law, start, now, moved, g, t, n - 1);
      var b, c := start[n - 1], now[n - 1];
      assert c.Matter() == b.Matter();
      var f, more := Force(law, start, n - 1), if b.IsActive() then c.acceleration.Times(b.mass) else ZERO;
      assert Force(law, start, n) == f.Plus(more);
      Distributes(f, more, g);
      Distributes(f.Times(g), more.Times(g), t);
      OneSpeedsUp(b, c, moved[n - 1], g, t);
      Interchange(Momentum(start, n - 1), f.Times(g).Times(t),
                  if b.IsActive() then b.velocity.Times(b.mass) else ZERO, more.Times(g).Times(t));
    }
  }

  lemma OneSpeedsUp(b: Body, c: Body, d: Body, g: real, t: real)
    requires c.Matter() == b.Matter() && d == if c.IsActive() then Moved(g, t, c) else c
    ensures d.IsActive() == b.IsActive()
    ensures (if d.IsActive() then d.velocity.Times(d.mass) else ZERO)
         == (if b.IsActive() then b.velocity.Times(b.mass) else ZERO)
              .Plus((if b.IsActive() then c.acceleration.Times(b.mass) else ZERO).Times(g).Times(t))
  {
    hide RealVector.Plus, RealVector.Times;
    Distributes(ZERO, ZERO, g);
    Distributes(ZERO, ZERO, t);
    Interchange(ZERO, ZERO, ZERO, ZERO);
    SpeedUp(b.velocity, c.acceleration, b.mass, g, t);
    assert c.mass == c.Matter().mass && c.velocity == c.Matter().velocity;
    assert b.mass == b.Matter().mass && b.velocity == b.Matter().velocity;
  }

  lemma Travel(p: RealVector, v: RealVector, m: real, t: real)
    ensures p.Plus(v.Times(t)).Times(m) == p.Times(m).Plus(v.Times(m).Times(t))
  {
    hide RealVector.Plus, RealVector.Times;
    Distributes(p, v.Times(t), m);
    Commutes(v, t, m);
  }

  /** The centre changes by the new momentum. */
  lemma {:induction false} CentreMoves(now: seq<Body>, moved: seq<Body>, g: real, t: real, n: nat)
    requires HaveMoved(g, t, moved, now) && n <= |now|
    ensures Centre(moved, n) == Centre(now, n).Plus(Momentum(moved, n).Times(t))
  {
    hide RealVector.Plus, RealVector.Times;
    if n == 0 {
      Distributes(ZERO, ZERO, t);
      Interchange(ZERO, ZERO, ZERO, ZERO);
    } else {
      CentreMoves(now, moved, g, t, n - 1);
      var c, d := now[n - 1], moved[n - 1];
      var more := if d.IsActive() then d.velocity.Times(d.mass) else ZERO;
      Distributes(Momentum(moved, n - 1), more, t);
      OneTravels(c, d, g, t);
      Interchange(Centre(now, n - 1), Momentum(moved, n - 1).Times(t),
                  if c.IsActive() then c.position.Times(c.mass) else ZERO, more.Times(t));
    }
  }

  lemma OneTravels(c: Body, d: Body, g: real, t: real)
    requires d == if c.IsActive() then Moved(g, t, c) else c
    ensures (if d.IsActive() then d.position.Times(d.mass) else ZERO)
         == (if c.IsActive() then c.position.Times(c.mass) else ZERO)
              .Plus((if d.IsActive() then d.velocity.Times(d.mass) else ZERO).Times(t))
  {
    hide RealVector.Plus, RealVector.Times;
    Distributes(ZERO, ZERO, t);
    Interchange(ZERO, ZERO, ZERO, ZERO);
    Travel(c.position, d.velocity, c.mass, t);
  }

  lemma {:induction false} SameCentre(now: seq<Body>, start: seq<Body>, n: nat)
    requires SameMatter(now, start) && n <= |now|
    ensures Centre(now, n) == Centre(start, n)
  {
    hide RealVector.Plus, RealVector.Times;
    if n > 0 {
      SameCentre(now, start, n - 1);
      assert now[n - 1].Matter() == start[n - 1].Matter();
    }
  }

  /** Newton's first law for the whole universe: accelerations and motion keep the
      momentum, whatever the law of gravitation, and the centre moves evenly with it. */
  lemma MomentumIsKept(law: real -> real, start: seq<Body>, now: seq<Body>, moved: seq<Body>, g: real, t: real)
    requires FlatSerial(law, now, start) && HaveMoved(g, t, moved, now)
    ensures |moved| == |start| && Momentum(moved, |moved|) == Momentum(start, |start|)
    ensures Centre(moved, |moved|) == Centre(start, |start|).Plus(Momentum(start, |start|).Times(t))
  {
    hide Momentum, Centre, Force, Others;
    ForcesVanish(law, start);
    MomentumMoves(law, start, now, moved, g, t, |start|);
    Distributes(ZERO, ZERO, g);
    Distributes(ZERO, ZERO, t);
    Interchange(Momentum(start, |start|), ZERO, ZERO, ZERO);
    CentreMoves(now, moved, g, t, |now|);
    SameCentre(now, start, |now|);
  }

  // ---------------------------------------------------------- on all processes

  /** `statePositions` on all processes. */
  method StatePositions(g: real, deltaTime: real, universes: seq<Universe>, orders: seq<seq<nat>>)
    requires Apart(universes) && Orders(orders, Parts(universes))
    modifies set p | 0 <= p < |universes| :: universes[p]
    ensures SameShapes(Parts(universes), old(Parts(universes)))
    ensures forall p :: 0 <= p < |universes| ==>
              HaveMoved(g, deltaTime, Parts(universes)[p], old(Parts(universes))[p])
  {
    hide Moved, HaveMoved, IsOrder;
    ghost var before := Parts(universes);
    for p := 0 to |universes|
      invariant forall q :: 0 <= q < p ==> HaveMoved(g, deltaTime, universes[q].bodies, before[q])
      invariant forall q :: p <= q < |universes| ==> universes[q].bodies == before[q]
    {
      assert IsOrder(orders[p], |before[p]|);
      universes[p].UpdateVelocitiesAndPositions(g, deltaTime, orders[p]);
    }
    forall p | 0 <= p < |universes| ensures |universes[p].bodies| == |before[p]| {
      MovedLength(g, deltaTime, universes[p].bodies, before[p]);
    }
  }

  lemma MovedLength(g: real, deltaTime: real, now: seq<Body>, before: seq<Body>)
    requires HaveMoved(g, deltaTime, now, before)
    ensures |now| == |before|
  {
  }

  lemma FlatMoved(g: real, deltaTime: real, now: seq<seq<Body>>, before: seq<seq<Body>>)
    requires SameShapes(now, before)
    requires forall p :: 0 <= p < |now| ==> HaveMoved(g, deltaTime, now[p], before[p])
    ensures HaveMoved(g, deltaTime, Flat(now), Flat(before))
  {
    hide Flat, Moved;
    FlatLength(now, before);
    forall k | 0 <= k < |Flat(now)|
      ensures Flat(now)[k]
           == if Flat(before)[k].IsActive() then Moved(g, deltaTime, Flat(before)[k]) else Flat(before)[k]
    {
      var p, i := FlatPlace(before, now, k);
      assert HaveMoved(g, deltaTime, now[p], before[p]);
    }
  }

  /** The accelerations and the motion of one time step, on any number of processes and
      under any schedule: the momentum of the universe is kept and its centre of mass
      moves with it. */
  method MoveUniverse(law: real -> real, g: real, deltaTime: real, universes: seq<Universe>, schedule: Schedule,
                      moves: seq<seq<nat>>)
    requires Apart(universes) && schedule.Fits(Parts(universes)) && Orders(moves, Parts(universes))
    modifies set p | 0 <= p < |universes| :: universes[p]
    ensures var before, after := old(Flat(Parts(universes))), Flat(Parts(universes));
            && |after| == |before|
            && Momentum(after, |after|) == Momentum(before, |before|)
            && Centre(after, |after|) == Centre(before, |before|).Plus(Momentum(before, |before|).Times(deltaTime))
  {
    hide SerialAccelerations, FlatSerial, HaveMoved, Momentum, Centre, Flat, Orders, RoundOrders;
    ghost var start := Parts(universes);
    StateAccelerations(law, universes, schedule.resets, schedule.locals, schedule.rounds);
    ghost var now := Parts(universes);
    OrdersFit(law, now, start, moves);
    StatePositions(g, deltaTime, universes, moves);
    ghost var moved := Parts(universes);
    SerialIsFlat(law, now, start);
    FlatMoved(g, deltaTime, moved, now);
    MomentumIsKept(law, Flat(start), Flat(now), Flat(moved), g, deltaTime);
  }

  lemma OrdersFit(law: real -> real, now: seq<seq<Body>>, start: seq<seq<Body>>, orders: seq<seq<nat>>)
    requires SerialAccelerations(law, now, start) && Orders(orders, start)
    ensures Orders(orders, now)
  {
    hide Others, Flat, IsOrder;
    SameShape(now, start);
  }
}
