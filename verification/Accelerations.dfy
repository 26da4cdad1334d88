/** The gravitational sum over other bodies, and its split over processes. */
module Accelerations {
  import opened Bodies

  /** The pull of all active bodies except the one at index `skip`. */
  function Others(law: real -> real, at: RealVector, bodies: seq<Body>, skip: int): RealVector {
    if bodies == [] then ZERO
    else
      var n := |bodies| - 1;
      var sum := Others(law, at, bodies[..n], skip);
      if n == skip || !bodies[n].IsActive() then sum
      else sum.Plus(Pull(law, at, bodies[n].mass, bodies[n].position))
  }

  ghost predicate SameMatter(a: seq<Body>, b: seq<Body>) {
    |a| == |b| && forall k :: 0 <= k < |a| ==> a[k].Matter() == b[k].Matter()
  }

  lemma OthersStep(law: real -> real, at: RealVector, bodies: seq<Body>, skip: int, n: nat)
    requires n < |bodies|
    ensures Others(law, at, bodies[..n + 1], skip)
         == if n == skip || !bodies[n].IsActive() then Others(law, at, bodies[..n], skip)
            else Others(law, at, bodies[..n], skip).Plus(Pull(law, at, bodies[n].mass, bodies[n].position))
  {
    assert bodies[..n + 1][..n] == bodies[..n];
  }

  /** Accelerations do not matter. */
  lemma {:induction false} OthersSame(law: real -> real, at: RealVector, a: seq<Body>, b: seq<Body>, skip: int)
    requires SameMatter(a, b)
    ensures Others(law, at, a, skip) == Others(law, at, b, skip)
  {
    if a != [] {
      var n := |a| - 1;
      assert a[n].Matter() == b[n].Matter();
      assert forall k :: 0 <= k < n ==> a[..n][k] == a[k] && b[..n][k] == b[k];
      OthersSame(law, at, a[..n], b[..n], skip);
    }
  }

  lemma {:induction false} OthersConcat(law: real -> real, at: RealVector, a: seq<Body>, b: seq<Body>, skip: int)
    ensures Others(law, at, a + b, skip) == Others(law, at, a, skip).Plus(Others(law, at, b, skip - |a|))
    decreases |b|
  {
    if b == [] {
      assert a + b == a;
    } else {
      var n := |b| - 1;
      OthersConcat(law, at, a, b[..n], skip);
      assert (a + b)[..|a| + n] == a + b[..n];
      assert (a + b)[|a| + n] == b[n];
      PlusAssociates(Others(law, at, a, skip), Others(law, at, b[..n], skip - |a|),
                     Pull(law, at, b[n].mass, b[n].position));
    }
  }

  lemma {:induction false} SkipOutside(law: real -> real, at: RealVector, bodies: seq<Body>, skip: int)
    requires skip < 0 || skip >= |bodies|
    ensures Others(law, at, bodies, skip) == Others(law, at, bodies, -1)
  {
    if bodies != [] { SkipOutside(law, at, bodies[..|bodies| - 1], skip); }
  }

  // ------------------------------------------------------- serialized bodies

  /** `serializeAccelerationData` for every active body: mass and position. */
  function Serialized(bodies: seq<Body>): seq<real> {
    if bodies == [] then []
    else
      var b := bodies[|bodies| - 1];
      Serialized(bodies[..|bodies| - 1])
      + if b.IsActive() then [b.mass, b.position.x, b.position.y, b.position.z] else []
  }

  /** The pull of the first `n` serialized bodies. */
  function Received(law: real -> real, at: RealVector, data: seq<real>, n: nat): RealVector
    requires 4 * n <= |data|
  {
    if n == 0 then ZERO
    else
      Received(law, at, data, n - 1).Plus(
        Pull(law, at, data[4 * n - 4], RealVector(data[4 * n - 3], data[4 * n - 2], data[4 * n - 1])))
  }

  lemma {:induction false} ReceivedPrefix(law: real -> real, at: RealVector, data: seq<real>, more: seq<real>, n: nat)
    requires 4 * n <= |data|
    ensures Received(law, at, data + more, n) == Received(law, at, data, n)
  {
    if n > 0 { ReceivedPrefix(law, at, data, more, n - 1); }
  }

  /** A process that receives the serialized bodies adds the pull of all of them. */
  lemma {:induction false} ReceivedIsOthers(law: real -> real, at: RealVector, bodies: seq<Body>)
    ensures |Serialized(bodies)| % 4 == 0
    ensures Received(law, at, Serialized(bodies), |Serialized(bodies)| / 4) == Others(law, at, bodies, -1)
  {
    hide Pull, Received;
    if bodies == [] {
      ReceivedNothing(law, at, Serialized(bodies));
    } else {
      var front, b := bodies[..|bodies| - 1], bodies[|bodies| - 1];
      ReceivedIsOthers(law, at, front);
      assert Serialized(front) + [] == Serialized(front);
      if b.IsActive() {
        ReceivedOneMore(law, at, Serialized(front), b.mass, b.position);
      }
    }
  }

  lemma ReceivedNothing(law: real -> real, at: RealVector, data: seq<real>)
    ensures Received(law, at, data, 0) == ZERO
  {
  }

  lemma ReceivedOneMore(law: real -> real, at: RealVector, before: seq<real>, mass: real, position: RealVector)
    requires |before| % 4 == 0
    ensures var data := before + [mass, position.x, position.y, position.z];
            && |data| % 4 == 0 && |data| / 4 == |before| / 4 + 1
            && Received(law, at, data, |before| / 4 + 1)
               == Received(law, at, before, |before| / 4).Plus(Pull(law, at, mass, position))
  {
    hide Pull;
    var record := [mass, position.x, position.y, position.z];
    var data, n := before + record, |before| / 4;
    ReceivedPrefix(law, at, before, record, n);
    assert data[4 * n] == mass && data[4 * n + 1] == position.x;
    assert data[4 * n + 2] == position.y && data[4 * n + 3] == position.z;
    assert RealVector(data[4 * n + 1], data[4 * n + 2], data[4 * n + 3]) == position;
  }

  // ---------------------------------------------------- the sum over processes

  /** What the rounds of ranks below `r` bring to a body of rank `p`. */
  function Gathered(law: real -> real, at: RealVector, parts: seq<seq<Body>>, p: nat, r: nat): RealVector
    requires r <= |parts|
  {
    if r == 0 then ZERO
    else if r - 1 == p then Gathered(law, at, parts, p, r - 1)
    else Gathered(law, at, parts, p, r - 1).Plus(Others(law, at, parts[r - 1], -1))
  }

  /** Own block first and then the other ranks in order is the serial sum. */
  lemma {:induction false} GatheredIsSerial(law: real -> real, at: RealVector, parts: seq<seq<Body>>, p: nat, i: nat,
                                            r: nat)
    requires p < |parts| && i < |parts[p]| && r <= |parts|
    ensures var place := |Flat(parts[..p])| + i;
            (Others(law, at, Flat(parts[..r]), place)
             == if r <= p then Gathered(law, at, parts, p, r)
                else Others(law, at, parts[p], i).Plus(Gathered(law, at, parts, p, r)))
    decreases r
  {
    hide Others, Flat, Gathered, RealVector.Plus;
    if r == 0 {
      NothingGathered(law, at, parts, p, |Flat(parts[..p])| + i);
    } else {
      var place, front, part := |Flat(parts[..p])| + i, Flat(parts[..r - 1]), parts[r - 1];
      assert parts[..r] == parts[..r - 1] + [part];
      FlatPush(parts[..r - 1], part);
      GatheredIsSerial(law, at, parts, p, i, r - 1);
      OthersConcat(law, at, front, part, place);
      GatheredNext(law, at, parts, p, r);
      if r - 1 == p {
        OwnBlock(Gathered(law, at, parts, p, p), Others(law, at, part, i));
      } else {
        BlocksApart(parts, p, i, r - 1);
        SkipOutside(law, at, part, place - |front|);
        PlusAssociates(Others(law, at, parts[p], i), Gathered(law, at, parts, p, r - 1), Others(law, at, part, -1));
      }
    }
  }

  lemma NothingGathered(law: real -> real, at: RealVector, parts: seq<seq<Body>>, p: nat, place: int)
    ensures Others(law, at, Flat(parts[..0]), place) == Gathered(law, at, parts, p, 0)
  {
  }

  lemma GatheredNext(law: real -> real, at: RealVector, parts: seq<seq<Body>>, p: nat, r: nat)
    requires 0 < r <= |parts|
    ensures Gathered(law, at, parts, p, r)
         == if r - 1 == p then Gathered(law, at, parts, p, r - 1)
            else Gathered(law, at, parts, p, r - 1).Plus(Others(law, at, parts[r - 1], -1))
  {
    hide Others;
  }

  lemma OwnBlock(gathered: RealVector, own: RealVector)
    ensures gathered.Plus(own) == own.Plus(gathered)
  {
  }

  lemma BlocksApart(parts: seq<seq<Body>>, p: nat, i: nat, q: nat)
    requires p < |parts| && i < |parts[p]| && q < |parts| && p != q
    ensures var skip := |Flat(parts[..p])| + i - |Flat(parts[..q])|; skip < 0 || skip >= |parts[q]|
  {
    if p < q { PrefixLength(parts, p, q); } else { PrefixLength(parts, q, p); }
  }

  lemma {:induction false} PrefixLength(parts: seq<seq<Body>>, p: nat, q: nat)
    requires p < q <= |parts|
    ensures |Flat(parts[..p])| + |parts[p]| <= |Flat(parts[..q])|
    decreases q
  {
    assert parts[..q] == parts[..q - 1] + [parts[q - 1]];
    FlatPush(parts[..q - 1], parts[q - 1]);
    if p < q - 1 { PrefixLength(parts, p, q - 1); }
  }

  // ------------------------------------------------------ the order of the rounds

  /** What the round of rank `r` brings to a body of rank `p`. */
  function Brought(law: real -> real, at: RealVector, parts: seq<seq<Body>>, p: nat, r: nat): RealVector
    requires r < |parts|
  {
    if r == p then ZERO else Others(law, at, parts[r], -1)
  }

  ghost predicate Ranks(ranks: seq<nat>, n: nat) { forall k :: 0 <= k < |ranks| ==> ranks[k] < n }

  /** The same with the rounds in the order of `ranks`. */
  function GatheredIn(law: real -> real, at: RealVector, parts: seq<seq<Body>>, p: nat, ranks: seq<nat>): RealVector
    requires Ranks(ranks, |parts|)
  {
    if ranks == [] then ZERO
    else
      var n := |ranks| - 1;
      GatheredIn(law, at, parts, p, ranks[..n]).Plus(Brought(law, at, parts, p, ranks[n]))
  }

  /** The order of the program: 0, 1, 2, ... */
  function Below(r: nat): (ranks: seq<nat>)
    ensures |ranks| == r && forall k :: 0 <= k < r ==> ranks[k] == k
  {
    if r == 0 then [] else Below(r - 1) + [r - 1]
  }

  lemma {:induction false} GatheredInOrder(law: real -> real, at: RealVector, parts: seq<seq<Body>>, p: nat, r: nat)
    requires r <= |parts|
    ensures Gathered(law, at, parts, p, r) == GatheredIn(law, at, parts, p, Below(r))
  {
    hide Others;
    if r > 0 {
      GatheredInOrder(law, at, parts, p, r - 1);
      assert Below(r)[..r - 1] == Below(r - 1);
      PlusAssociates(Gathered(law, at, parts, p, r - 1), ZERO, ZERO);
    }
  }

  lemma {:induction false} MoveToEnd(law: real -> real, at: RealVector, parts: seq<seq<Body>>, p: nat, a: seq<nat>,
                                     x: nat, b: seq<nat>)
    requires Ranks(a + b, |parts|) && x < |parts|
    ensures Ranks(a + [x] + b, |parts|)
    ensures GatheredIn(law, at, parts, p, a + [x] + b)
         == GatheredIn(law, at, parts, p, a + b).Plus(Brought(law, at, parts, p, x))
    decreases |b|
  {
    hide Brought;
    if b == [] {
      assert a + [x] + b == a + [x] && a + b == a && (a + [x])[..|a|] == a;
    } else {
      var front, y := b[..|b| - 1], b[|b| - 1];
      assert y == (a + b)[|a| + |b| - 1];
      assert forall k :: 0 <= k < |a + front| ==> (a + front)[k] == (a + b)[k];
      MoveToEnd(law, at, parts, p, a, x, front);
      assert (a + [x] + b)[..|a| + |b|] == a + [x] + front && (a + b)[..|a| + |b| - 1] == a + front;
      PlusSwap(GatheredIn(law, at, parts, p, a + front), Brought(law, at, parts, p, x), Brought(law, at, parts, p, y));
    }
  }

  lemma PlusSwap(a: RealVector, b: RealVector, c: RealVector)
    ensures a.Plus(b).Plus(c) == a.Plus(c).Plus(b)
  {
  }

  lemma WithoutOne(a: multiset<nat>, u: multiset<nat>, v: multiset<nat>, x: nat)
    requires a + multiset{x} == u + multiset{x} + v
    ensures a == u + v
  {
    forall y: nat ensures a[y] == (u + v)[y] {
      assert (a + multiset{x})[y] == (u + multiset{x} + v)[y];
    }
  }

  /** The last element of one sequence, found in a permutation of it. */
  lemma FindLast(a: seq<nat>, b: seq<nat>) returns (u: seq<nat>, v: seq<nat>)
    requires a != [] && multiset(a) == multiset(b)
    ensures b == u + [a[|a| - 1]] + v && multiset(a[..|a| - 1]) == multiset(u + v)
  {
    var n := |a| - 1;
    var x := a[n];
    assert a == a[..n] + [x];
    assert x in multiset(b);
    var k :| 0 <= k < |b| && b[k] == x;
    u, v := b[..k], b[k + 1..];
    assert b == u + [x] + v;
    assert multiset(a) == multiset(a[..n]) + multiset{x};
    assert multiset(b) == multiset(u) + multiset{x} + multiset(v);
    WithoutOne(multiset(a[..n]), multiset(u), multiset(v), x);
    assert multiset(u + v) == multiset(u) + multiset(v);
  }

  lemma EmptyPermutation(a: seq<nat>, b: seq<nat>)
    requires multiset(a) == multiset(b)
    ensures |a| == |b|
  {
    assert |a| == |multiset(a)| == |multiset(b)| == |b|;
  }

  lemma RanksParts(u: seq<nat>, x: nat, v: seq<nat>, n: nat)
    requires Ranks(u + [x] + v, n)
    ensures Ranks(u + v, n) && x < n
  {
    var whole := u + [x] + v;
    assert whole[|u|] == x;
    forall k | 0 <= k < |u + v| ensures (u + v)[k] < n {
      assert (u + v)[k] == if k < |u| then whole[k] else whole[k + 1];
    }
  }

  /** The rounds may come in any order. */
  lemma {:induction false} RoundsCommute(law: real -> real, at: RealVector, parts: seq<seq<Body>>, p: nat, a: seq<nat>,
                                         b: seq<nat>)
    requires Ranks(a, |parts|) && Ranks(b, |parts|) && multiset(a) == multiset(b)
    ensures GatheredIn(law, at, parts, p, a) == GatheredIn(law, at, parts, p, b)
    decreases |a|
  {
    hide Brought, RealVector.Plus;
    EmptyPermutation(a, b);
    if a != [] {
      var n := |a| - 1;
      var u, v := FindLast(a, b);
      RanksParts(u, a[n], v, |parts|);
      RoundsCommute(law, at, parts, p, a[..n], u + v);
      MoveToEnd(law, at, parts, p, u, a[n], v);
    }
  }

  /** Own block first and then the other ranks in any order is the serial sum. */
  lemma AnyRoundOrderIsSerial(law: real -> real, at: RealVector, parts: seq<seq<Body>>, p: nat, i: nat, ranks: seq<nat>)
    requires p < |parts| && i < |parts[p]| && Ranks(ranks, |parts|) && multiset(ranks) == multiset(Below(|parts|))
    ensures Others(law, at, parts[p], i).Plus(GatheredIn(law, at, parts, p, ranks))
         == Others(law, at, Flat(parts), |Flat(parts[..p])| + i)
  {
    hide Others, Gathered, GatheredIn;
    assert parts[..|parts|] == parts;
    GatheredIsSerial(law, at, parts, p, i, |parts|);
    GatheredInOrder(law, at, parts, p, |parts|);
    RoundsCommute(law, at, parts, p, ranks, Below(|parts|));
  }
}
