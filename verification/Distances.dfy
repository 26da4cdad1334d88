/** Distances between all pairs of active bodies: the double loop of the serial
    program, and its split over processes. */
module Distances {
  import opened Bodies

  /** The distance between two bodies, if both are active. */
  function One(a: Body, b: Body): multiset<RealVector> {
    if a.IsActive() && b.IsActive() then multiset{a.position.Minus(b.position)} else multiset{}
  }

  /** From one body to later ones. */
  function From(a: Body, later: seq<Body>): multiset<RealVector> {
    if later == [] then multiset{}
    else
      var n := |later| - 1;
      From(a, later[..n]) + One(a, later[n])
  }

  /** The serial reference: every pair `i < j` of active bodies once, as position
      `i` minus position `j`. */
  function Pairs(bodies: seq<Body>): multiset<RealVector> {
    if bodies == [] then multiset{} else From(bodies[0], bodies[1..]) + Pairs(bodies[1..])
  }

  /** From earlier bodies to one. */
  function Towards(earlier: seq<Body>, b: Body): multiset<RealVector> {
    if earlier == [] then multiset{}
    else
      var n := |earlier| - 1;
      Towards(earlier[..n], b) + One(earlier[n], b)
  }

  /** From all bodies of one block to all bodies of a later one. */
  function Cross(earlier: seq<Body>, later: seq<Body>): multiset<RealVector> {
    if later == [] then multiset{} else Cross(earlier, later[..|later| - 1]) + Towards(earlier, later[|later| - 1])
  }

  lemma FromStep(a: Body, later: seq<Body>, n: nat)
    requires n < |later|
    ensures From(a, later[..n + 1])
         == From(a, later[..n]) + One(a, later[n])
  {
    assert later[..n + 1][..n] == later[..n];
  }

  lemma UnionAssociates(a: multiset<RealVector>, b: multiset<RealVector>, c: multiset<RealVector>)
    ensures (a + b) + c == a + (b + c)
  {
  }

  lemma Regroup(a: multiset<RealVector>, b: multiset<RealVector>, c: multiset<RealVector>, d: multiset<RealVector>)
    ensures (a + b) + (c + d) == (a + c) + (b + d)
  {
  }

  lemma FromLast(a: Body, b: seq<Body>, c: seq<Body>)
    requires c != []
    ensures From(a, b + c) == From(a, b + c[..|c| - 1]) + One(a, c[|c| - 1])
  {
    hide From;
    var front, x := c[..|c| - 1], c[|c| - 1];
    FromPush(a, b + front, x);
    assert b + c == (b + front) + [x];
  }

  lemma FromPush(a: Body, later: seq<Body>, b: Body)
    ensures From(a, later + [b]) == From(a, later) + One(a, b)
  {
    assert (later + [b])[..|later|] == later;
  }

  lemma TowardsPush(earlier: seq<Body>, a: Body, b: Body)
    ensures Towards(earlier + [a], b) == Towards(earlier, b) + One(a, b)
  {
    assert (earlier + [a])[..|earlier|] == earlier;
  }

  lemma FromNone(a: Body, b: seq<Body>)
    ensures From(a, b + []) == From(a, b) + From(a, [])
  {
    assert b + [] == b;
  }

  lemma TowardsLast(a: seq<Body>, b: seq<Body>, c: Body)
    requires b != []
    ensures Towards(a + b, c) == Towards(a + b[..|b| - 1], c) + One(b[|b| - 1], c)
  {
    hide Towards;
    var front, x := b[..|b| - 1], b[|b| - 1];
    TowardsPush(a + front, x, c);
    assert a + b == (a + front) + [x];
  }

  lemma TowardsNone(a: seq<Body>, c: Body)
    ensures Towards(a + [], c) == Towards(a, c) + Towards([], c)
  {
    assert a + [] == a;
  }

  lemma {:induction false} FromConcat(a: Body, b: seq<Body>, c: seq<Body>)
    ensures From(a, b + c) == From(a, b) + From(a, c)
    decreases |c|
  {
    if c == [] {
      FromNone(a, b);
    } else {
      hide One;
      var front, x := c[..|c| - 1], c[|c| - 1];
      FromConcat(a, b, front);
      FromLast(a, b, c);
      UnionAssociates(From(a, b), From(a, front), One(a, x));
    }
  }

  lemma {:induction false} TowardsConcat(a: seq<Body>, b: seq<Body>, c: Body)
    ensures Towards(a + b, c) == Towards(a, c) + Towards(b, c)
    decreases |b|
  {
    if b == [] {
      TowardsNone(a, c);
    } else {
      hide One;
      var front, x := b[..|b| - 1], b[|b| - 1];
      TowardsConcat(a, front, c);
      TowardsLast(a, b, c);
      UnionAssociates(Towards(a, c), Towards(front, c), One(x, c));
    }
  }

  lemma {:induction false} CrossConcat(a: seq<Body>, b: seq<Body>, c: seq<Body>)
    ensures Cross(a + b, c) == Cross(a, c) + Cross(b, c)
    decreases |c|
  {
    if c != [] {
      hide From, Towards;
      var front, x := c[..|c| - 1], c[|c| - 1];
      CrossConcat(a, b, front);
      TowardsConcat(a, b, x);
      Regroup(Cross(a, front), Cross(b, front), Towards(a, x), Towards(b, x));
    }
  }

  /** Row by row is column by column. */
  lemma {:induction false} CrossOne(a: Body, later: seq<Body>)
    ensures Cross([a], later) == From(a, later)
  {
    if later != [] {
      var n := |later| - 1;
      CrossOne(a, later[..n]);
      assert [a][..0] == [];
      assert Towards([a], later[n]) == Towards([], later[n]) + One(a, later[n]);
    }
  }

  lemma {:induction false} PairsConcat(a: seq<Body>, b: seq<Body>)
    ensures Pairs(a + b) == Pairs(a) + Pairs(b) + Cross(a, b)
    decreases |a|
  {
    if a == [] {
      PairsNone(b);
    } else {
      hide Pairs, From, Cross;
      var rest := a[1..];
      PairsConcat(rest, b);
      PairsHead(a, b);
      FromConcat(a[0], rest, b);
      CrossHead(a, b);
      PairSum(From(a[0], rest), From(a[0], b), Pairs(rest), Pairs(b), Cross(rest, b));
    }
  }

  lemma PairsNone(b: seq<Body>)
    ensures Pairs([] + b) == Pairs([]) + Pairs(b) + Cross([], b)
  {
    assert [] + b == b;
    CrossNothing(b);
  }

  lemma PairsHead(a: seq<Body>, b: seq<Body>)
    requires a != []
    ensures Pairs(a) == From(a[0], a[1..]) + Pairs(a[1..])
    ensures Pairs(a + b) == From(a[0], a[1..] + b) + Pairs(a[1..] + b)
  {
    assert (a + b)[0] == a[0] && (a + b)[1..] == a[1..] + b;
  }

  lemma CrossHead(a: seq<Body>, b: seq<Body>)
    requires a != []
    ensures Cross(a, b) == From(a[0], b) + Cross(a[1..], b)
  {
    CrossOne(a[0], b);
    CrossConcat([a[0]], a[1..], b);
    assert a == [a[0]] + a[1..];
  }

  lemma PairSum(f: multiset<RealVector>, g: multiset<RealVector>, p: multiset<RealVector>, q: multiset<RealVector>,
                c: multiset<RealVector>)
    ensures (f + g) + (p + q + c) == (f + p) + q + (g + c)
  {
  }

  lemma {:induction false} CrossNothing(b: seq<Body>)
    ensures Cross([], b) == multiset{}
  {
    if b != [] { CrossNothing(b[..|b| - 1]); }
  }

  // -------------------------------------------------------- serialized positions

  /** `serializePositions`: three numbers for every active body. */
  function Positions(bodies: seq<Body>): seq<real> {
    if bodies == [] then []
    else
      var b := bodies[|bodies| - 1];
      Positions(bodies[..|bodies| - 1]) + if b.IsActive() then [b.position.x, b.position.y, b.position.z] else []
  }

  /** The distances from the first `n` serialized positions to a body. */
  function ReceivedTowards(data: seq<real>, n: nat, at: RealVector): multiset<RealVector>
    requires 3 * n <= |data|
  {
    if n == 0 then multiset{}
    else
      ReceivedTowards(data, n - 1, at)
      + multiset{RealVector(data[3 * n - 3], data[3 * n - 2], data[3 * n - 1]).Minus(at)}
  }

  lemma {:induction false} ReceivedPrefix(data: seq<real>, more: seq<real>, n: nat, at: RealVector)
    requires 3 * n <= |data|
    ensures ReceivedTowards(data + more, n, at) == ReceivedTowards(data, n, at)
  {
    if n > 0 { ReceivedPrefix(data, more, n - 1, at); }
  }

  lemma ReceivedOneMore(before: seq<real>, position: RealVector, at: RealVector)
    requires |before| % 3 == 0
    ensures var data := before + [position.x, position.y, position.z];
            && |data| % 3 == 0 && |data| / 3 == |before| / 3 + 1
            && ReceivedTowards(data, |before| / 3 + 1, at)
               == ReceivedTowards(before, |before| / 3, at) + multiset{position.Minus(at)}
  {
    var record := [position.x, position.y, position.z];
    var data, n := before + record, |before| / 3;
    ReceivedPrefix(before, record, n, at);
    assert data[3 * n] == position.x && data[3 * n + 1] == position.y && data[3 * n + 2] == position.z;
  }

  /** A process that receives the positions adds the distances to its body. */
  lemma {:induction false} ReceivedIsTowards(bodies: seq<Body>, b: Body)
    requires b.IsActive()
    ensures |Positions(bodies)| % 3 == 0
    ensures ReceivedTowards(Positions(bodies), |Positions(bodies)| / 3, b.position) == Towards(bodies, b)
  {
    if bodies != [] {
      var front, last := bodies[..|bodies| - 1], bodies[|bodies| - 1];
      ReceivedIsTowards(front, b);
      if last.IsActive() { ReceivedOneMore(Positions(front), last.position, b.position); }
      else { assert Positions(front) + [] == Positions(front); }
    }
  }

  lemma {:induction false} PositionsLength(bodies: seq<Body>)
    ensures |Positions(bodies)| % 3 == 0
  {
    if bodies != [] { PositionsLength(bodies[..|bodies| - 1]); }
  }

  // ------------------------------------------------------ the sum over processes

  /** From the blocks of the ranks below `r` to the block of rank `p`. */
  function CrossBelow(parts: seq<seq<Body>>, p: nat, r: nat): multiset<RealVector>
    requires p < |parts| && r <= |parts|
  {
    if r == 0 then multiset{} else CrossBelow(parts, p, r - 1) + Cross(parts[r - 1], parts[p])
  }

  /** What rank `p` collects. */
  function Mine(parts: seq<seq<Body>>, p: nat): multiset<RealVector>
    requires p < |parts|
  {
    Pairs(parts[p]) + CrossBelow(parts, p, p)
  }

  /** What the ranks below `r` collect together. */
  function Collected(parts: seq<seq<Body>>, r: nat): multiset<RealVector>
    requires r <= |parts|
  {
    if r == 0 then multiset{} else Collected(parts, r - 1) + Mine(parts, r - 1)
  }

  lemma {:induction false} CrossBelowIsFlat(parts: seq<seq<Body>>, p: nat, r: nat)
    requires p < |parts| && r <= |parts|
    ensures CrossBelow(parts, p, r) == Cross(Flat(parts[..r]), parts[p])
    decreases r
  {
    if r == 0 {
      CrossNothing(parts[p]);
    } else {
      CrossBelowIsFlat(parts, p, r - 1);
      assert parts[..r] == parts[..r - 1] + [parts[r - 1]];
      FlatPush(parts[..r - 1], parts[r - 1]);
      CrossConcat(Flat(parts[..r - 1]), parts[r - 1], parts[p]);
    }
  }

  /** Together the processes collect exactly what the serial double loop does:
      every pair once and with the same sign. */
  lemma {:induction false} CollectedIsSerial(parts: seq<seq<Body>>, r: nat)
    requires r <= |parts|
    ensures Collected(parts, r) == Pairs(Flat(parts[..r]))
    ensures r == |parts| ==> Collected(parts, r) == Pairs(Flat(parts))
    decreases r
  {
    hide Pairs, Cross, CrossBelow, Flat;
    if r == 0 {
      NothingCollected(parts);
    } else {
      var before, part := Flat(parts[..r - 1]), parts[r - 1];
      CollectedIsSerial(parts, r - 1);
      assert parts[..r] == parts[..r - 1] + [part];
      FlatPush(parts[..r - 1], part);
      CrossBelowIsFlat(parts, r - 1, r - 1);
      PairsConcat(before, part);
      UnionAssociates(Pairs(before), Pairs(part), Cross(before, part));
    }
    assert parts[..|parts|] == parts;
  }

  lemma NothingCollected(parts: seq<seq<Body>>)
    ensures Collected(parts, 0) == Pairs(Flat(parts[..0]))
  {
  }

  // ------------------------------------------------------ what is in the list

  /** In coordinates. */
  lemma OneIs(a: Body, b: Body)
    ensures One(a, b)
         == if a.mass > 0.0 && b.mass > 0.0 then
              multiset{RealVector(a.position.x - b.position.x, a.position.y - b.position.y,
                                  a.position.z - b.position.z)}
            else multiset{}
  {
  }

  lemma {:induction false} FromCount(a: Body, later: seq<Body>)
    ensures |From(a, later)| == if a.IsActive() then |Active(later)| else 0
  {
    if later != [] { FromCount(a, later[..|later| - 1]); }
  }

  lemma {:induction false} ActiveFirst(bodies: seq<Body>)
    requires bodies != []
    ensures |Active(bodies)| == |Active(bodies[1..])| + if bodies[0].IsActive() then 1 else 0
  {
    var n := |bodies| - 1;
    if n > 0 {
      ActiveFirst(bodies[..n]);
      assert bodies[..n][1..] == bodies[1..][..n - 1] && bodies[1..][n - 1] == bodies[n];
    } else {
      assert bodies[..0] == [] && bodies[1..] == [];
    }
  }

  /** There is one distance for every two of the active bodies. */
  lemma {:induction false} PairsCount(bodies: seq<Body>)
    ensures 2 * |Pairs(bodies)| == |Active(bodies)| * (|Active(bodies)| - 1)
  {
    if bodies != [] {
      hide From, Active;
      PairsCount(bodies[1..]);
      FromCount(bodies[0], bodies[1..]);
      ActiveFirst(bodies);
      NextCount(|Active(bodies[1..])|);
    }
  }

  lemma NextCount(n: nat)
    ensures (n + 1) * n == n * (n - 1) + 2 * n
  {
  }

  lemma {:induction false} FromHas(a: Body, later: seq<Body>, j: nat)
    requires j < |later| && a.IsActive() && later[j].IsActive()
    ensures One(a, later[j]) <= From(a, later)
  {
    if j < |later| - 1 { FromHas(a, later[..|later| - 1], j); }
  }

  /** Every two active bodies contribute theirs, the position of the earlier one minus
      that of the later one. */
  lemma {:induction false} PairsHave(bodies: seq<Body>, i: nat, j: nat)
    requires i < j < |bodies| && bodies[i].mass > 0.0 && bodies[j].mass > 0.0
    ensures var a, b := bodies[i].position, bodies[j].position;
            RealVector(a.x - b.x, a.y - b.y, a.z - b.z) in Pairs(bodies)
  {
    hide From;
    OneIs(bodies[i], bodies[j]);
    if i > 0 { PairsHave(bodies[1..], i - 1, j - 1); } else { FromHas(bodies[0], bodies[1..], j - 1); }
  }
}
