/** Collisions between bodies of different processes: what one broadcast round
    does to a body, and what all rounds do to a pair that meets no third body. */
module Collisions {
  import opened Bodies

  /** The cube root that `addRadiuses` takes. */
  ghost predicate CubeRoot(root: real -> real) {
    forall x: real :: x >= 0.0 ==> root(x) >= 0.0 && Cube(root(x)) == x
  }

  function Cube(r: real): real { r * r * r }

  /** The distance of the centres is less than the sum of the radii. */
  predicate Touch(a: Body, b: Body) {
    var sum := a.radius + b.radius;
    sum > 0.0 && b.position.Minus(a.position).Square() < sum * sum
  }

  function Deactivated(b: Body): Body { b.(mass := b.mass * -1.0) }

  function Reciprocal(x: real): real { if x == 0.0 then 0.0 else 1.0 / x }

  /** `absorb` when the mass allows it. The velocities are both weighted with the
      other mass, after the own mass has grown. */
  function Absorbed(root: real -> real, b: Body, other: Body): Body {
    var mass := b.mass + other.mass;
    b.(mass := mass, radius := root(Cube(b.radius) + Cube(other.radius)),
       velocity := b.velocity.Times(other.mass).Plus(other.velocity.Times(other.mass))
                   .Times(Reciprocal(mass + other.mass)))
  }

  /** `collideBodies`: a body of `rank` meets one that `otherRank` has sent. */
  function Collided(root: real -> real, b: Body, other: Body, rank: nat, otherRank: nat): Body {
    if b.mass == other.mass && rank < otherRank then Deactivated(b)
    else if b.mass >= other.mass then Absorbed(root, b, other)
    else Deactivated(b)
  }

  /** The first of the received bodies that the body touches. */
  function FirstTouched(b: Body, received: seq<Body>): (k: nat)
    ensures k <= |received|
    ensures k < |received| ==> Touch(b, received[k])
    ensures forall l :: 0 <= l < k ==> !Touch(b, received[l])
  {
    if received == [] || Touch(b, received[0]) then 0 else 1 + FirstTouched(b, received[1..])
  }

  /** One active body after one received message. */
  function Passed(root: real -> real, b: Body, received: seq<Body>, rank: nat, otherRank: nat): Body {
    var k := FirstTouched(b, received);
    if !b.IsActive() || k == |received| then b else Collided(root, b, received[k], rank, otherRank)
  }

  function PassedAll(root: real -> real, bodies: seq<Body>, received: seq<Body>, rank: nat, otherRank: nat)
    : (r: seq<Body>)
    ensures |r| == |bodies|
    ensures forall i :: 0 <= i < |bodies| ==> r[i] == Passed(root, bodies[i], received, rank, otherRank)
  {
    if bodies == [] then []
    else
      PassedAll(root, bodies[..|bodies| - 1], received, rank, otherRank)
      + [Passed(root, bodies[|bodies| - 1], received, rank, otherRank)]
  }

  /** The ranks below `n` after the round of rank `r`. */
  function RoundUpTo(root: real -> real, parts: seq<seq<Body>>, r: nat, n: nat): (after: seq<seq<Body>>)
    requires r < |parts| && n <= |parts|
    ensures |after| == n
    ensures forall p :: 0 <= p < n ==>
              after[p] == if p == r then parts[p] else PassedAll(root, parts[p], Active(parts[r]), p, r)
  {
    if n == 0 then []
    else
      RoundUpTo(root, parts, r, n - 1)
      + [if n - 1 == r then parts[n - 1] else PassedAll(root, parts[n - 1], Active(parts[r]), n - 1, r)]
  }

  /** All processes after the rounds of the ranks below `r`. */
  function AfterRounds(root: real -> real, parts: seq<seq<Body>>, r: nat): (after: seq<seq<Body>>)
    requires r <= |parts|
    ensures |after| == |parts|
    ensures forall p :: 0 <= p < |parts| ==> |after[p]| == |parts[p]|
  {
    if r == 0 then parts else RoundUpTo(root, AfterRounds(root, parts, r - 1), r - 1, |parts|)
  }

  // ----------------------------------------------------------------- counting

  lemma {:induction false} ActiveUpdate(bodies: seq<Body>, i: nat, b: Body)
    requires i < |bodies| && bodies[i].IsActive()
    ensures |Active(bodies[i := b])| == |Active(bodies)| - if b.IsActive() then 0 else 1
  {
    var n := |bodies| - 1;
    if i < n {
      assert bodies[i := b][..n] == bodies[..n][i := b];
      ActiveUpdate(bodies[..n], i, b);
    } else {
      assert bodies[i := b][..n] == bodies[..n];
    }
  }

  lemma {:induction false} ActiveMember(bodies: seq<Body>, k: nat) returns (i: nat)
    requires k < |Active(bodies)|
    ensures i < |bodies| && bodies[i] == Active(bodies)[k] && bodies[i].IsActive()
  {
    var n := |bodies| - 1;
    if k < |Active(bodies[..n])| { i := ActiveMember(bodies[..n], k); } else { i := n; }
  }

  lemma {:induction false} ActiveHas(bodies: seq<Body>, i: nat)
    requires i < |bodies| && bodies[i].IsActive()
    ensures bodies[i] in Active(bodies)
  {
    var n := |bodies| - 1;
    if i < n { ActiveHas(bodies[..n], i); }
  }

  // ------------------------------------------------------------- single passes

  lemma PassMisses(root: real -> real, b: Body, received: seq<Body>, rank: nat, otherRank: nat)
    requires forall k :: 0 <= k < |received| ==> !Touch(b, received[k])
    ensures Passed(root, b, received, rank, otherRank) == b
  {
  }

  lemma PassMeets(root: real -> real, b: Body, received: seq<Body>, other: Body, rank: nat, otherRank: nat)
    requires b.IsActive() && other in received && Touch(b, other)
    requires forall k :: 0 <= k < |received| && Touch(b, received[k]) ==> received[k] == other
    ensures Passed(root, b, received, rank, otherRank) == Collided(root, b, other, rank, otherRank)
  {
  }

  lemma TouchSymmetric(a: Body, b: Body)
    ensures Touch(a, b) == Touch(b, a)
  {
    var d, e := b.position.Minus(a.position), a.position.Minus(b.position);
    SquareSign(d.x);
    SquareSign(d.y);
    SquareSign(d.z);
    assert e == RealVector(-d.x, -d.y, -d.z);
  }

  lemma SquareSign(x: real)
    ensures (-x) * (-x) == x * x
  {
  }

  /** A merged body has no smaller radius. */
  lemma RadiusGrows(root: real -> real, r: real, s: real)
    requires CubeRoot(root) && r >= 0.0 && s >= 0.0
    ensures root(Cube(r) + Cube(s)) >= r
  {
    CubeSign(r);
    CubeSign(s);
    var m := root(Cube(r) + Cube(s));
    assert m >= 0.0 && Cube(m) == Cube(r) + Cube(s);
    if m < r { CubeGrows(m, r); }
  }

  lemma CubeSign(r: real)
    requires r >= 0.0
    ensures Cube(r) >= 0.0
  {
    assert r * r >= 0.0;
  }

  lemma CubeGrows(a: real, b: real)
    requires 0.0 <= a < b
    ensures Cube(a) < Cube(b)
  {
    assert a * a <= a * b <= b * b;
    assert a * a * a <= b * b * a < b * b * b;
  }

  lemma TouchWider(a: Body, b: Body, wider: Body)
    requires Touch(a, b) && a.radius >= 0.0 && b.radius >= 0.0
    requires wider.position == b.position && wider.radius >= b.radius
    ensures Touch(a, wider)
  {
    var s, t := a.radius + b.radius, a.radius + wider.radius;
    SquareGrows(s, t);
  }

  lemma SquareGrows(s: real, t: real)
    requires 0.0 <= s <= t
    ensures s * s <= t * t
  {
    assert s * s <= s * t <= t * t;
  }

  // ------------------------------------------------------------ isolated pairs

  ghost predicate Pair(start: seq<seq<Body>>, p: nat, i: nat, q: nat, j: nat) {
    p < q < |start| && i < |start[p]| && j < |start[q]|
  }

  /** No third body of rank `r` touches either of the two when it is sent. */
  ghost predicate IsolatedIn(now: seq<seq<Body>>, r: nat, p: nat, i: nat, q: nat, j: nat)
    requires r < |now| && Pair(now, p, i, q, j)
  {
    forall k :: 0 <= k < |now[r]| && !(r == p && k == i) && !(r == q && k == j) && now[r][k].IsActive() ==>
      !Touch(now[p][i], now[r][k]) && !Touch(now[q][j], now[r][k])
  }

  /** No third body touches either of the two in the round in which it is sent. */
  ghost predicate Isolated(root: real -> real, start: seq<seq<Body>>, p: nat, i: nat, q: nat, j: nat)
    requires Pair(start, p, i, q, j)
  {
    forall r :: 0 <= r < |start| ==> IsolatedIn(AfterRounds(root, start, r), r, p, i, q, j)
  }

  /** The pair when the rounds of the ranks below `r` are over, for `p < q`. */
  ghost predicate PairAfter(root: real -> real, a: Body, b: Body, p: nat, q: nat, r: nat, a': Body, b': Body) {
    var met := Collided(root, b, a, q, p);
    && b' == (if r <= p then b else met)
    && a' == (if r <= q || !met.IsActive() then a else Deactivated(a))
  }

  ghost predicate Meet(root: real -> real, a: Body, b: Body) {
    && CubeRoot(root) && a.IsActive() && a.radius >= 0.0 && b.IsActive() && b.radius >= 0.0 && Touch(a, b)
  }

  ghost predicate Colliding(root: real -> real, start: seq<seq<Body>>, p: nat, i: nat, q: nat, j: nat) {
    Pair(start, p, i, q, j) && Meet(root, start[p][i], start[q][j]) && Isolated(root, start, p, i, q, j)
  }

  /** A received body is one of the pair or touches neither. */
  lemma NoThird(now: seq<seq<Body>>, p: nat, i: nat, q: nat, j: nat, s: nat, k: nat)
    requires Pair(now, p, i, q, j) && s < |now| && IsolatedIn(now, s, p, i, q, j) && k < |Active(now[s])|
    ensures Active(now[s])[k].IsActive()
    ensures var other := Active(now[s])[k];
            || (s == p && other == now[p][i])
            || (s == q && other == now[q][j])
            || (!Touch(now[p][i], other) && !Touch(now[q][j], other))
  {
    hide Touch;
    var n := ActiveMember(now[s], k);
  }

  lemma BeforeRounds(root: real -> real, start: seq<seq<Body>>)
    ensures AfterRounds(root, start, 0) == start
  {
  }

  lemma OneRound(root: real -> real, start: seq<seq<Body>>, s: nat, p: nat, i: nat)
    requires s < |start| && p < |start| && i < |start[p]|
    ensures var now := AfterRounds(root, start, s);
            AfterRounds(root, start, s + 1)[p][i]
            == if p == s then now[p][i] else Passed(root, now[p][i], Active(now[s]), p, s)
  {
    hide Passed, Active;
  }

  /** What the higher rank makes of the collision: it keeps its body exactly when
      that is not the lighter one. */
  lemma Meeting(root: real -> real, a: Body, b: Body, p: nat, q: nat)
    requires p < q && Meet(root, a, b)
    ensures var met := Collided(root, b, a, q, p);
            && (met.IsActive() <==> b.mass >= a.mass)
            && (met.IsActive() ==> met.mass == a.mass + b.mass && Touch(a, met)
                                   && Collided(root, a, met, p, q) == Deactivated(a))
            && !Deactivated(a).IsActive()
  {
    hide CubeRoot;
    var met := Collided(root, b, a, q, p);
    if b.mass >= a.mass {
      RadiusGrows(root, b.radius, a.radius);
      TouchWider(a, b, met);
    }
  }

  /** The round of rank `s` takes the pair from one stage to the next. */
  lemma PairRound(root: real -> real, start: seq<seq<Body>>, p: nat, i: nat, q: nat, j: nat, s: nat)
    requires Pair(start, p, i, q, j) && s < |start| && Meet(root, start[p][i], start[q][j])
    requires var now := AfterRounds(root, start, s);
             PairAfter(root, start[p][i], start[q][j], p, q, s, now[p][i], now[q][j]) && IsolatedIn(now, s, p, i, q, j)
    ensures var now := AfterRounds(root, start, s + 1);
            PairAfter(root, start[p][i], start[q][j], p, q, s + 1, now[p][i], now[q][j])
  {
    var a, b := start[p][i], start[q][j];
    Meeting(root, a, b, p, q);
    TouchSymmetric(a, b);
    hide AfterRounds, Touch, Collided, Passed, Active, IsolatedIn, CubeRoot, Deactivated;
    OneRound(root, start, s, p, i);
    OneRound(root, start, s, q, j);
    var now := AfterRounds(root, start, s);
    var received := Active(now[s]);
    forall k | 0 <= k < |received|
      ensures received[k].IsActive()
      ensures || (s == p && received[k] == now[p][i]) || (s == q && received[k] == now[q][j])
              || (!Touch(now[p][i], received[k]) && !Touch(now[q][j], received[k]))
    {
      NoThird(now, p, i, q, j, s, k);
    }
    if s == p { ActiveHas(now[p], i); }
    if s == q && now[q][j].IsActive() { ActiveHas(now[q], j); }
    PairStep(root, a, b, p, q, s, now[p][i], now[q][j], received);
  }

  lemma PairStep(root: real -> real, a: Body, b: Body, p: nat, q: nat, s: nat, x: Body, y: Body, received: seq<Body>)
    requires a.IsActive() && b.IsActive() && p < q && PairAfter(root, a, b, p, q, s, x, y) && Touch(b, a)
    requires var met := Collided(root, b, a, q, p);
             met.IsActive() ==> Touch(a, met) && Collided(root, a, met, p, q) == Deactivated(a)
    requires forall k :: 0 <= k < |received| ==>
               || (s == p && received[k] == x) || (s == q && received[k] == y)
               || (!Touch(x, received[k]) && !Touch(y, received[k]))
    requires forall k :: 0 <= k < |received| ==> received[k].IsActive()
    requires (s == p ==> x in received) && (s == q && y.IsActive() ==> y in received)
    ensures PairAfter(root, a, b, p, q, s + 1, if s == p then x else Passed(root, x, received, p, s),
                      if s == q then y else Passed(root, y, received, q, s))
  {
    hide Touch, Collided, FirstTouched, Passed;
    if s == p {
      PassMeets(root, y, received, x, q, s);
    } else if s != q {
      PassMisses(root, x, received, p, s);
      PassMisses(root, y, received, q, s);
    } else if y.IsActive() {
      PassMeets(root, x, received, y, p, s);
    } else {
      PassMisses(root, x, received, p, s);
    }
  }

  lemma {:induction false} PairRounds(root: real -> real, start: seq<seq<Body>>, p: nat, i: nat, q: nat, j: nat, r: nat)
    requires Colliding(root, start, p, i, q, j) && r <= |start|
    ensures var now := AfterRounds(root, start, r);
            PairAfter(root, start[p][i], start[q][j], p, q, r, now[p][i], now[q][j])
    decreases r
  {
    hide AfterRounds, PairAfter, IsolatedIn, Meet;
    if r == 0 {
      BeforeRounds(root, start);
      PairAtStart(root, start[p][i], start[q][j], p, q);
    } else {
      PairRounds(root, start, p, i, q, j, r - 1);
      PairRound(root, start, p, i, q, j, r - 1);
    }
  }

  lemma PairAtStart(root: real -> real, a: Body, b: Body, p: nat, q: nat)
    ensures PairAfter(root, a, b, p, q, 0, a, b)
  {
  }

  /** Exactly one of the two is active after all rounds. The body of the higher rank
      survives with the mass of both when it is not the lighter one, also for equal
      masses, where the comment in the source announces the opposite; otherwise the
      body of the lower rank survives as it was. */
  ghost predicate OneSurvives(a: Body, b: Body, a': Body, b': Body) {
    && (b'.IsActive() <==> b.mass >= a.mass)
    && (a'.IsActive() <==> a.mass > b.mass)
    && (b'.IsActive() ==> b'.mass == a.mass + b.mass)
    && (a'.IsActive() ==> a' == a)
  }

  /** Two bodies on different processes that touch each other, while no third body
      touches either of them in the round in which it is sent. */
  lemma IsolatedCollision(root: real -> real, start: seq<seq<Body>>, p: nat, i: nat, q: nat, j: nat)
    requires Colliding(root, start, p, i, q, j)
    ensures var end := AfterRounds(root, start, |start|);
            OneSurvives(start[p][i], start[q][j], end[p][i], end[q][j])
  {
    PairRounds(root, start, p, i, q, j, |start|);
    Meeting(root, start[p][i], start[q][j], p, q);
    hide Touch, CubeRoot, Isolated, AfterRounds, Collided;
  }

  // ------------------------------------------------- isolation seen at the start

  /** Bodies that take part in no collision: active ones of different ranks, other
      than the pair, do not touch, and none touches one of the pair or what the two
      merge to. All of it can be read off the bodies before the first round. */
  ghost predicate StartIsolated(root: real -> real, start: seq<seq<Body>>, p: nat, i: nat, q: nat, j: nat)
    requires Pair(start, p, i, q, j)
  {
    forall r, k :: 0 <= r < |start| && 0 <= k < |start[r]| && Third(r, k, p, i, q, j) && start[r][k].IsActive() ==>
      LeavesAlone(root, start, p, i, q, j, start[r][k]) && Untouched(start, r, k, p, i, q, j)
  }

  ghost predicate Third(r: nat, k: nat, p: nat, i: nat, q: nat, j: nat) {
    !(r == p && k == i) && !(r == q && k == j)
  }

  ghost predicate LeavesAlone(root: real -> real, start: seq<seq<Body>>, p: nat, i: nat, q: nat, j: nat, c: Body)
    requires Pair(start, p, i, q, j)
  {
    var a, b := start[p][i], start[q][j];
    !Touch(a, c) && !Touch(b, c) && !Touch(Collided(root, b, a, q, p), c)
  }

  ghost predicate Untouched(start: seq<seq<Body>>, r: nat, k: nat, p: nat, i: nat, q: nat, j: nat)
    requires r < |start| && k < |start[r]|
  {
    forall s, l :: 0 <= s < |start| && s != r && 0 <= l < |start[s]| && Third(s, l, p, i, q, j) ==>
      start[s][l].IsActive() ==> !Touch(start[r][k], start[s][l])
  }

  /** After the rounds of the ranks below `r` all third bodies are as at the start. */
  ghost predicate ThirdsStay(start: seq<seq<Body>>, now: seq<seq<Body>>, p: nat, i: nat, q: nat, j: nat) {
    && |now| == |start| && (forall r :: 0 <= r < |start| ==> |now[r]| == |start[r]|)
    && forall r, k :: 0 <= r < |start| && 0 <= k < |start[r]| && Third(r, k, p, i, q, j) ==> now[r][k] == start[r][k]
  }

  /** Mass plays no part in touching. */
  lemma DeactivatedTouches(a: Body, c: Body)
    ensures Touch(Deactivated(a), c) == Touch(a, c)
  {
  }

  lemma QuietRoundIsolates(root: real -> real, start: seq<seq<Body>>, now: seq<seq<Body>>, p: nat, i: nat, q: nat,
                           j: nat, s: nat)
    requires Pair(start, p, i, q, j) && s < |start| && StartIsolated(root, start, p, i, q, j)
    requires ThirdsStay(start, now, p, i, q, j)
    requires PairAfter(root, start[p][i], start[q][j], p, q, s, now[p][i], now[q][j])
    ensures IsolatedIn(now, s, p, i, q, j)
  {
    hide Touch, Collided, Deactivated, Untouched;
    forall k | 0 <= k < |now[s]| && Third(s, k, p, i, q, j) && now[s][k].IsActive()
      ensures !Touch(now[p][i], now[s][k]) && !Touch(now[q][j], now[s][k])
    {
      assert LeavesAlone(root, start, p, i, q, j, start[s][k]);
      DeactivatedTouches(start[p][i], now[s][k]);
    }
  }

  /** A third body meets nothing in the round of rank `s`. */
  lemma ThirdMisses(root: real -> real, start: seq<seq<Body>>, now: seq<seq<Body>>, p: nat, i: nat, q: nat, j: nat,
                    s: nat, r: nat, k: nat)
    requires Pair(start, p, i, q, j) && s < |start| && StartIsolated(root, start, p, i, q, j)
    requires ThirdsStay(start, now, p, i, q, j)
    requires PairAfter(root, start[p][i], start[q][j], p, q, s, now[p][i], now[q][j])
    requires r < |start| && r != s && k < |start[r]| && Third(r, k, p, i, q, j)
    ensures Passed(root, now[r][k], Active(now[s]), r, s) == start[r][k]
  {
    hide Touch, Collided, Deactivated, FirstTouched, Active, Passed;
    var c, received := start[r][k], Active(now[s]);
    if c.IsActive() {
      forall n | 0 <= n < |received| ensures !Touch(c, received[n]) {
        var l := ActiveMember(now[s], n);
        assert LeavesAlone(root, start, p, i, q, j, c) && Untouched(start, r, k, p, i, q, j);
        DeactivatedTouches(start[p][i], c);
        TouchSymmetric(received[n], c);
        if Third(s, l, p, i, q, j) { assert start[s][l].IsActive(); }
      }
      PassMisses(root, c, received, r, s);
    } else {
      InactivePasses(root, c, received, r, s);
    }
  }

  lemma InactivePasses(root: real -> real, b: Body, received: seq<Body>, rank: nat, otherRank: nat)
    requires !b.IsActive()
    ensures Passed(root, b, received, rank, otherRank) == b
  {
  }

  lemma {:induction false} StartRounds(root: real -> real, start: seq<seq<Body>>, p: nat, i: nat, q: nat, j: nat,
                                       r: nat)
    requires Pair(start, p, i, q, j) && Meet(root, start[p][i], start[q][j]) && StartIsolated(root, start, p, i, q, j)
    requires r <= |start|
    ensures var now := AfterRounds(root, start, r);
            ThirdsStay(start, now, p, i, q, j)
            && PairAfter(root, start[p][i], start[q][j], p, q, r, now[p][i], now[q][j])
    decreases r
  {
    hide AfterRounds, PairAfter, Meet, StartIsolated, Third, IsolatedIn, Passed, Active;
    if r == 0 {
      BeforeRounds(root, start);
      PairAtStart(root, start[p][i], start[q][j], p, q);
    } else {
      var s := r - 1;
      var now := AfterRounds(root, start, s);
      StartRounds(root, start, p, i, q, j, s);
      QuietRoundIsolates(root, start, now, p, i, q, j, s);
      PairRound(root, start, p, i, q, j, s);
      forall u, k | 0 <= u < |start| && 0 <= k < |start[u]| && Third(u, k, p, i, q, j)
        ensures AfterRounds(root, start, r)[u][k] == start[u][k]
      {
        OneRound(root, start, s, u, k);
        if u != s { ThirdMisses(root, start, now, p, i, q, j, s, u, k); }
      }
    }
  }

  /** The same conclusion from a condition on the bodies before the first round; all
      other bodies of all processes come out unchanged. */
  lemma LonePairCollision(root: real -> real, start: seq<seq<Body>>, p: nat, i: nat, q: nat, j: nat)
    requires Pair(start, p, i, q, j) && Meet(root, start[p][i], start[q][j]) && StartIsolated(root, start, p, i, q, j)
    ensures var end := AfterRounds(root, start, |start|);
            && OneSurvives(start[p][i], start[q][j], end[p][i], end[q][j])
            && ThirdsStay(start, end, p, i, q, j)
  {
    StartRounds(root, start, p, i, q, j, |start|);
    Meeting(root, start[p][i], start[q][j], p, q);
    hide Touch, CubeRoot, AfterRounds, Collided, StartIsolated, ThirdsStay;
  }

  // ------------------------------------------------------------- what a merger does

  /** Two bodies touch when the distance of their centres, given by its square in
      coordinates, is less than the sum of their radii. */
  lemma TouchIsOverlap(a: Body, b: Body, distance: real)
    requires distance >= 0.0
    requires distance * distance
          == (b.position.x - a.position.x) * (b.position.x - a.position.x)
             + (b.position.y - a.position.y) * (b.position.y - a.position.y)
             + (b.position.z - a.position.z) * (b.position.z - a.position.z)
    ensures Touch(a, b) <==> distance < a.radius + b.radius
  {
    var sum := a.radius + b.radius;
    assert b.position.Minus(a.position).Square() == distance * distance;
    if sum > 0.0 { SquaresCompare(distance, sum); }
  }

  lemma SquaresCompare(x: real, y: real)
    requires x >= 0.0 && y > 0.0
    ensures x < y <==> x * x < y * y
  {
    Factored(x, y, x * x, y * y);
  }

  lemma Factored(x: real, y: real, xx: real, yy: real)
    requires x >= 0.0 && y > 0.0 && xx == x * x && yy == y * y
    ensures x < y <==> xx < yy
  {
    assert yy - xx == (y - x) * (y + x);
    SameSign(y - x, y + x);
  }

  lemma SameSign(a: real, b: real)
    requires b > 0.0
    ensures a * b > 0.0 <==> a > 0.0
  {
    if a <= 0.0 { assert (-a) * b >= 0.0; }
  }

  /** The merged body: the masses and the volumes are added; both velocities count with
      the mass of the absorbed body; it stays where it was. */
  lemma MergerIs(root: real -> real, b: Body, other: Body)
    requires CubeRoot(root) && b.mass > 0.0 && other.mass > 0.0 && b.radius >= 0.0 && other.radius >= 0.0
    ensures var m := Absorbed(root, b, other);
            && m.mass == b.mass + other.mass && m.position == b.position && m.acceleration == b.acceleration
            && m.radius >= 0.0
            && m.radius * m.radius * m.radius
               == b.radius * b.radius * b.radius + other.radius * other.radius * other.radius
            && m.velocity.x * (m.mass + other.mass) == (b.velocity.x + other.velocity.x) * other.mass
            && m.velocity.y * (m.mass + other.mass) == (b.velocity.y + other.velocity.y) * other.mass
            && m.velocity.z * (m.mass + other.mass) == (b.velocity.z + other.velocity.z) * other.mass
  {
    CubePositive(b.radius);
    CubePositive(other.radius);
    MergedRadius(root, b, other);
    MergedVelocity(root, b, other);
    hide Absorbed, Cube;
  }

  lemma MergedRadius(root: real -> real, b: Body, other: Body)
    requires CubeRoot(root) && Cube(b.radius) >= 0.0 && Cube(other.radius) >= 0.0
    ensures var m := Absorbed(root, b, other);
            && m.mass == b.mass + other.mass && m.position == b.position && m.acceleration == b.acceleration
            && m.radius >= 0.0
            && m.radius * m.radius * m.radius
               == b.radius * b.radius * b.radius + other.radius * other.radius * other.radius
  {
    hide RealVector.Plus, RealVector.Times, Reciprocal;
    assert Cube(Absorbed(root, b, other).radius) == Cube(b.radius) + Cube(other.radius);
  }

  lemma MergedVelocity(root: real -> real, b: Body, other: Body)
    requires b.mass > 0.0 && other.mass > 0.0
    ensures var m := Absorbed(root, b, other);
            && m.velocity.x * (m.mass + other.mass) == (b.velocity.x + other.velocity.x) * other.mass
            && m.velocity.y * (m.mass + other.mass) == (b.velocity.y + other.velocity.y) * other.mass
            && m.velocity.z * (m.mass + other.mass) == (b.velocity.z + other.velocity.z) * other.mass
  {
    hide Reciprocal, Cube, RealVector.Plus, RealVector.Times;
    Combined(b.velocity, other.velocity, other.mass, Reciprocal(b.mass + other.mass + other.mass));
    var m, total := Absorbed(root, b, other), b.mass + other.mass + other.mass;
    assert m.mass + other.mass == total;
    Divided(m.velocity.x, b.velocity.x, other.velocity.x, other.mass, total);
    Divided(m.velocity.y, b.velocity.y, other.velocity.y, other.mass, total);
    Divided(m.velocity.z, b.velocity.z, other.velocity.z, other.mass, total);
  }

  lemma CubePositive(r: real)
    requires r >= 0.0
    ensures Cube(r) >= 0.0
  {
    assert r * r >= 0.0;
  }

  lemma Combined(v: RealVector, u: RealVector, o: real, r: real)
    ensures v.Times(o).Plus(u.Times(o)).Times(r)
         == RealVector((v.x * o + u.x * o) * r, (v.y * o + u.y * o) * r, (v.z * o + u.z * o) * r)
  {
  }

  lemma Divided(w: real, v: real, u: real, o: real, total: real)
    requires total > 0.0 && w == (v * o + u * o) * Reciprocal(total)
    ensures w * total == (v + u) * o
  {
    var sum := v * o + u * o;
    assert sum == (v + u) * o;
    Reciprocals(sum, total);
  }

  lemma Reciprocals(sum: real, total: real)
    requires total > 0.0
    ensures (sum * Reciprocal(total)) * total == sum
  {
    assert Reciprocal(total) * total == 1.0;
    assert (sum * Reciprocal(total)) * total == sum * (Reciprocal(total) * total);
  }

  /** One coordinate of two velocities, for masses `m` and `o`. */
  predicate InProportion(v: real, u: real, m: real, o: real) {
    u * (o * o) == v * (o * o - m * o - m * m)
  }

  predicate SameMomentum(w: real, both: real, v: real, m: real, u: real, o: real) { w * both == v * m + u * o }

  /** Which mergers keep the momentum, which the program announces for all: the velocities
      have to be in this proportion. They are when both bodies rest, or have equal masses
      and opposite velocities. */
  ghost predicate Proportionate(b: Body, other: Body) {
    && InProportion(b.velocity.x, other.velocity.x, b.mass, other.mass)
    && InProportion(b.velocity.y, other.velocity.y, b.mass, other.mass)
    && InProportion(b.velocity.z, other.velocity.z, b.mass, other.mass)
  }

  lemma MergedMomentum(root: real -> real, b: Body, other: Body)
    requires CubeRoot(root) && b.mass > 0.0 && other.mass > 0.0 && b.radius >= 0.0 && other.radius >= 0.0
    ensures var m := Absorbed(root, b, other);
            (&& SameMomentum(m.velocity.x, m.mass, b.velocity.x, b.mass, other.velocity.x, other.mass)
             && SameMomentum(m.velocity.y, m.mass, b.velocity.y, b.mass, other.velocity.y, other.mass)
             && SameMomentum(m.velocity.z, m.mass, b.velocity.z, b.mass, other.velocity.z, other.mass))
            <==> Proportionate(b, other)
  {
    MergerIs(root, b, other);
    var m := Absorbed(root, b, other);
    hide Absorbed, CubeRoot, InProportion, SameMomentum;
    MomentumIn(m.velocity.x, b.velocity.x, other.velocity.x, b.mass, other.mass, m.mass);
    MomentumIn(m.velocity.y, b.velocity.y, other.velocity.y, b.mass, other.mass, m.mass);
    MomentumIn(m.velocity.z, b.velocity.z, other.velocity.z, b.mass, other.mass, m.mass);
  }

  /** A merger that loses momentum: a body at rest absorbs a moving one of equal mass. */
  lemma MomentumIsLost(root: real -> real, b: Body, other: Body)
    requires CubeRoot(root) && b.mass == other.mass == 1.0 && b.radius == other.radius == 1.0
    requires b.velocity == ZERO && other.velocity == RealVector(3.0, 0.0, 0.0)
    ensures Absorbed(root, b, other).velocity.x * Absorbed(root, b, other).mass == 2.0
    ensures b.velocity.x * b.mass + other.velocity.x * other.mass == 3.0
  {
    MergerIs(root, b, other);
  }

  /** One coordinate. */
  lemma MomentumIn(w: real, v: real, u: real, m: real, o: real, both: real)
    requires m > 0.0 && o > 0.0 && both == m + o && w * (both + o) == (v + u) * o
    ensures SameMomentum(w, both, v, m, u, o) <==> InProportion(v, u, m, o)
  {
    var total := m + o + o;
    var difference := w * (m + o) - (v * m + u * o);
    assert (w * (m + o)) * total == (w * total) * (m + o);
    assert difference * total == ((v + u) * o) * (m + o) - (v * m + u * o) * total;
    Expanded(v, u, m, o);
    assert difference * total == v * (o * o - m * o - m * m) - u * (o * o);
    if difference * total == 0.0 { assert difference == 0.0; }
  }

  lemma Expanded(v: real, u: real, m: real, o: real)
    ensures ((v + u) * o) * (m + o) - (v * m + u * o) * (m + o + o) == v * (o * o - m * o - m * m) - u * (o * o)
  {
  }

  /** Which of the two happens to a body of `rank` that meets one of `otherRank`: on the
      lower rank a body that is not heavier is given up, on the higher rank only a
      lighter one. What is given up has its mass negated and keeps everything else. */
  lemma CollidedIs(root: real -> real, b: Body, other: Body, rank: nat, otherRank: nat)
    requires rank != otherRank
    ensures var c := Collided(root, b, other, rank, otherRank);
            if b.mass > other.mass || (b.mass == other.mass && rank > otherRank)
            then c == Absorbed(root, b, other)
            else c == Body(-b.mass, b.radius, b.position, b.velocity, b.acceleration)
  {
    hide Absorbed;
  }
}
