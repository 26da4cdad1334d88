/** Tokens, FIFO channels and the threads around them.

    Every thread of the production line has the same life: it consumes from a
    queue until it has met a fixed number of stop conditions, may hold products
    it has still to enqueue, and finally enqueues a fixed number of stop
    conditions itself. `Stage` is that life, and `Chan` is the balance between
    the stops still to be emitted and the stops still awaited on one queue.
 */
module Channels {

  datatype Option<+T> = None | Some(value: T)

  /** What travels through a queue: a product or a stop condition. */
  datatype Token<+T> = Stop | Item(item: T)

  /** A thread: stop conditions it still awaits, products it has yet to enqueue,
      stop conditions it will enqueue before halting. */
  datatype Stage<+T> = Stage(need: nat, hold: seq<T>, emit: nat)
  {
    /** Blocked in, or about to call, `dequeue`. */
    predicate CanTake() { need > 0 && hold == [] }

    /** Has a product to enqueue. */
    predicate CanPut() { hold != [] }

    /** Left its consuming loop and has stop conditions to enqueue. */
    predicate CanEnd() { need == 0 && hold == [] && emit > 0 }

    predicate Halted() { need == 0 && hold == [] && emit == 0 }

    /** A thread that holds a product is still inside its loop, and no stop is
        emitted before the loop is left. */
    ghost predicate Sound() { (hold != [] ==> need > 0) && (emit == 0 ==> need == 0) }
  }

  /** One turn of the consuming loop: a stop is counted, a product becomes the
      products that `consume` will enqueue. */
  function Take<T, U>(st: Stage<U>, token: Token<T>, outs: seq<U>): Stage<U>
    requires st.CanTake()
  {
    if token.Stop? then st.(need := st.need - 1) else st.(hold := outs)
  }

  function Put<T>(st: Stage<T>): Stage<T>
    requires st.CanPut()
  {
    st.(hold := st.hold[1..])
  }

  function End<T>(st: Stage<T>): Stage<T>
    requires st.CanEnd()
  {
    st.(emit := st.emit - 1)
  }

  /** Products, each in a token. */
  function Items<T>(units: seq<T>): seq<Token<T>> {
    if units == [] then [] else [Item(units[0])] + Items(units[1..])
  }

  /** Nothing but stop conditions. */
  function StopsOnly<T>(n: nat): seq<Token<T>> { if n == 0 then [] else StopsOnly(n - 1) + [Stop] }

  /** The items that a thread consumes before it has met `stops` stop conditions. */
  function Served<T>(queue: seq<Token<T>>, stops: nat): seq<T> {
    if stops == 0 || queue == [] then []
    else if queue[0].Stop? then Served(queue[1..], stops - 1)
    else [queue[0].item] + Served(queue[1..], stops)
  }

  /** What it leaves in the queue then. */
  function Behind<T>(queue: seq<Token<T>>, stops: nat): seq<Token<T>> {
    if stops == 0 || queue == [] then queue
    else Behind(queue[1..], if queue[0].Stop? then stops - 1 else stops)
  }

  /** `n` stops and nothing else. */
  lemma {:induction false} OnlyStops<T>(n: nat)
    ensures |StopsOnly<T>(n)| == n && forall k :: 0 <= k < n ==> StopsOnly<T>(n)[k] == Stop
  {
    if n > 0 { OnlyStops<T>(n - 1); }
  }

  lemma {:induction false} ItemsAt<T>(units: seq<T>)
    ensures |Items(units)| == |units| && forall k :: 0 <= k < |units| ==> Items(units)[k] == Item(units[k])
  {
    if units != [] { ItemsAt(units[1..]); }
  }

  /** In front of its last awaited stop a thread meets every item, in order: the one at
      place `k` comes behind as many items as precede it. */
  lemma {:induction false} ServedAt<T>(front: seq<Token<T>>, rest: seq<Token<T>>, k: nat)
    requires k < |front| && front[k].Item?
    ensures var served := Served(front + [Stop] + rest, Stops(front) + 1);
            && |served| == |front| - Stops(front) && Behind(front + [Stop] + rest, Stops(front) + 1) == rest
            && Stops(front[..k]) <= k && k - Stops(front[..k]) < |served|
            && served[k - Stops(front[..k])] == front[k].item
    decreases |front|
  {
    var queue, tail := front + [Stop] + rest, front[1..];
    assert queue[0] == front[0] && queue[1..] == tail + [Stop] + rest;
    ServedCount(tail, rest);
    if k > 0 {
      ServedAt(tail, rest, k - 1);
      assert front[..k][1..] == tail[..k - 1] && front[..k][0] == front[0];
    }
  }

  lemma {:induction false} ServedCount<T>(front: seq<Token<T>>, rest: seq<Token<T>>)
    ensures |Served(front + [Stop] + rest, Stops(front) + 1)| == |front| - Stops(front)
    ensures Behind(front + [Stop] + rest, Stops(front) + 1) == rest
    decreases |front|
  {
    var queue := front + [Stop] + rest;
    if front == [] {
      assert queue[0] == Stop;
      NothingLeft(queue[1..]);
    } else {
      assert queue[0] == front[0] && queue[1..] == front[1..] + [Stop] + rest;
      ServedCount(front[1..], rest);
    }
  }

  lemma NothingLeft<T>(queue: seq<Token<T>>)
    ensures Served(queue, 0) == [] && Behind(queue, 0) == queue
  {
  }

  lemma ServedFirst<T>(queue: seq<Token<T>>, need: nat)
    requires queue != [] && need > 0
    ensures Behind(queue, need) == Behind(queue[1..], if queue[0].Stop? then need - 1 else need)
    ensures queue[0].Stop? ==> Served(queue, need) == Served(queue[1..], need - 1)
    ensures queue[0].Item? ==> Served(queue, need) == [queue[0].item] + Served(queue[1..], need)
  {
  }

  lemma {:induction false} ItemsPush<T>(units: seq<T>, u: T)
    ensures Items(units + [u]) == Items(units) + [Item(u)]
  {
    if units == [] {
      assert units + [u] == [u] && [u][1..] == [];
    } else {
      var rest := units[1..];
      ItemsPush(rest, u);
      assert (units + [u])[0] == units[0] && (units + [u])[1..] == rest + [u];
      assert Items(units + [u]) == [Item(units[0])] + (Items(rest) + [Item(u)]);
    }
  }

  /** `n` freshly started threads that each await one stop and emit one. */
  function Team<T>(n: nat): seq<Stage<T>> {
    if n == 0 then [] else [Stage(1, [], 1)] + Team(n - 1)
  }

  // ---------------------------------------------------------------- counting

  function Stops<T>(q: seq<Token<T>>): nat {
    if q == [] then 0 else (if q[0].Stop? then 1 else 0) + Stops(q[1..])
  }

  /** How many elements of `s` have key `k`. */
  ghost function Tally<T(!new), K(!new)>(s: seq<T>, key: T -> K, k: K): nat {
    if s == [] then 0 else (if key(s[0]) == k then 1 else 0) + Tally(s[1..], key, k)
  }

  /** How many products of the queue `q` have key `k`. */
  ghost function Queued<T(!new), K(!new)>(q: seq<Token<T>>, key: T -> K, k: K): nat {
    if q == [] then 0
    else (if q[0].Item? && key(q[0].item) == k then 1 else 0) + Queued(q[1..], key, k)
  }

  /** How many products held by a team of threads have key `k`. */
  ghost function Held<T(!new), K(!new)>(g: seq<Stage<T>>, key: T -> K, k: K): nat {
    if g == [] then 0 else Tally(g[0].hold, key, k) + Held(g[1..], key, k)
  }

  ghost function NeedSum<T>(g: seq<Stage<T>>): nat {
    if g == [] then 0 else g[0].need + NeedSum(g[1..])
  }

  ghost function EmitSum<T>(g: seq<Stage<T>>): nat {
    if g == [] then 0 else g[0].emit + EmitSum(g[1..])
  }

  ghost function HoldSum<T>(g: seq<Stage<T>>): nat {
    if g == [] then 0 else |g[0].hold| + HoldSum(g[1..])
  }

  ghost predicate AllSound<T>(g: seq<Stage<T>>) {
    forall i :: 0 <= i < |g| ==> g[i].Sound()
  }

  lemma {:induction false} StopsPush<T>(q: seq<Token<T>>, t: Token<T>)
    ensures Stops(q + [t]) == Stops(q) + if t.Stop? then 1 else 0
  {
    if q == [] {
    } else {
      assert (q + [t])[1..] == q[1..] + [t];
      StopsPush(q[1..], t);
    }
  }

  lemma {:induction false} QueuedPush<T(!new), K(!new)>(q: seq<Token<T>>, t: Token<T>, key: T -> K, k: K)
    ensures Queued(q + [t], key, k) == Queued(q, key, k) + if t.Item? && key(t.item) == k then 1 else 0
  {
    if q == [] {
    } else {
      assert (q + [t])[1..] == q[1..] + [t];
      QueuedPush(q[1..], t, key, k);
    }
  }

  lemma QueuedPop<T(!new), K(!new)>(q: seq<Token<T>>, key: T -> K, k: K)
    requires q != []
    ensures Queued(q, key, k) == Queued(q[1..], key, k) + if q[0].Item? && key(q[0].item) == k then 1 else 0
  {
  }

  lemma TallyPop<T(!new), K(!new)>(s: seq<T>, key: T -> K, k: K)
    requires s != []
    ensures Tally(s, key, k) == Tally(s[1..], key, k) + if key(s[0]) == k then 1 else 0
  {
  }

  lemma TallySmall<T(!new), K(!new)>(x: T, key: T -> K, k: K)
    ensures Tally([], key, k) == 0
    ensures Tally([x], key, k) == if key(x) == k then 1 else 0
  {
    assert [x][1..] == [];
  }

  lemma {:induction false} TallyConcat<T(!new), K(!new)>(a: seq<T>, b: seq<T>, key: T -> K, k: K)
    ensures Tally(a + b, key, k) == Tally(a, key, k) + Tally(b, key, k)
  {
    if a == [] {
      assert a + b == b;
    } else {
      assert (a + b)[1..] == a[1..] + b;
      TallyConcat(a[1..], b, key, k);
    }
  }

  lemma {:induction false} TallyPositive<T(!new), K(!new)>(s: seq<T>, i: nat, key: T -> K)
    requires i < |s|
    ensures Tally(s, key, key(s[i])) > 0
  {
    if i > 0 { TallyPositive(s[1..], i - 1, key); }
  }

  lemma {:induction false} QueuedPositive<T(!new), K(!new)>(q: seq<Token<T>>, i: nat, key: T -> K)
    requires i < |q| && q[i].Item?
    ensures Queued(q, key, key(q[i].item)) > 0
  {
    if i > 0 { QueuedPositive(q[1..], i - 1, key); }
  }

  /** Replacing thread `i` of a team changes every sum by that thread's share. */
  lemma {:induction false} TeamUpdate<T>(g: seq<Stage<T>>, i: nat, st: Stage<T>)
    requires i < |g|
    ensures NeedSum(g[i := st]) == NeedSum(g) - g[i].need + st.need
    ensures EmitSum(g[i := st]) == EmitSum(g) - g[i].emit + st.emit
  {
    if i == 0 {
      assert g[i := st][1..] == g[1..];
    } else {
      assert g[i := st][1..] == g[1..][i - 1 := st];
      TeamUpdate(g[1..], i - 1, st);
    }
  }

  lemma {:induction false} HoldUpdate<T>(g: seq<Stage<T>>, i: nat, st: Stage<T>)
    requires i < |g|
    ensures HoldSum(g[i := st]) == HoldSum(g) - |g[i].hold| + |st.hold|
  {
    if i == 0 {
      assert g[i := st][1..] == g[1..];
    } else {
      assert g[i := st][1..] == g[1..][i - 1 := st];
      HoldUpdate(g[1..], i - 1, st);
    }
  }

  lemma {:induction false} HeldUpdate<T(!new), K(!new)>(g: seq<Stage<T>>, i: nat, st: Stage<T>, key: T -> K, k: K)
    requires i < |g|
    ensures Held(g[i := st], key, k) == Held(g, key, k) - Tally(g[i].hold, key, k) + Tally(st.hold, key, k)
  {
    if i == 0 {
      assert g[i := st][1..] == g[1..];
    } else {
      assert g[i := st][1..] == g[1..][i - 1 := st];
      HeldUpdate(g[1..], i - 1, st, key, k);
    }
  }

  lemma {:induction false} HeldPositive<T(!new), K(!new)>(g: seq<Stage<T>>, i: nat, key: T -> K)
    requires i < |g| && g[i].hold != []
    ensures Held(g, key, key(g[i].hold[0])) > 0
  {
    if i > 0 { HeldPositive(g[1..], i - 1, key); }
  }

  /** A team none of whose members awaits a stop holds nothing. */
  lemma {:induction false} TeamQuiet<T(!new), K(!new)>(g: seq<Stage<T>>, key: T -> K, k: K)
    requires AllSound(g) && NeedSum(g) == 0
    ensures Held(g, key, k) == 0
    ensures forall i :: 0 <= i < |g| ==> g[i].need == 0 && g[i].hold == []
  {
    if g != [] {
      assert g[0].Sound();
      forall i | 0 <= i < |g[1..]| ensures g[1..][i].Sound() { assert g[1..][i] == g[i + 1]; }
      TeamQuiet(g[1..], key, k);
      forall i | 0 < i < |g| ensures g[i].need == 0 && g[i].hold == [] { assert g[i] == g[1..][i - 1]; }
    }
  }

  /** A team with no stop left to emit awaits none. */
  lemma {:induction false} TeamSpent<T>(g: seq<Stage<T>>)
    requires AllSound(g) && EmitSum(g) == 0
    ensures NeedSum(g) == 0
    ensures forall i :: 0 <= i < |g| ==> g[i].Halted()
  {
    if g != [] {
      assert g[0].Sound();
      forall i | 0 <= i < |g[1..]| ensures g[1..][i].Sound() { assert g[1..][i] == g[i + 1]; }
      TeamSpent(g[1..]);
      forall i | 0 < i < |g| ensures g[i].Halted() { assert g[i] == g[1..][i - 1]; }
    }
  }

  lemma {:induction false} FreshTeam<T(!new), K(!new)>(n: nat, key: T -> K, k: K)
    ensures |Team<T>(n)| == NeedSum(Team<T>(n)) == EmitSum(Team<T>(n)) == n
    ensures Held(Team<T>(n), key, k) == 0 && HoldSum(Team<T>(n)) == 0
    ensures forall i :: 0 <= i < n ==> Team<T>(n)[i] == Stage(1, [], 1)
  {
    if n > 0 {
      FreshTeam<T, K>(n - 1, key, k);
      assert Team<T>(n)[1..] == Team(n - 1);
    }
  }

  /** Some member still has a stop to emit. */
  lemma {:induction false} TeamPending<T>(g: seq<Stage<T>>) returns (i: nat)
    requires EmitSum(g) > 0
    ensures i < |g| && g[i].emit > 0
  {
    if g[0].emit > 0 {
      i := 0;
    } else {
      i := TeamPending(g[1..]);
      i := i + 1;
    }
  }

  lemma {:induction false} TeamNeedAt<T>(g: seq<Stage<T>>, i: nat)
    requires i < |g|
    ensures NeedSum(g) >= g[i].need && EmitSum(g) >= g[i].emit
  {
    if i > 0 { TeamNeedAt(g[1..], i - 1); }
  }

  // ------------------------------------------------------- counted stop stops

  /** The queue is empty or ends in a stop. */
  predicate Sealed<T>(q: seq<Token<T>>) { q == [] || q[|q| - 1].Stop? }

  /** The balance of one queue: stops inside it plus stops its producers have
      yet to emit are the stops its consumers await; and once the producers
      have emitted all of theirs nothing lies behind the last stop. */
  ghost predicate Chan<T>(q: seq<Token<T>>, emitLeft: nat, needLeft: nat) {
    && Stops(q) + emitLeft == needLeft
    && (emitLeft == 0 ==> Sealed(q))
  }

  lemma ChanTake<T>(q: seq<Token<T>>, e: nat, n: nat)
    requires Chan(q, e, n) && q != []
    ensures if q[0].Stop? then n > 0 && Chan(q[1..], e, n - 1) else Chan(q[1..], e, n)
  {
    assert |q| > 1 ==> q[1..][|q| - 2] == q[|q| - 1];
  }

  lemma ChanPut<T>(q: seq<Token<T>>, x: T, e: nat, n: nat)
    requires Chan(q, e, n) && e > 0
    ensures Chan(q + [Item(x)], e, n)
  {
    StopsPush(q, Item(x));
  }

  lemma ChanEnd<T>(q: seq<Token<T>>, e: nat, n: nat)
    requires Chan(q, e, n) && e > 0
    ensures Chan(q + [Stop], e - 1, n)
  {
    StopsPush(q, Token<T>.Stop);
  }

  /** Why counting stops is enough: when every consumer of a balanced queue has
      met its stops, the queue is empty and its producers have emitted theirs. */
  lemma ChanDrained<T>(q: seq<Token<T>>, e: nat)
    requires Chan(q, e, 0)
    ensures q == [] && e == 0
  {
    if q != [] { LastStop(q); }
  }

  lemma {:induction false} LastStop<T>(q: seq<Token<T>>)
    requires q != [] && Sealed(q)
    ensures Stops(q) > 0
  {
    if |q| > 1 { LastStop(q[1..]); }
  }

  // --------------------------------------------------- moves of a single thread

  lemma StageTakes<T, U>(q: seq<Token<T>>, e: nat, st: Stage<U>, outs: seq<U>)
    requires Chan(q, e, st.need) && st.Sound() && st.CanTake() && q != []
    ensures var st' := Take(st, q[0], outs);
            st'.Sound() && st'.emit == st.emit && Chan(q[1..], e, st'.need)
  {
    ChanTake(q, e, st.need);
  }

  lemma StagePuts<T, U>(st: Stage<T>, q: seq<Token<U>>, x: U, n: nat)
    requires st.Sound() && st.CanPut() && Chan(q, st.emit, n)
    ensures var st' := Put(st);
            st'.Sound() && st'.need == st.need && st'.emit == st.emit && Chan(q + [Item(x)], st'.emit, n)
  {
    ChanPut(q, x, st.emit, n);
  }

  lemma StageEnds<T, U>(st: Stage<T>, q: seq<Token<U>>, n: nat)
    requires st.Sound() && st.CanEnd() && Chan(q, st.emit, n)
    ensures var st' := End(st);
            st'.Sound() && st'.need == st.need && st'.emit == st.emit - 1 && Chan(q + [Stop], st'.emit, n)
  {
    ChanEnd(q, st.emit, n);
  }

  // -------------------------------------------- moves of one thread of a team

  lemma TeamSound<T>(g: seq<Stage<T>>, i: nat, st: Stage<T>)
    requires AllSound(g) && i < |g| && st.Sound()
    ensures AllSound(g[i := st]) && g[i].Sound()
  {
  }

  lemma TeamTakes<T, U>(q: seq<Token<T>>, e: nat, g: seq<Stage<U>>, i: nat, outs: seq<U>)
    requires Chan(q, e, NeedSum(g)) && AllSound(g) && i < |g| && g[i].CanTake() && q != []
    ensures var g' := g[i := Take(g[i], q[0], outs)];
            AllSound(g') && EmitSum(g') == EmitSum(g) && Chan(q[1..], e, NeedSum(g'))
  {
    hide NeedSum, EmitSum, Stops, Sealed;
    var st' := Take(g[i], q[0], outs);
    assert g[i].Sound() && st'.Sound();
    TeamSound(g, i, st');
    hide AllSound;
    TeamUpdate(g, i, st');
    ChanTake(q, e, NeedSum(g));
  }

  lemma TeamPuts<T, U>(g: seq<Stage<T>>, i: nat, q: seq<Token<U>>, x: U, e: nat, n: nat)
    requires AllSound(g) && i < |g| && g[i].CanPut() && Chan(q, EmitSum(g) + e, n)
    ensures var g' := g[i := Put(g[i])];
            && AllSound(g') && NeedSum(g') == NeedSum(g) && EmitSum(g') == EmitSum(g)
            && Chan(q, EmitSum(g') + e, n) && Chan(q + [Item(x)], EmitSum(g') + e, n)
  {
    hide NeedSum, EmitSum, Stops, Sealed;
    var st' := Put(g[i]);
    assert g[i].Sound() && st'.Sound();
    TeamSound(g, i, st');
    hide AllSound;
    TeamNeedAt(g, i);
    TeamUpdate(g, i, st');
    ChanPut(q, x, EmitSum(g) + e, n);
  }

  lemma TeamStops<T, U>(g: seq<Stage<T>>, i: nat, q: seq<Token<U>>, e: nat, n: nat)
    requires AllSound(g) && i < |g| && g[i].CanEnd() && Chan(q, EmitSum(g) + e, n)
    ensures var g' := g[i := End(g[i])];
            && AllSound(g') && NeedSum(g') == NeedSum(g) && EmitSum(g') == EmitSum(g) - 1
            && Chan(q + [Stop], EmitSum(g') + e, n)
  {
    hide NeedSum, EmitSum, Stops, Sealed;
    var st' := End(g[i]);
    assert g[i].Sound() && st'.Sound();
    TeamSound(g, i, st');
    hide AllSound;
    TeamNeedAt(g, i);
    TeamUpdate(g, i, st');
    ChanEnd(q, EmitSum(g) + e, n);
  }
}
