/** The bounded blocking queue under the production line, at the granularity of
    its semaphore and mutex operations and for any number of threads. */
module BlockingQueue {
  import Sequences

  /** Where a thread is inside `enqueue` or `dequeue`. */
  datatype Place<+T> =
    | Outside
    | EnqueueWait(value: T) | EnqueueLock(value: T) | EnqueuePush(value: T) | EnqueueUnlock | EnqueueSignal
    | DequeueWait | DequeueLock | DequeuePop | DequeueUnlock(result: T) | DequeueSignal(result: T)

  datatype Mutex = Free | Owned(thread: nat)

  datatype State<T> = State(
    canConsume: nat,          // semaphore counts
    canProduce: nat,
    mutex: Mutex,
    queue: seq<T>,
    threads: seq<Place<T>>,
    pushed: seq<T>,           // history, in mutex order
    popped: seq<T>)

  function Init<T>(capacity: nat, threads: nat): State<T> {
    State(0, capacity, Free, [], Outsiders(threads), [], [])
  }

  function Outsiders<T>(n: nat): seq<Place<T>> {
    if n == 0 then [] else [Outside] + Outsiders(n - 1)
  }

  /** A thread calls one of the two operations, or takes its next step in it. */
  datatype Step<+T> = CallEnqueue(t: nat, value: T) | CallDequeue(t: nat) | Advance(t: nat)

  predicate Enabled<T>(s: State<T>, step: Step<T>) {
    step.t < |s.threads| &&
    if step.Advance? then
      match s.threads[step.t]
      case Outside => false
      case EnqueueWait(_) => s.canProduce > 0
      case DequeueWait => s.canConsume > 0
      case EnqueueLock(_) => s.mutex.Free?
      case DequeueLock => s.mutex.Free?
      case DequeuePop => s.queue != []      // `front` needs an element
      case _ => true
    else s.threads[step.t].Outside?
  }

  function Apply<T>(s: State<T>, step: Step<T>): State<T>
    requires Enabled(s, step)
  {
    match step
    case CallEnqueue(t, v) => s.(threads := s.threads[t := EnqueueWait(v)])
    case CallDequeue(t) => s.(threads := s.threads[t := DequeueWait])
    case Advance(t) =>
      match s.threads[t]
      case EnqueueWait(v) => s.(canProduce := s.canProduce - 1, threads := s.threads[t := EnqueueLock(v)])
      case EnqueueLock(v) => s.(mutex := Owned(t), threads := s.threads[t := EnqueuePush(v)])
      case EnqueuePush(v) =>
        s.(queue := s.queue + [v], pushed := s.pushed + [v], threads := s.threads[t := EnqueueUnlock])
      case EnqueueUnlock => s.(mutex := Free, threads := s.threads[t := EnqueueSignal])
      case EnqueueSignal => s.(canConsume := s.canConsume + 1, threads := s.threads[t := Outside])
      case DequeueWait => s.(canConsume := s.canConsume - 1, threads := s.threads[t := DequeueLock])
      case DequeueLock => s.(mutex := Owned(t), threads := s.threads[t := DequeuePop])
      case DequeuePop =>
        s.(queue := s.queue[1..], popped := s.popped + [s.queue[0]],
           threads := s.threads[t := DequeueUnlock(s.queue[0])])
      case DequeueUnlock(r) => s.(mutex := Free, threads := s.threads[t := DequeueSignal(r)])
      case DequeueSignal(r) => s.(canProduce := s.canProduce + 1, threads := s.threads[t := Outside])
  }

  // ------------------------------------------------------------- accounting

  /** Has reserved a place it has not yet filled. */
  predicate Reserving<T>(p: Place<T>) { p.EnqueueLock? || p.EnqueuePush? }
  /** Has filled a place it has not yet announced. */
  predicate Announcing<T>(p: Place<T>) { p.EnqueueUnlock? || p.EnqueueSignal? }
  /** Has claimed an element it has not yet removed. */
  predicate Claiming<T>(p: Place<T>) { p.DequeueLock? || p.DequeuePop? }
  /** Has removed an element and not yet returned its place. */
  predicate Returning<T>(p: Place<T>) { p.DequeueUnlock? || p.DequeueSignal? }

  predicate InCritical<T>(p: Place<T>) {
    p.EnqueuePush? || p.EnqueueUnlock? || p.DequeuePop? || p.DequeueUnlock?
  }

  datatype Role = ReservingRole | AnnouncingRole | ClaimingRole | ReturningRole

  predicate Plays<T>(p: Place<T>, r: Role) {
    match r
    case ReservingRole => Reserving(p)
    case AnnouncingRole => Announcing(p)
    case ClaimingRole => Claiming(p)
    case ReturningRole => Returning(p)
  }

  ghost function Count<T>(threads: seq<Place<T>>, r: Role): nat {
    if threads == [] then 0 else (if Plays(threads[0], r) then 1 else 0) + Count(threads[1..], r)
  }

  lemma {:induction false} CountUpdate<T>(threads: seq<Place<T>>, t: nat, p: Place<T>, r: Role)
    requires t < |threads|
    ensures Count(threads[t := p], r)
         == Count(threads, r) - (if Plays(threads[t], r) then 1 else 0) + (if Plays(p, r) then 1 else 0)
  {
    if t == 0 {
      assert threads[t := p][1..] == threads[1..];
    } else {
      assert threads[t := p][1..] == threads[1..][t - 1 := p];
      CountUpdate(threads[1..], t - 1, p, r);
    }
  }

  lemma {:induction false} CountPositive<T>(threads: seq<Place<T>>, t: nat, r: Role)
    requires t < |threads| && Plays(threads[t], r)
    ensures Count(threads, r) > 0
  {
    if t > 0 { CountPositive(threads[1..], t - 1, r); }
  }

  lemma {:induction false} CountWitness<T>(threads: seq<Place<T>>, r: Role) returns (t: nat)
    requires Count(threads, r) > 0
    ensures t < |threads| && Plays(threads[t], r)
  {
    if Plays(threads[0], r) {
      t := 0;
    } else {
      t := CountWitness(threads[1..], r);
      t := t + 1;
    }
  }

  /** Exact accounting: free places are counted by `canProduce`, reserved by
      producers on their way, or being returned; elements are counted by
      `canConsume`, claimed by consumers on their way, or being announced. */
  ghost predicate Counted<T>(capacity: nat, s: State<T>) {
    && |s.queue| + s.canProduce + Count(s.threads, ReservingRole) + Count(s.threads, ReturningRole) == capacity
    && s.canConsume + Count(s.threads, ClaimingRole) + Count(s.threads, AnnouncingRole) == |s.queue|
  }

  /** The owner of the mutex is the one thread in the critical section. */
  ghost predicate Guarded<T>(s: State<T>) {
    && (forall t :: 0 <= t < |s.threads| ==> (InCritical(s.threads[t]) <==> s.mutex == Owned(t)))
    && (s.mutex.Owned? ==> s.mutex.thread < |s.threads|)
  }

  ghost predicate Inv<T>(capacity: nat, s: State<T>) {
    Counted(capacity, s) && Guarded(s) && s.pushed == s.popped + s.queue
  }

  lemma {:induction false} NobodyCounts<T>(n: nat, r: Role)
    ensures Count(Outsiders<T>(n), r) == 0 && |Outsiders<T>(n)| == n
    ensures forall t :: 0 <= t < n ==> Outsiders<T>(n)[t] == Outside
  {
    if n > 0 {
      NobodyCounts<T>(n - 1, r);
      assert Outsiders<T>(n)[1..] == Outsiders(n - 1);
    }
  }

  lemma InitInv<T>(capacity: nat, threads: nat)
    ensures Inv(capacity, Init<T>(capacity, threads))
  {
    NobodyCounts<T>(threads, ReservingRole);
    NobodyCounts<T>(threads, AnnouncingRole);
    NobodyCounts<T>(threads, ClaimingRole);
    NobodyCounts<T>(threads, ReturningRole);
  }

  lemma StepCounted<T>(capacity: nat, s: State<T>, step: Step<T>)
    requires Counted(capacity, s) && Enabled(s, step)
    ensures Counted(capacity, Apply(s, step))
  {
    hide Count;
    var p := Apply(s, step).threads[step.t];
    assert Apply(s, step).threads == s.threads[step.t := p];
    CountUpdate(s.threads, step.t, p, ReservingRole);
    CountUpdate(s.threads, step.t, p, AnnouncingRole);
    CountUpdate(s.threads, step.t, p, ClaimingRole);
    CountUpdate(s.threads, step.t, p, ReturningRole);
  }

  lemma StepGuarded<T>(s: State<T>, step: Step<T>)
    requires Guarded(s) && Enabled(s, step)
    ensures Guarded(Apply(s, step))
  {
  }

  lemma StepHistory<T>(s: State<T>, step: Step<T>)
    requires s.pushed == s.popped + s.queue && Enabled(s, step)
    ensures Apply(s, step).pushed == Apply(s, step).popped + Apply(s, step).queue
  {
    if step.Advance? && s.threads[step.t].DequeuePop? { assert s.queue == [s.queue[0]] + s.queue[1..]; }
  }

  lemma StepInv<T>(capacity: nat, s: State<T>, step: Step<T>)
    requires Inv(capacity, s) && Enabled(s, step)
    ensures Inv(capacity, Apply(s, step))
  {
    hide Enabled, Apply, Counted, Guarded;
    StepCounted(capacity, s, step);
    StepGuarded(s, step);
    StepHistory(s, step);
  }

  ghost predicate Run<T>(s: State<T>, steps: seq<Step<T>>, last: State<T>)
    decreases |steps|
  {
    if steps == [] then s == last
    else Enabled(s, steps[0]) && Run(Apply(s, steps[0]), steps[1..], last)
  }

  lemma {:induction false} RunInv<T>(capacity: nat, s: State<T>, steps: seq<Step<T>>, last: State<T>)
    requires Inv(capacity, s) && Run(s, steps, last)
    ensures Inv(capacity, last)
    decreases |steps|
  {
    if steps != [] {
      StepInv(capacity, s, steps[0]);
      RunInv(capacity, Apply(s, steps[0]), steps[1..], last);
    }
  }

  /** In every interleaving: a thread about to call `front` finds an element, a
      thread about to `push` finds a free place, the capacity is never exceeded,
      and values leave in the order in which they entered. */
  lemma QueueIsSafe<T>(capacity: nat, threads: nat, steps: seq<Step<T>>, s: State<T>)
    requires Run(Init(capacity, threads), steps, s)
    ensures |s.queue| <= capacity
    ensures s.pushed == s.popped + s.queue
    ensures forall t :: 0 <= t < |s.threads| && s.threads[t].DequeuePop? ==> s.queue != []
    ensures forall t :: 0 <= t < |s.threads| && s.threads[t].EnqueuePush? ==> |s.queue| < capacity
    ensures forall t, t' :: 0 <= t < t' < |s.threads| && InCritical(s.threads[t]) ==> !InCritical(s.threads[t'])
  {
    InitInv<T>(capacity, threads);
    RunInv(capacity, Init(capacity, threads), steps, s);
    forall t | 0 <= t < |s.threads| && s.threads[t].DequeuePop? ensures s.queue != [] {
      CountPositive(s.threads, t, ClaimingRole);
    }
    forall t | 0 <= t < |s.threads| && s.threads[t].EnqueuePush? ensures |s.queue| < capacity {
      CountPositive(s.threads, t, ReservingRole);
    }
  }

  // ------------------------------------------------- the values of the operations

  /** What a step can do with a value: `enqueue` is called with it, it is pushed, it is
      popped, or `dequeue` returns it. */
  datatype Event = Calls | Pushes | Pops | Returns

  /** The value of such a step of thread `t`. */
  function Seen<T>(s: State<T>, step: Step<T>, e: Event, t: nat): seq<T>
    requires Enabled(s, step)
  {
    if step.t != t then []
    else if step.CallEnqueue? then (if e == Calls then [step.value] else [])
    else if step.CallDequeue? then []
    else
      match s.threads[t]
      case EnqueuePush(v) => if e == Pushes then [v] else []
      case DequeuePop => if e == Pops then [s.queue[0]] else []
      case DequeueSignal(r) => if e == Returns then [r] else []
      case _ => []
  }

  /** The values of these steps of thread `t` in a run, in order. */
  ghost function Log<T>(s: State<T>, steps: seq<Step<T>>, e: Event, t: nat): seq<T>
    decreases |steps|
  {
    if steps == [] || !Enabled(s, steps[0]) then []
    else Seen(s, steps[0], e, t) + Log(Apply(s, steps[0]), steps[1..], e, t)
  }

  /** The same for whichever thread takes the step. */
  ghost function LogOfAll<T>(s: State<T>, steps: seq<Step<T>>, e: Event): seq<T>
    decreases |steps|
  {
    if steps == [] || !Enabled(s, steps[0]) then []
    else Seen(s, steps[0], e, steps[0].t) + LogOfAll(Apply(s, steps[0]), steps[1..], e)
  }

  /** The value that a producer has still to push. */
  function ToPush<T>(p: Place<T>): seq<T> {
    match p
    case EnqueueWait(v) => [v]
    case EnqueueLock(v) => [v]
    case EnqueuePush(v) => [v]
    case _ => []
  }

  /** The value that a consumer has popped and still to return. */
  function ToReturn<T>(p: Place<T>): seq<T> {
    match p
    case DequeueUnlock(r) => [r]
    case DequeueSignal(r) => [r]
    case _ => []
  }

  /** Every operation carries one value from its start to its end: what it was called
      with is what it pushes, what it pops is what it returns. */
  lemma StepCarries<T>(s: State<T>, step: Step<T>, t: nat)
    requires Enabled(s, step) && t < |s.threads|
    ensures |Apply(s, step).threads| == |s.threads|
    ensures ToPush(s.threads[t]) + Seen(s, step, Calls, t)
         == Seen(s, step, Pushes, t) + ToPush(Apply(s, step).threads[t])
    ensures ToReturn(s.threads[t]) + Seen(s, step, Pops, t)
         == Seen(s, step, Returns, t) + ToReturn(Apply(s, step).threads[t])
    ensures t != step.t ==> Apply(s, step).threads[t] == s.threads[t]
  {
  }

  lemma StepLogged<T>(s: State<T>, step: Step<T>)
    requires Enabled(s, step)
    ensures Apply(s, step).pushed == s.pushed + Seen(s, step, Pushes, step.t)
    ensures Apply(s, step).popped == s.popped + Seen(s, step, Pops, step.t)
  {
  }

  /** Over a run, thread by thread and in order. */
  lemma {:induction false} RunCarries<T>(s: State<T>, steps: seq<Step<T>>, last: State<T>, t: nat)
    requires Run(s, steps, last) && t < |s.threads|
    ensures |last.threads| == |s.threads|
    ensures ToPush(s.threads[t]) + Log(s, steps, Calls, t) == Log(s, steps, Pushes, t) + ToPush(last.threads[t])
    ensures ToReturn(s.threads[t]) + Log(s, steps, Pops, t) == Log(s, steps, Returns, t) + ToReturn(last.threads[t])
    decreases |steps|
  {
    hide Enabled, Apply, Seen, ToPush, ToReturn;
    if steps == [] {
      Sequences.Nothing(ToPush(s.threads[t]));
      Sequences.Nothing(ToReturn(s.threads[t]));
    } else {
      var next := Apply(s, steps[0]);
      StepCarries(s, steps[0], t);
      RunCarries(next, steps[1..], last, t);
      Chain(ToPush(s.threads[t]), Seen(s, steps[0], Calls, t), Log(next, steps[1..], Calls, t),
            Seen(s, steps[0], Pushes, t), ToPush(next.threads[t]), Log(next, steps[1..], Pushes, t),
            ToPush(last.threads[t]));
      Chain(ToReturn(s.threads[t]), Seen(s, steps[0], Pops, t), Log(next, steps[1..], Pops, t),
            Seen(s, steps[0], Returns, t), ToReturn(next.threads[t]), Log(next, steps[1..], Returns, t),
            ToReturn(last.threads[t]));
    }
  }

  lemma Chain<T>(held: seq<T>, came: seq<T>, comes: seq<T>, went: seq<T>, mid: seq<T>, goes: seq<T>, left: seq<T>)
    requires held + came == went + mid && mid + comes == goes + left
    ensures held + (came + comes) == (went + goes) + left
  {
    Sequences.Assoc(held, came, comes);
    Sequences.Assoc(went, mid, comes);
    Sequences.Assoc(went, goes, left);
  }

  /** What the threads hold. */
  ghost function Held<T>(threads: seq<Place<T>>, value: Place<T> -> seq<T>): multiset<T> {
    if threads == [] then multiset{} else multiset(value(threads[0])) + Held(threads[1..], value)
  }

  lemma {:induction false} HeldUpdate<T>(threads: seq<Place<T>>, t: nat, p: Place<T>, value: Place<T> -> seq<T>)
    requires t < |threads|
    ensures Held(threads[t := p], value) + multiset(value(threads[t])) == Held(threads, value) + multiset(value(p))
  {
    if t == 0 {
      assert threads[t := p][1..] == threads[1..];
    } else {
      assert threads[t := p][1..] == threads[1..][t - 1 := p];
      HeldUpdate(threads[1..], t - 1, p, value);
      Sequences.Swap(multiset(value(threads[0])), Held(threads[1..][t - 1 := p], value), multiset(value(threads[t])),
           Held(threads[1..], value), multiset(value(p)));
    }
  }

  lemma StepHeld<T>(s: State<T>, step: Step<T>)
    requires Enabled(s, step)
    ensures Held(s.threads, ToPush) + multiset(Seen(s, step, Calls, step.t))
         == multiset(Seen(s, step, Pushes, step.t)) + Held(Apply(s, step).threads, ToPush)
    ensures Held(s.threads, ToReturn) + multiset(Seen(s, step, Pops, step.t))
         == multiset(Seen(s, step, Returns, step.t)) + Held(Apply(s, step).threads, ToReturn)
  {
    var t, next := step.t, Apply(s, step);
    StepCarries(s, step, t);
    assert next.threads == s.threads[t := next.threads[t]];
    hide Seen, Held, ToPush, ToReturn;
    HeldUpdate(s.threads, t, next.threads[t], ToPush);
    HeldUpdate(s.threads, t, next.threads[t], ToReturn);
    Balanced(ToPush(s.threads[t]), Seen(s, step, Calls, t), Seen(s, step, Pushes, t), ToPush(next.threads[t]),
             Held(s.threads, ToPush), Held(next.threads, ToPush));
    Balanced(ToReturn(s.threads[t]), Seen(s, step, Pops, t), Seen(s, step, Returns, t), ToReturn(next.threads[t]),
             Held(s.threads, ToReturn), Held(next.threads, ToReturn));
  }

  lemma Balanced<T>(before: seq<T>, came: seq<T>, went: seq<T>, after: seq<T>, all: multiset<T>, all': multiset<T>)
    requires before + came == went + after
    requires all' + multiset(before) == all + multiset(after)
    ensures all + multiset(came) == multiset(went) + all'
  {
    assert multiset(before + came) == multiset(before) + multiset(came);
    assert multiset(went + after) == multiset(went) + multiset(after);
    Sequences.Cancel(multiset(before), multiset(came), multiset(went), multiset(after), all, all');
  }

  lemma Link<T>(held: multiset<T>, came: seq<T>, comes: seq<T>, went: seq<T>, goes: seq<T>, mid: multiset<T>,
                left: multiset<T>)
    requires held + multiset(came) == multiset(went) + mid && mid + multiset(comes) == multiset(goes) + left
    ensures held + multiset(came + comes) == multiset(went + goes) + left
  {
    assert multiset(came + comes) == multiset(came) + multiset(comes);
    assert multiset(went + goes) == multiset(went) + multiset(goes);
    assert held + (multiset(came) + multiset(comes)) == (held + multiset(came)) + multiset(comes);
    assert (multiset(went) + mid) + multiset(comes) == multiset(went) + (mid + multiset(comes));
  }

  lemma {:induction false} RunHeld<T>(s: State<T>, steps: seq<Step<T>>, last: State<T>)
    requires Run(s, steps, last)
    ensures last.pushed == s.pushed + LogOfAll(s, steps, Pushes)
    ensures last.popped == s.popped + LogOfAll(s, steps, Pops)
    ensures Held(s.threads, ToPush) + multiset(LogOfAll(s, steps, Calls))
         == multiset(LogOfAll(s, steps, Pushes)) + Held(last.threads, ToPush)
    ensures Held(s.threads, ToReturn) + multiset(LogOfAll(s, steps, Pops))
         == multiset(LogOfAll(s, steps, Returns)) + Held(last.threads, ToReturn)
    decreases |steps|
  {
    hide Enabled, Apply, Seen, Held;
    if steps == [] {
      Sequences.Nothing(s.pushed);
      Sequences.Nothing(s.popped);
    } else {
      var step, next := steps[0], Apply(s, steps[0]);
      StepLogged(s, step);
      StepHeld(s, step);
      RunHeld(next, steps[1..], last);
      Sequences.Assoc(s.pushed, Seen(s, step, Pushes, step.t), LogOfAll(next, steps[1..], Pushes));
      Sequences.Assoc(s.popped, Seen(s, step, Pops, step.t), LogOfAll(next, steps[1..], Pops));
      Link(Held(s.threads, ToPush), Seen(s, step, Calls, step.t), LogOfAll(next, steps[1..], Calls),
           Seen(s, step, Pushes, step.t), LogOfAll(next, steps[1..], Pushes), Held(next.threads, ToPush),
           Held(last.threads, ToPush));
      Link(Held(s.threads, ToReturn), Seen(s, step, Pops, step.t), LogOfAll(next, steps[1..], Pops),
           Seen(s, step, Returns, step.t), LogOfAll(next, steps[1..], Returns), Held(next.threads, ToReturn),
           Held(last.threads, ToReturn));
    }
  }

  lemma {:induction false} OutsidersHoldNothing<T>(n: nat)
    ensures Held(Outsiders<T>(n), ToPush) == multiset{} && Held(Outsiders<T>(n), ToReturn) == multiset{}
  {
    if n > 0 {
      OutsidersHoldNothing<T>(n - 1);
      assert Outsiders<T>(n)[1..] == Outsiders(n - 1);
    }
  }

  /** Nothing is lost, doubled or exchanged. In every interleaving the values handed to
      `enqueue` are those pushed and those that producers still carry; the values popped
      are those that `dequeue` has returned and those that consumers still carry; and the
      values of each single thread come out of it in their order. */
  lemma ValuesAreKept<T>(capacity: nat, threads: nat, steps: seq<Step<T>>, s: State<T>)
    requires Run(Init(capacity, threads), steps, s)
    ensures var start := Init<T>(capacity, threads);
            && multiset(LogOfAll(start, steps, Calls)) == multiset(s.pushed) + Held(s.threads, ToPush)
            && multiset(s.popped) == multiset(LogOfAll(start, steps, Returns)) + Held(s.threads, ToReturn)
            && s.pushed == LogOfAll(start, steps, Pushes) && s.popped == LogOfAll(start, steps, Pops)
            && |s.threads| == threads
            && forall t :: 0 <= t < threads ==>
                 && Log(start, steps, Calls, t) == Log(start, steps, Pushes, t) + ToPush(s.threads[t])
                 && Log(start, steps, Pops, t) == Log(start, steps, Returns, t) + ToReturn(s.threads[t])
  {
    var start := Init<T>(capacity, threads);
    StartsEmpty<T>(capacity, threads);
    RunLength(start, steps, s);
    hide Run, Log, LogOfAll, Held, Init, ToPush, ToReturn;
    RunHeld(start, steps, s);
    Sequences.Nothing(LogOfAll(start, steps, Pushes));
    Sequences.Nothing(LogOfAll(start, steps, Pops));
    forall t | 0 <= t < threads
      ensures Log(start, steps, Calls, t) == Log(start, steps, Pushes, t) + ToPush(s.threads[t])
      ensures Log(start, steps, Pops, t) == Log(start, steps, Returns, t) + ToReturn(s.threads[t])
    {
      RunCarries(start, steps, s, t);
      Sequences.Nothing(Log(start, steps, Calls, t));
      Sequences.Nothing(Log(start, steps, Pops, t));
    }
  }

  lemma StartsEmpty<T>(capacity: nat, threads: nat)
    ensures var start := Init<T>(capacity, threads);
            && start.pushed == [] && start.popped == [] && |start.threads| == threads
            && Held(start.threads, ToPush) == multiset{} && Held(start.threads, ToReturn) == multiset{}
            && forall t :: 0 <= t < threads ==> ToPush(start.threads[t]) == [] && ToReturn(start.threads[t]) == []
  {
    NobodyCounts<T>(threads, ReservingRole);
    OutsidersHoldNothing<T>(threads);
  }

  lemma {:induction false} RunLength<T>(s: State<T>, steps: seq<Step<T>>, last: State<T>)
    requires Run(s, steps, last)
    ensures |last.threads| == |s.threads|
    decreases |steps|
  {
    if steps != [] { RunLength(Apply(s, steps[0]), steps[1..], last); }
  }

  /** Each step is a step of an atomic bounded FIFO, or changes nothing that one
      can see: this is what lets the production line treat `enqueue` as "push
      when there is room" and `dequeue` as "pop when there is an element". */
  lemma RefinesAtomicQueue<T>(capacity: nat, s: State<T>, step: Step<T>)
    requires Inv(capacity, s) && Enabled(s, step)
    ensures var s' := Apply(s, step);
            || s'.queue == s.queue
            || (|s.queue| < capacity && step.Advance? && s.threads[step.t].EnqueuePush?
                && s'.queue == s.queue + [s.threads[step.t].value])
            || (s.queue != [] && step.Advance? && s.threads[step.t].DequeuePop?
                && s'.queue == s.queue[1..] && s'.threads[step.t] == DequeueUnlock(s.queue[0]))
  {
    if step.Advance? && s.threads[step.t].EnqueuePush? { CountPositive(s.threads, step.t, ReservingRole); }
  }

  ghost predicate AllOutsideOr<T>(s: State<T>, waits: Place<T> -> bool) {
    forall t :: 0 <= t < |s.threads| ==> s.threads[t].Outside? || waits(s.threads[t])
  }

  /** The waits are the right ones. When no thread inside an operation can move,
      all of them are producers and the queue is full, or all of them are
      consumers and it is empty. */
  lemma BlockedForAReason<T>(capacity: nat, s: State<T>)
    requires capacity > 0 && Inv(capacity, s)
    requires forall t :: 0 <= t < |s.threads| ==> !Enabled(s, Advance(t))
    ensures || (AllOutsideOr(s, (p: Place<T>) => p.EnqueueWait?) && |s.queue| == capacity)
            || (AllOutsideOr(s, (p: Place<T>) => p.DequeueWait?) && s.queue == [])
            || AllOutsideOr(s, (p: Place<T>) => false)
  {
    if s.mutex.Owned? {
      var t := s.mutex.thread;
      assert InCritical(s.threads[t]) && !Enabled(s, Advance(t));
      CountPositive(s.threads, t, ClaimingRole);
    }
    forall t | 0 <= t < |s.threads|
      ensures s.threads[t].Outside? || s.threads[t].EnqueueWait? || s.threads[t].DequeueWait?
    {
      assert !Enabled(s, Advance(t));
    }
    Idle(s, ReservingRole);
    Idle(s, AnnouncingRole);
    Idle(s, ClaimingRole);
    Idle(s, ReturningRole);
    if t :| 0 <= t < |s.threads| && s.threads[t].EnqueueWait? {
      assert !Enabled(s, Advance(t));
      forall t' | 0 <= t' < |s.threads| ensures !s.threads[t'].DequeueWait? {
        assert !Enabled(s, Advance(t'));
      }
    } else if t :| 0 <= t < |s.threads| && s.threads[t].DequeueWait? {
      assert !Enabled(s, Advance(t));
    }
  }

  lemma Idle<T>(s: State<T>, r: Role)
    requires forall t :: 0 <= t < |s.threads| ==>
               s.threads[t].Outside? || s.threads[t].EnqueueWait? || s.threads[t].DequeueWait?
    ensures Count(s.threads, r) == 0
  {
    if Count(s.threads, r) > 0 {
      var t := CountWitness(s.threads, r);
    }
  }
}
