/** The loops of the Decomposer and of the ResponseAssembler over the queues they
    own, with the shared pending count of every datum updated in place. */
module Threads {
  import opened Channels
  import opened CalcData
  import opened MasterLine

  ghost function PendingOf(all: set<CalcData>): map<CalcData, nat>
    reads all
  {
    map d | d in all :: d.pendingQueries
  }

  // -------------------------------------------------------------- decomposing

  function UnitsOf(data: CalcData, n: nat): seq<Token<DataUnit>> {
    if n == 0 then [] else UnitsOf(data, n - 1) + [Item(DataUnit.DataUnit(data, n - 1))]
  }

  /** One unit for each result index, in order. */
  lemma {:induction false} UnitsAt(data: CalcData, n: nat)
    ensures |UnitsOf(data, n)| == n
    ensures forall k :: 0 <= k < n ==> UnitsOf(data, n)[k] == Item(DataUnit.DataUnit(data, k))
  {
    if n > 0 { UnitsAt(data, n - 1); }
  }

  /** All units of a sequence of data, in order. */
  function Decomposed(data: seq<CalcData>, pending: map<CalcData, nat>): seq<Token<DataUnit>> {
    if data == [] then []
    else
      var last := data[|data| - 1];
      Decomposed(data[..|data| - 1], pending) + if last in pending then UnitsOf(last, pending[last]) else []
  }

  lemma DecomposedPush(data: seq<CalcData>, d: CalcData, pending: map<CalcData, nat>)
    requires d in pending
    ensures Decomposed(data + [d], pending) == Decomposed(data, pending) + UnitsOf(d, pending[d])
  {
    assert (data + [d])[..|data|] == data;
  }

  class Decomposer {
    const pendingStopConditions: nat
    var consuming: seq<Token<CalcData>>
    var producing: seq<Token<DataUnit>>

    constructor (pendingStopConditions: nat, queue: seq<Token<CalcData>>)
      ensures this.pendingStopConditions == pendingStopConditions && consuming == queue && producing == []
    {
      this.pendingStopConditions, consuming, producing := pendingStopConditions, queue, [];
    }

    method Consume(data: CalcData)
      modifies `producing
      ensures producing == old(producing) + UnitsOf(data, data.pendingQueries)
    {
      var units := data.Decompose();
      for i := 0 to |units|
        invariant producing == old(producing) + UnitsOf(data, i)
      {
        producing := producing + [Item(units[i])];
      }
    }

    /** Consumes until the awaited stops have come, whatever lies between them. */
    method Run(ghost all: set<CalcData>)
      requires Stops(consuming) >= pendingStopConditions
      requires forall d :: d in Served(consuming, pendingStopConditions) ==> d in all
      modifies this
      ensures var data := Served(old(consuming), pendingStopConditions);
              producing == old(producing) + Decomposed(data, PendingOf(all)) + [Stop]
      ensures consuming == Behind(old(consuming), pendingStopConditions)
    {
      hide Served, Decomposed, UnitsOf, Behind;
      var need := pendingStopConditions;
      ghost var data := Served(consuming, need);
      ghost var pending := PendingOf(all);
      ghost var before := producing;
      ghost var done: seq<CalcData> := [];
      NothingDecomposed(pending);
      assert before + [] == before && [] + data == data;
      while need > 0
        invariant 0 <= need <= Stops(consuming)
        invariant Behind(consuming, need) == Behind(old(consuming), pendingStopConditions)
        invariant done + Served(consuming, need) == data && PendingOf(all) == pending
        invariant producing == before + Decomposed(done, pending)
        decreases |consuming|
      {
        var token := consuming[0];
        ServedFirst(consuming, need);
        consuming := consuming[1..];
        if token.Stop? {
          need := need - 1;
        } else {
          assert data[|done|] == token.item && token.item in data;
          assert pending[token.item] == token.item.pendingQueries;
          Consume(token.item);
          DecomposedPush(done, token.item, pending);
          done := done + [token.item];
        }
      }
      NothingLeft(consuming);
      assert done + [] == done;
      producing := producing + [Stop];
    }
  }

  lemma NothingDecomposed(pending: map<CalcData, nat>)
    ensures Decomposed([], pending) == []
  {
  }

  // --------------------------------------------------------------- assembling

  ghost predicate Covers(pending: map<CalcData, nat>, units: seq<DataUnit>) {
    forall k :: 0 <= k < |units| ==> units[k].data in pending
  }

  /** The pending counts after these units have been met. */
  function Marked(units: seq<DataUnit>, pending: map<CalcData, nat>): (m: map<CalcData, nat>)
    requires Covers(pending, units)
    ensures m.Keys == pending.Keys
  {
    if units == [] then pending
    else
      var m := Marked(units[..|units| - 1], pending);
      var last := units[|units| - 1].data;
      m[last := MarkReady(m[last])]
  }

  /** The data that are sent to the responder on the way. */
  function Assembled(units: seq<DataUnit>, pending: map<CalcData, nat>): seq<CalcData>
    requires Covers(pending, units)
  {
    if units == [] then []
    else
      var front, last := units[..|units| - 1], units[|units| - 1].data;
      Assembled(front, pending) + if MarkReady(Marked(front, pending)[last]) == 0 then [last] else []
  }

  lemma AssembledPush(units: seq<DataUnit>, u: DataUnit, pending: map<CalcData, nat>)
    requires Covers(pending, units) && u.data in pending
    ensures Covers(pending, units + [u])
    ensures var left := MarkReady(Marked(units, pending)[u.data]);
            && Marked(units + [u], pending) == Marked(units, pending)[u.data := left]
            && Assembled(units + [u], pending) == Assembled(units, pending) + if left == 0 then [u.data] else []
  {
    assert (units + [u])[..|units|] == units;
  }

  class ResponseAssembler {
    const pendingStopConditions: nat
    var consuming: seq<Token<DataUnit>>
    var producing: seq<Token<CalcData>>

    constructor (pendingStopConditions: nat, queue: seq<Token<DataUnit>>)
      ensures this.pendingStopConditions == pendingStopConditions && consuming == queue && producing == []
    {
      this.pendingStopConditions, consuming, producing := pendingStopConditions, queue, [];
    }

    method Consume(unit: DataUnit)
      modifies `producing, unit.data`pendingQueries
      ensures unit.data.pendingQueries == MarkReady(old(unit.data.pendingQueries))
      ensures producing == old(producing) + if unit.data.pendingQueries == 0 then [Item(unit.data)] else []
    {
      unit.data.MarkUnitReady();
      if unit.data.IsReady() { producing := producing + [Item(unit.data)]; }
    }

    /** `all` are the data that the units in the queue refer to. */
    method Run(ghost all: set<CalcData>)
      requires Stops(consuming) >= pendingStopConditions
      requires Covers(PendingOf(all), Served(consuming, pendingStopConditions))
      modifies this, all`pendingQueries
      ensures var units, pending := Served(old(consuming), pendingStopConditions), old(PendingOf(all));
              && PendingOf(all) == Marked(units, pending)
              && producing == old(producing) + Items(Assembled(units, pending)) + [Stop]
      ensures consuming == Behind(old(consuming), pendingStopConditions)
    {
      hide Served, Marked, Assembled, MarkReady, Items, Behind;
      var need := pendingStopConditions;
      ghost var units, pending := Served(consuming, need), PendingOf(all);
      ghost var before := producing;
      ghost var done: seq<DataUnit> := [];
      NothingAssembled(pending);
      assert before + [] == before && [] + units == units;
      while need > 0
        invariant 0 <= need <= Stops(consuming)
        invariant Behind(consuming, need) == Behind(old(consuming), pendingStopConditions)
        invariant done + Served(consuming, need) == units && Covers(pending, done)
        invariant PendingOf(all) == Marked(done, pending)
        invariant producing == before + Items(Assembled(done, pending))
        decreases |consuming|
      {
        var token := consuming[0];
        ServedFirst(consuming, need);
        consuming := consuming[1..];
        if token.Stop? {
          need := need - 1;
        } else {
          ghost var u := token.item;
          assert units[|done|] == u;
          assert u.data in pending && u.data in all;
          AssembledPush(done, u, pending);
          ghost var marked := PendingOf(all);
          assert marked[u.data] == u.data.pendingQueries;
          Consume(token.item);
          assert PendingOf(all) == marked[u.data := u.data.pendingQueries];
          ItemsPush(Assembled(done, pending), u.data);
          assert Assembled(done, pending) + [] == Assembled(done, pending);
          done := done + [u];
        }
      }
      NothingLeft(consuming);
      assert done + [] == done;
      producing := producing + [Stop];
    }
  }

  lemma NothingAssembled(pending: map<CalcData, nat>)
    ensures Items(Assembled([], pending)) == [] && Marked([], pending) == pending
  {
  }

  function CountOf(units: seq<DataUnit>, d: CalcData): nat {
    if units == [] then 0
    else CountOf(units[..|units| - 1], d) + if units[|units| - 1].data == d then 1 else 0
  }

  /** How often a datum reaches the responder: not before as many of its units as
      were pending have been met, and once more for every further unit. */
  lemma {:induction false} AssembledCount(units: seq<DataUnit>, pending: map<CalcData, nat>, d: CalcData)
    requires Covers(pending, units) && d in pending
    ensures var n, p := CountOf(units, d), pending[d];
            && Marked(units, pending)[d] == (if n < p then p - n else 0)
            && multiset(Assembled(units, pending))[d]
               == (if n == 0 || n < p then 0 else if p == 0 then n else n - p + 1)
  {
    if units != [] {
      AssembledCount(units[..|units| - 1], pending, d);
    }
  }

  /** A datum with queries is answered once exactly when each of its pending
      queries has been met once. */
  lemma AnsweredOnce(units: seq<DataUnit>, pending: map<CalcData, nat>, d: CalcData)
    requires Covers(pending, units) && d in pending && pending[d] > 0
    ensures multiset(Assembled(units, pending))[d] == 1 <==> CountOf(units, d) == pending[d]
    ensures d !in Assembled(units, pending) <==> CountOf(units, d) < pending[d]
  {
    AssembledCount(units, pending, d);
    assert d in multiset(Assembled(units, pending)) <==> d in Assembled(units, pending);
  }
}
