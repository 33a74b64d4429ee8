/**
 The readiness check of the live agents: a pool of workers drains one shared queue, each
 check takes a while, and rows arrive in any order. Whatever the interleaving, the report
 that is printed and judged is the roster's, in roster order.
 */
module ReadinessPool {
  import opened Wrappers

  datatype Spec = Spec(id: string, required: bool)

  datatype Row = Row(agentId: string, ok: bool, required: bool, reasonCode: string)

  datatype Worker = Looping | Checking(spec: Spec) | Ended

  datatype State = State(queue: seq<Spec>, workers: seq<Worker>, results: seq<Row>)

  datatype Step = Take(w: nat) | Report(w: nat) | Stop(w: nat)

  /** A check answers with a row for the agent it was given. */
  ghost predicate ChecksItsAgent(check: Spec -> Row, roster: seq<Spec>) {
    forall i | 0 <= i < |roster| ::
        check(roster[i]).agentId == roster[i].id && check(roster[i]).required == roster[i].required
  }

  predicate DistinctIds(roster: seq<Spec>) {
    forall i, k | 0 <= i < k < |roster| :: roster[i].id != roster[k].id
  }

  function Begin(roster: seq<Spec>, workers: nat): State {
    State(roster, seq(workers, _ => Looping), [])
  }

  predicate Enabled(s: State, step: Step) {
    && step.w < |s.workers|
    && match step
       case Take(w) => s.workers[w].Looping? && s.queue != []
       case Report(w) => s.workers[w].Checking?
       case Stop(w) => s.workers[w].Looping? && s.queue == []
  }

  function Apply(check: Spec -> Row, s: State, step: Step): State
    requires Enabled(s, step)
  {
    match step
    case Take(w) => s.(queue := s.queue[1..], workers := s.workers[w := Checking(s.queue[0])])
    case Report(w) => s.(workers := s.workers[w := Looping], results := s.results + [check(s.workers[w].spec)])
    case Stop(w) => s.(workers := s.workers[w := Ended])
  }

  predicate Valid(check: Spec -> Row, s: State, steps: seq<Step>)
    decreases |steps|
  {
    steps == [] || (Enabled(s, steps[0]) && Valid(check, Apply(check, s, steps[0]), steps[1..]))
  }

  function Run(check: Spec -> Row, s: State, steps: seq<Step>): State
    requires Valid(check, s, steps)
    decreases |steps|
  {
    if steps == [] then s else Run(check, Apply(check, s, steps[0]), steps[1..])
  }

  predicate AllEnded(s: State) {
    forall w | 0 <= w < |s.workers| :: s.workers[w].Ended?
  }

  predicate HeldOrReported(check: Spec -> Row, s: State, spec: Spec) {
    check(spec) in s.results || Checking(spec) in s.workers
  }

  /** The queue is a tail of the roster; what was taken is in a worker's hand or reported, and
      every row reports a roster agent; a worker ends only on an empty queue. */
  ghost predicate PoolInv(check: Spec -> Row, roster: seq<Spec>, s: State) {
    && |s.queue| <= |roster| && s.queue == roster[|roster| - |s.queue|..]
    && (forall i | 0 <= i < |roster| - |s.queue| :: HeldOrReported(check, s, roster[i]))
    && (forall w | 0 <= w < |s.workers| && s.workers[w].Checking? :: s.workers[w].spec in roster)
    && (forall n | 0 <= n < |s.results| :: exists i :: 0 <= i < |roster| && s.results[n] == check(roster[i]))
    && (Ended in s.workers ==> s.queue == [])
  }

  lemma StepKeepsPool(check: Spec -> Row, roster: seq<Spec>, s: State, step: Step)
    requires PoolInv(check, roster, s) && Enabled(s, step)
    ensures PoolInv(check, roster, Apply(check, s, step))
  {
    var t := Apply(check, s, step);
    var w := step.w;
    assert t.workers[w] in t.workers;
    forall n | 0 <= n < |t.results|
      ensures exists i :: 0 <= i < |roster| && t.results[n] == check(roster[i])
    {
      if n < |s.results| {
        assert t.results[n] == s.results[n];
      } else {
        assert s.workers[w].spec in roster;
        var i :| 0 <= i < |roster| && roster[i] == s.workers[w].spec;
        assert t.results[n] == check(roster[i]);
      }
    }
    forall i | 0 <= i < |roster| - |t.queue|
      ensures HeldOrReported(check, t, roster[i])
    {
      if i < |roster| - |s.queue| && check(roster[i]) !in s.results {
        var v :| 0 <= v < |s.workers| && s.workers[v] == Checking(roster[i]);
        if v == w {
          assert t.results[|s.results|] == check(roster[i]);
        } else {
          assert t.workers[v] == s.workers[v];
        }
      }
    }
  }

  lemma {:induction false} RunKeepsPool(check: Spec -> Row, roster: seq<Spec>, s: State, steps: seq<Step>)
    requires PoolInv(check, roster, s) && Valid(check, s, steps)
    ensures PoolInv(check, roster, Run(check, s, steps)) && |Run(check, s, steps).workers| == |s.workers|
    decreases |steps|
  {
    if steps == [] {
    } else {
      StepKeepsPool(check, roster, s, steps[0]);
      RunKeepsPool(check, roster, Apply(check, s, steps[0]), steps[1..]);
    }
  }

  /** The rows by agent (a later row of the same agent wins), then back in roster order. */
  method InRosterOrder(roster: seq<Spec>, results: seq<Row>) returns (ordered: seq<Row>)
    ensures ordered == Reordered(roster, results)
  {
    var byAgent: map<string, Row> := map[];
    for n := 0 to |results|
      invariant forall id :: Last(results[..n], id) == if id in byAgent then Some(byAgent[id]) else None
    {
      assert results[..n + 1][..n] == results[..n];
      byAgent := byAgent[results[n].agentId := results[n]];
    }
    assert results[..|results|] == results;
    ordered := [];
    for i := 0 to |roster|
      invariant ordered == Reordered(roster[..i], results)
    {
      assert roster[..i + 1][..i] == roster[..i];
      if roster[i].id in byAgent {
        ordered := ordered + [byAgent[roster[i].id]];
      }
    }
    assert roster[..|roster|] == roster;
  }

  function Last(results: seq<Row>, id: string): Option<Row> {
    if results == [] then None
    else if results[|results| - 1].agentId == id then Some(results[|results| - 1])
    else Last(results[..|results| - 1], id)
  }

  function Reordered(roster: seq<Spec>, results: seq<Row>): seq<Row> {
    if roster == [] then []
    else
      var n := |roster| - 1;
      Reordered(roster[..n], results) + match Last(results, roster[n].id) case None => [] case Some(row) => [row]
  }

  lemma {:induction false} LastIsSome(results: seq<Row>, row: Row)
    requires row in results
    ensures Last(results, row.agentId).Some?
    ensures Last(results, row.agentId).value in results && Last(results, row.agentId).value.agentId == row.agentId
  {
    var n := |results| - 1;
    if results[n].agentId == row.agentId {
    } else {
      assert row in results[..n];
      LastIsSome(results[..n], row);
    }
  }

  lemma {:induction false} ReorderedIsRoster(check: Spec -> Row, roster: seq<Spec>, results: seq<Row>)
    requires forall i | 0 <= i < |roster| :: Last(results, roster[i].id) == Some(check(roster[i]))
    ensures Reordered(roster, results) == seq(|roster|, i requires 0 <= i < |roster| => check(roster[i]))
  {
    if roster == [] {
    } else {
      var n := |roster| - 1;
      var front := roster[..n];
      assert forall i | 0 <= i < n :: front[i] == roster[i];
      ReorderedIsRoster(check, front, results);
      var rows := Reordered(front, results);
      assert Reordered(roster, results) == rows + [check(roster[n])];
      forall i | 0 <= i < n + 1
        ensures (rows + [check(roster[n])])[i] == check(roster[i])
      {
        assert i < n ==> rows[i] == check(front[i]);
      }
    }
  }

  /** With at least one worker, and every worker ended, the ordered report has exactly one row
      per roster agent, in roster order, whatever the interleaving was. */
  lemma ReportIsRoster(check: Spec -> Row, roster: seq<Spec>, workers: nat, steps: seq<Step>)
    requires workers > 0 && DistinctIds(roster) && ChecksItsAgent(check, roster)
    requires Valid(check, Begin(roster, workers), steps) && AllEnded(Run(check, Begin(roster, workers), steps))
    ensures Reordered(roster, Run(check, Begin(roster, workers), steps).results)
            == seq(|roster|, i requires 0 <= i < |roster| => check(roster[i]))
  {
    RunKeepsPool(check, roster, Begin(roster, workers), steps);
    var s := Run(check, Begin(roster, workers), steps);
    assert s.workers[0] in s.workers && s.queue == [];
    forall i | 0 <= i < |roster|
      ensures Last(s.results, roster[i].id) == Some(check(roster[i]))
    {
      assert HeldOrReported(check, s, roster[i]);
      var row := check(roster[i]);
      LastIsSome(s.results, row);
      var last := Last(s.results, row.agentId).value;
      var n :| 0 <= n < |s.results| && s.results[n] == last;
      var k :| 0 <= k < |roster| && s.results[n] == check(roster[k]);
      assert roster[k].id == roster[i].id;
    }
    ReorderedIsRoster(check, roster, s.results);
  }

  /** Without a worker nothing is checked, the report is empty and no failure is seen. */
  lemma NoWorkersReportNothing(check: Spec -> Row, roster: seq<Spec>, steps: seq<Step>)
    requires Valid(check, Begin(roster, 0), steps)
    ensures AllEnded(Run(check, Begin(roster, 0), steps))
    ensures Reordered(roster, Run(check, Begin(roster, 0), steps).results) == []
  {
    EmptyReport(roster);
  }

  lemma {:induction false} EmptyReport(roster: seq<Spec>)
    ensures Reordered(roster, []) == []
  {
    if roster == [] {
    } else {
      EmptyReport(roster[..|roster| - 1]);
    }
  }
}
