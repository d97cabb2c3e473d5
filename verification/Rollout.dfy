/**
 Rollout of a revision: the phase loop of machinery/phases.go inside the revision loop of
 machinery/revision.go. The object loop is shared with teardown.

 The object engine is a parameter: any function from a world and an object to a new world and a
 reply. Runs record the replies in call order, so "was handed to the object engine" can be stated.
 */
module Rollout {
  import opened Basics
  import opened ObjectEngine
  import opened Results

  /** The object engine's answer; `throttled` marks a too-many-requests error. */
  datatype Reply<+R> = Produced(result: R) | Failure(throttled: bool)

  datatype Verdict = Valid | Invalid | Broken

  datatype Phase<O> = Phase(name: string, objects: seq<O>, aggregateErrors: bool)

  type Step<!W, !O, +R> = (W, O) -> (W, Reply<R>)

  // ---------------------------------------------------------------- one phase

  /** The error ends the phase at once. */
  predicate Stops<R>(r: Reply<R>, aggregate: bool) {
    r.Failure? && (!aggregate || r.throttled)
  }

  /** The loop shared by reconcile and teardown: calls the engine on the objects in order. */
  function Calls<W, O, R>(step: Step<W, O, R>, w: W, objects: seq<O>, aggregate: bool): (W, seq<Reply<R>>)
    decreases |objects|
  {
    if objects == [] then (w, [])
    else
      var (w1, r) := step(w, objects[0]);
      if Stops(r, aggregate) then (w1, [r])
      else
        var (w2, rest) := Calls(step, w1, objects[1..], aggregate);
        (w2, [r] + rest)
  }

  function Collect<R>(calls: seq<Reply<R>>): seq<R> {
    if calls == [] then []
    else
      var rest := Collect(calls[..|calls| - 1]);
      var last := calls[|calls| - 1];
      if last.Produced? then rest + [last.result] else rest
  }

  predicate AnyFailure<R>(calls: seq<Reply<R>>) {
    exists i :: 0 <= i < |calls| && calls[i].Failure?
  }

  lemma CollectOneMore<R>(calls: seq<Reply<R>>, r: Reply<R>)
    ensures Collect(calls + [r]) == if r.Produced? then Collect(calls) + [r.result] else Collect(calls)
    ensures AnyFailure(calls + [r]) <==> AnyFailure(calls) || r.Failure?
  {
    var more := calls + [r];
    assert more[..|calls|] == calls && more[|calls|] == r;
    assert forall k :: 0 <= k < |calls| ==> more[k] == calls[k];
  }

  /** The part of a run from object i on, seen from one call later. */
  lemma CallsOneMore<W, O, R>(step: Step<W, O, R>, w: W, objects: seq<O>, aggregate: bool, i: nat, calls: seq<Reply<R>>)
    requires i < |objects|
    ensures var (w1, r) := step(w, objects[i]);
            var here, next := Calls(step, w, objects[i..], aggregate), Calls(step, w1, objects[i + 1..], aggregate);
            && (Stops(r, aggregate) ==> here == (w1, [r]))
            && (!Stops(r, aggregate) ==> here.0 == next.0 && calls + here.1 == (calls + [r]) + next.1)
  {
    assert objects[i..][0] == objects[i] && objects[i..][1..] == objects[i + 1..];
  }

  method RunPhase<W, O, R>(step: Step<W, O, R>, w0: W, objects: seq<O>, aggregate: bool)
    returns (w: W, results: seq<R>, failed: bool, calls: seq<Reply<R>>)
    ensures (w, calls) == Calls(step, w0, objects, aggregate)
    ensures results == Collect(calls)
    ensures failed <==> AnyFailure(calls)
  {
    w, results, failed, calls := w0, [], false, [];
    ghost var all := Calls(step, w0, objects, aggregate);
    assert objects[0..] == objects && [] + all.1 == all.1;
    for i := 0 to |objects|
      invariant all.0 == Calls(step, w, objects[i..], aggregate).0
      invariant all.1 == calls + Calls(step, w, objects[i..], aggregate).1
      invariant results == Collect(calls)
      invariant failed <==> AnyFailure(calls)
    {
      CallsOneMore(step, w, objects, aggregate, i, calls);
      var (w1, r) := step(w, objects[i]);
      CollectOneMore(calls, r);
      w, calls := w1, calls + [r];
      if r.Failure? {
        failed := true;
        if !aggregate || r.throttled {
          return;
        }
      } else {
        results := results + [r.result];
      }
    }
    assert objects[|objects|..] == [] && calls + [] == calls;
  }

  /** A failure the loop goes on after: errors are aggregated and the server does not ask to slow down. */
  predicate Tolerated<R>(r: Reply<R>, aggregate: bool) {
    r.Failure? && aggregate && !r.throttled
  }

  /**
   When the calls end: every reply before the last is a result or a tolerated failure, and if objects are
   left over then the last reply is a failure without aggregation or from a server that asks to slow down.
   */
  lemma {:induction false} CallsEndExactly<W, O, R>(step: Step<W, O, R>, w: W, objects: seq<O>, aggregate: bool)
    ensures var calls := Calls(step, w, objects, aggregate).1;
            && |calls| <= |objects|
            && (forall i :: 0 <= i < |calls| - 1 ==> calls[i].Produced? || Tolerated(calls[i], aggregate))
            && (|calls| < |objects| ==>
                  calls != [] && calls[|calls| - 1].Failure? && (!aggregate || calls[|calls| - 1].throttled))
    decreases |objects|
  {
    if objects != [] {
      var (w1, r) := step(w, objects[0]);
      if !(r.Failure? && (!aggregate || r.throttled)) {
        CallsEndExactly(step, w1, objects[1..], aggregate);
        var calls, rest := Calls(step, w, objects, aggregate).1, Calls(step, w1, objects[1..], aggregate).1;
        assert calls == [r] + rest;
        assert forall i :: 0 < i < |calls| ==> calls[i] == rest[i - 1];
      }
    }
  }

  /** Without a failure every object was handed over, and the results are the replies. */
  lemma {:induction false} CleanRunIsFull<W, O, R>(step: Step<W, O, R>, w: W, objects: seq<O>, aggregate: bool)
    requires !AnyFailure(Calls(step, w, objects, aggregate).1)
    ensures |Calls(step, w, objects, aggregate).1| == |objects|
    decreases |objects|
  {
    if objects != [] {
      var (w1, r) := step(w, objects[0]);
      var all := Calls(step, w, objects, aggregate).1;
      assert all[0] == r;
      var rest := Calls(step, w1, objects[1..], aggregate).1;
      assert forall k :: 0 <= k < |rest| ==> rest[k] == all[k + 1];
      CleanRunIsFull(step, w1, objects[1..], aggregate);
    }
  }

  lemma CleanFirst<W, O, R>(step: Step<W, O, R>, w: W, objects: seq<O>, aggregate: bool)
    requires objects != [] && !AnyFailure(Calls(step, w, objects, aggregate).1)
    ensures var (w1, r) := step(w, objects[0]);
            var rest := Calls(step, w1, objects[1..], aggregate);
            r.Produced? && Calls(step, w, objects, aggregate) == (rest.0, [r] + rest.1) && !AnyFailure(rest.1)
  {
    var (w1, r) := step(w, objects[0]);
    var all, rest := Calls(step, w, objects, aggregate).1, Calls(step, w1, objects[1..], aggregate).1;
    assert all[0] == r;
    assert forall k :: 0 <= k < |rest| ==> rest[k] == all[k + 1];
  }

  lemma {:induction false} CollectClean<R>(calls: seq<Reply<R>>)
    requires !AnyFailure(calls)
    ensures |Collect(calls)| == |calls|
    ensures forall i :: 0 <= i < |calls| ==> calls[i] == Produced(Collect(calls)[i])
  {
    if calls != [] {
      var n := |calls| - 1;
      assert forall k :: 0 <= k < n ==> calls[..n][k] == calls[k];
      CollectClean(calls[..n]);
      assert calls[n].Produced?;
    }
  }

  // ---------------------------------------------------------------- rolling out

  /** The validator and the engine a revision is rolled out with. */
  datatype Machinery<!W, !O> = Machinery(validate: (W, Phase<O>) -> Verdict, reconcile: Step<W, O, ObjectResult>)

  datatype PhaseRun<+W> = PhaseRun(world: W, result: PhaseResult, failed: bool, calls: seq<Reply<ObjectResult>>)

  function ReconciledPhase<W, O>(m: Machinery<W, O>, w: W, phase: Phase<O>): PhaseRun<W> {
    match m.validate(w, phase)
    case Invalid => PhaseRun(w, PhaseResult(phase.name, true, []), false, [])
    case Broken => PhaseRun(w, PhaseResult(phase.name, false, []), true, [])
    case Valid =>
      var (w', calls) := Calls(m.reconcile, w, phase.objects, phase.aggregateErrors);
      PhaseRun(w', PhaseResult(phase.name, false, Collect(calls)), AnyFailure(calls), calls)
  }

  method ReconcilePhase<W, O>(m: Machinery<W, O>, w: W, phase: Phase<O>) returns (run: PhaseRun<W>)
    ensures run == ReconciledPhase(m, w, phase)
  {
    match m.validate(w, phase) {
      case Invalid =>
        run := PhaseRun(w, PhaseResult(phase.name, true, []), false, []);
      case Broken =>
        run := PhaseRun(w, PhaseResult(phase.name, false, []), true, []);
      case Valid =>
        var w', results, failed, calls := RunPhase(m.reconcile, w, phase.objects, phase.aggregateErrors);
        run := PhaseRun(w', PhaseResult(phase.name, false, results), failed, calls);
    }
  }

  /** Phases in order, up to the first that fails or is incomplete. */
  function RolledOut<W, O>(m: Machinery<W, O>, w: W, phases: seq<Phase<O>>): seq<PhaseRun<W>>
    decreases |phases|
  {
    if phases == [] then []
    else
      var run := ReconciledPhase(m, w, phases[0]);
      if run.failed || !run.result.IsComplete() then [run]
      else [run] + RolledOut(m, run.world, phases[1..])
  }

  function PhaseNames<O>(phases: seq<Phase<O>>): seq<string> {
    seq(|phases|, i requires 0 <= i < |phases| => phases[i].name)
  }

  /** A failing phase contributes no result. */
  function ResultsOf<W>(runs: seq<PhaseRun<W>>): seq<PhaseResult> {
    if runs == [] then []
    else if runs[0].failed then []
    else [runs[0].result] + ResultsOf(runs[1..])
  }

  lemma {:induction false} ResultsOneMore<W>(runs: seq<PhaseRun<W>>, run: PhaseRun<W>)
    requires forall k :: 0 <= k < |runs| ==> !runs[k].failed
    ensures ResultsOf(runs + [run]) == if run.failed then ResultsOf(runs) else ResultsOf(runs) + [run.result]
  {
    var more := runs + [run];
    if runs != [] {
      assert more[1..] == runs[1..] + [run];
      ResultsOneMore(runs[1..], run);
    } else {
      assert more[1..] == [];
    }
  }

  lemma RolledOutOneMore<W, O>(m: Machinery<W, O>, w: W, phases: seq<Phase<O>>, i: nat, runs: seq<PhaseRun<W>>)
    requires i < |phases|
    ensures var run := ReconciledPhase(m, w, phases[i]);
            RolledOut(m, w, phases[i..]) ==
            if run.failed || !run.result.IsComplete() then [run] else [run] + RolledOut(m, run.world, phases[i + 1..])
    ensures var run := ReconciledPhase(m, w, phases[i]);
            runs + ([run] + RolledOut(m, run.world, phases[i + 1..])) ==
              (runs + [run]) + RolledOut(m, run.world, phases[i + 1..])
  {
    assert phases[i..][0] == phases[i] && phases[i..][1..] == phases[i + 1..];
  }

  method ReconcileRevision<W, O>(m: Machinery<W, O>, w0: W, phases: seq<Phase<O>>, preflight: Verdict)
    returns (result: RevisionResult, failed: bool, runs: seq<PhaseRun<W>>)
    ensures preflight == Valid ==> runs == RolledOut(m, w0, phases)
    ensures preflight == Valid ==> result == RevisionResult(PhaseNames(phases), ResultsOf(runs), false)
    ensures preflight != Valid ==> runs == [] && result == RevisionResult(PhaseNames(phases), [], preflight == Invalid)
    ensures failed <==> preflight == Broken || exists i :: 0 <= i < |runs| && runs[i].failed
  {
    var names := PhaseNames(phases);
    if preflight != Valid {
      return RevisionResult(names, [], preflight == Invalid), preflight == Broken, [];
    }
    var w, results := w0, [];
    runs := [];
    ghost var all := RolledOut(m, w0, phases);
    assert phases[0..] == phases && [] + all == all;
    for i := 0 to |phases|
      invariant all == runs + RolledOut(m, w, phases[i..])
      invariant results == ResultsOf(runs)
      invariant forall k :: 0 <= k < |runs| ==> !runs[k].failed
    {
      RolledOutOneMore(m, w, phases, i, runs);
      var run := ReconcilePhase(m, w, phases[i]);
      ResultsOneMore(runs, run);
      runs := runs + [run];
      if run.failed {
        assert runs[|runs| - 1].failed;
        return RevisionResult(names, results, false), true, runs;
      }
      results := results + [run.result];
      var complete := PhaseIsComplete(run.result);
      if !complete {
        return RevisionResult(names, results, false), false, runs;
      }
      w := run.world;
    }
    assert phases[|phases|..] == [] && runs + [] == runs;
    return RevisionResult(names, results, false), false, runs;
  }

  /** Object i of phase k was handed to the object engine. */
  predicate Handed<W>(runs: seq<PhaseRun<W>>, k: nat, i: nat) {
    k < |runs| && i < |runs[k].calls|
  }

  /**
   The object engine produced a result that is no collision, that took effect or needed none, and the
   progress probe, if there is one, answered True.
   */
  predicate Succeeded(r: Reply<ObjectResult>) {
    && r.Produced?
    && r.result.action != Collision
    && (r.result.paused ==> r.result.action in {Idle, Progressed})
    && (r.result.progress.None? || r.result.progress == Some(ProbeTrue))
  }

  lemma SucceededIsComplete(r: Reply<ObjectResult>)
    ensures Succeeded(r) <==> r.Produced? && r.result.IsComplete()
  {
  }

  lemma CompletePhaseSucceeded<W, O>(m: Machinery<W, O>, w: W, phase: Phase<O>, o: nat)
    requires var run := ReconciledPhase(m, w, phase); !run.failed && run.result.IsComplete()
    requires o < |phase.objects|
    ensures var run := ReconciledPhase(m, w, phase); |run.calls| == |phase.objects| && Succeeded(run.calls[o])
  {
    var run := ReconciledPhase(m, w, phase);
    CleanRunIsFull(m.reconcile, w, phase.objects, phase.aggregateErrors);
    CollectClean(run.calls);
    assert run.result.objects[o].IsComplete();
    SucceededIsComplete(run.calls[o]);
  }

  /**
   An object is handed to the object engine only after every object of every earlier phase was
   handed over and produced a complete result that is not a collision.
   */
  lemma {:induction false} RolloutIsGated<W, O>(m: Machinery<W, O>, w: W, phases: seq<Phase<O>>, k: nat, i: nat, j: nat,
                                                o: nat)
    requires Handed(RolledOut(m, w, phases), k, i) && j < k
    ensures |RolledOut(m, w, phases)| <= |phases|
    ensures o < |phases[j].objects| ==>
              Handed(RolledOut(m, w, phases), j, o) && Succeeded(RolledOut(m, w, phases)[j].calls[o])
    decreases |phases|
  {
    RunsArePhases(m, w, phases);
    var run := ReconciledPhase(m, w, phases[0]);
    var runs, rest := RolledOut(m, w, phases), RolledOut(m, run.world, phases[1..]);
    if j == 0 {
      if o < |phases[0].objects| {
        CompletePhaseSucceeded(m, w, phases[0], o);
      }
    } else {
      assert runs[k] == rest[k - 1] && runs[j] == rest[j - 1];
      RolloutIsGated(m, run.world, phases[1..], k - 1, i, j - 1, o);
    }
  }

  lemma {:induction false} RunsArePhases<W, O>(m: Machinery<W, O>, w: W, phases: seq<Phase<O>>)
    ensures |RolledOut(m, w, phases)| <= |phases|
    ensures forall k :: 0 <= k < |RolledOut(m, w, phases)| ==> RolledOut(m, w, phases)[k].result.name == phases[k].name
    decreases |phases|
  {
    if phases != [] {
      RunsArePhases(m, ReconciledPhase(m, w, phases[0]).world, phases[1..]);
    }
  }

  /** Every object of the phase was handed over and succeeded, and neither validation nor a call failed. */
  predicate RanThrough<W, O>(phase: Phase<O>, run: PhaseRun<W>) {
    && !run.failed && !run.result.invalid
    && |run.calls| == |phase.objects|
    && forall o :: 0 <= o < |run.calls| ==> Succeeded(run.calls[o])
  }

  lemma RanThroughExactly<W, O>(m: Machinery<W, O>, w: W, phase: Phase<O>)
    ensures var run := ReconciledPhase(m, w, phase);
            !run.failed && run.result.IsComplete() <==> RanThrough(phase, run)
  {
    var run := ReconciledPhase(m, w, phase);
    if !run.failed && run.result.IsComplete() {
      CleanRunIsFull(m.reconcile, w, phase.objects, phase.aggregateErrors);
      forall o | 0 <= o < |phase.objects| ensures Succeeded(run.calls[o]) {
        CompletePhaseSucceeded(m, w, phase, o);
      }
    } else if RanThrough(phase, run) {
      CollectClean(run.calls);
      forall o | 0 <= o < |run.calls| ensures run.result.objects[o].IsComplete() {
        SucceededIsComplete(run.calls[o]);
      }
    }
  }

  predicate AllRanThrough<W, O>(phases: seq<Phase<O>>, runs: seq<PhaseRun<W>>) {
    |runs| == |phases| && forall k :: 0 <= k < |phases| ==> RanThrough(phases[k], runs[k])
  }

  lemma FirstRanThrough<W, O>(phases: seq<Phase<O>>, run: PhaseRun<W>, rest: seq<PhaseRun<W>>)
    requires phases != [] && RanThrough(phases[0], run)
    ensures AllRanThrough(phases, [run] + rest) <==> AllRanThrough(phases[1..], rest)
  {
    var runs := [run] + rest;
    assert forall k :: 0 < k < |runs| ==> runs[k] == rest[k - 1];
    assert forall k :: 0 <= k < |rest| ==> rest[k] == runs[k + 1];
    assert forall k :: 0 < k < |phases| ==> phases[k] == phases[1..][k - 1];
    assert forall k :: 0 <= k < |phases| - 1 ==> phases[1..][k] == phases[k + 1];
  }

  predicate AllComplete(results: seq<PhaseResult>) {
    forall k :: 0 <= k < |results| ==> results[k].IsComplete()
  }

  lemma FirstComplete(first: PhaseResult, rest: seq<PhaseResult>)
    ensures AllComplete([first] + rest) <==> first.IsComplete() && AllComplete(rest)
  {
    var all := [first] + rest;
    assert forall k :: 0 < k < |all| ==> all[k] == rest[k - 1];
    assert forall k :: 0 <= k < |rest| ==> rest[k] == all[k + 1];
    assert all[0] == first;
  }

  /** The results of a run whose first phase stopped it. */
  lemma StoppedResults<W>(run: PhaseRun<W>)
    ensures ResultsOf([run]) == if run.failed then [] else [run.result]
  {
    var runs := [run];
    assert runs[0] == run && runs[1..] == [];
    assert ResultsOf(runs[1..]) == [];
    assert [run.result] + [] == [run.result];
  }

  /**
   The revision reports complete exactly when every phase was run and every object of it was handed
   over and succeeded, and neither validation nor a call failed.
   */
  lemma {:induction false} CompleteIsExact<W, O>(m: Machinery<W, O>, w: W, phases: seq<Phase<O>>)
    ensures var runs := RolledOut(m, w, phases);
            (RevisionResult(PhaseNames(phases), ResultsOf(runs), false).IsComplete() <==> AllRanThrough(phases, runs))
            && (AllRanThrough(phases, runs) <==> |ResultsOf(runs)| >= |phases| && AllComplete(ResultsOf(runs)))
    decreases |phases|
  {
    if phases != [] {
      var run := ReconciledPhase(m, w, phases[0]);
      RanThroughExactly(m, w, phases[0]);
      if !run.failed && run.result.IsComplete() {
        var rest := RolledOut(m, run.world, phases[1..]);
        CompleteIsExact(m, run.world, phases[1..]);
        FirstRanThrough(phases, run, rest);
        assert ([run] + rest)[1..] == rest;
        assert ResultsOf([run] + rest) == [run.result] + ResultsOf(rest);
        FirstComplete(run.result, ResultsOf(rest));
      } else {
        StoppedResults(run);
        assert RolledOut(m, w, phases)[0] == run;
        assert !run.failed ==> !AllComplete([run.result]) by {
          FirstComplete(run.result, []);
          assert [run.result] + [] == [run.result];
        }
      }
    }
  }

  // ---------------------------------------------------------------- invalid phases, and rollouts in transition

  /** A phase that fails validation hands nothing to the object engine, changes nothing and is the last one run. */
  lemma {:induction false} UnvalidatedPhaseStops<W, O>(m: Machinery<W, O>, w: W, phases: seq<Phase<O>>, k: nat)
    requires k < |RolledOut(m, w, phases)|
    ensures |RolledOut(m, w, phases)| <= |phases|
    ensures var runs := RolledOut(m, w, phases);
            var before := if k == 0 then w else runs[k - 1].world;
            m.validate(before, phases[k]) != Valid ==>
              && k == |runs| - 1 && runs[k].calls == [] && runs[k].world == before
              && (runs[k].failed <==> m.validate(before, phases[k]) == Broken)
              && (runs[k].result.invalid <==> m.validate(before, phases[k]) == Invalid)
    decreases |phases|
  {
    RunsArePhases(m, w, phases);
    var run := ReconciledPhase(m, w, phases[0]);
    var runs := RolledOut(m, w, phases);
    assert runs[0] == run;
    if k > 0 {
      var rest := RolledOut(m, run.world, phases[1..]);
      assert runs == [run] + rest;
      assert forall i :: 0 < i < |runs| ==> runs[i] == rest[i - 1];
      UnvalidatedPhaseStops(m, run.world, phases[1..], k - 1);
    }
  }

  predicate AnyAction(calls: seq<Reply<ObjectResult>>, actions: set<Action>) {
    exists i :: 0 <= i < |calls| && calls[i].Produced? && calls[i].result.action in actions
  }

  /** A phase without failure is in transition exactly if some object collided or progressed, but not all progressed. */
  lemma PhaseTransitionExactly<W, O>(m: Machinery<W, O>, w: W, phase: Phase<O>)
    requires !ReconciledPhase(m, w, phase).failed
    ensures var run := ReconciledPhase(m, w, phase);
            && (run.result.InTransition() <==>
                  AnyAction(run.calls, {Collision, Progressed}) &&
                  AnyAction(run.calls, {Created, Updated, Recovered, Idle, Collision}))
            && (run.result.HasProgressed() <==>
                  !run.result.invalid && !AnyAction(run.calls, {Created, Updated, Recovered, Idle, Collision}))
  {
    var run := ReconciledPhase(m, w, phase);
    CollectClean(run.calls);
    var objects, calls := run.result.objects, run.calls;
    if m.validate(w, phase) == Valid {
      assert |objects| == |calls| && forall i :: 0 <= i < |calls| ==> calls[i] == Produced(objects[i]);
      var staying := {Created, Updated, Recovered, Idle, Collision};
      assert forall a: Action :: a in staying <==> a != Progressed;
      if AnyAction(calls, staying) {
        var i :| 0 <= i < |calls| && calls[i].result.action in staying;
        assert objects[i].action != Progressed;
      } else {
        forall i | 0 <= i < |objects| ensures objects[i].action == Progressed {
          assert calls[i].Produced?;
        }
      }
      if AnyAction(calls, {Collision, Progressed}) {
        var i :| 0 <= i < |calls| && calls[i].result.action in {Collision, Progressed};
        assert objects[i].action in {Collision, Progressed};
      }
      if i :| 0 <= i < |objects| && objects[i].action in {Collision, Progressed} {
        assert calls[i].Produced? && calls[i].result.action in {Collision, Progressed};
      }
    }
  }
}
