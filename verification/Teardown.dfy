/**
 Teardown of a revision: phases in reverse order (machinery/revision.go), the objects of each
 phase in order (machinery/phases.go).
 */
module Teardown {
  import opened Basics
  import opened Rollout

  // ---------------------------------------------------------------- one phase

  /** The objects whose call answered gone (or not gone), in order. */
  function Select<O>(objects: seq<O>, calls: seq<Reply<bool>>, gone: bool): seq<O>
    requires |calls| <= |objects|
  {
    if calls == [] then []
    else
      var n := |calls| - 1;
      var rest := Select(objects, calls[..n], gone);
      if calls[n] == Produced(gone) then rest + [objects[n]] else rest
  }

  datatype PhaseTeardown<+W, +O> = PhaseTeardown(world: W, name: string, gone: seq<O>, waiting: seq<O>,
                                                 failed: bool, calls: seq<Reply<bool>>)
  {
    predicate IsComplete() {
      |waiting| == 0
    }
  }

  lemma {:induction false} CallsFitObjects<W, O, R>(step: Step<W, O, R>, w: W, objects: seq<O>, aggregate: bool)
    ensures |Calls(step, w, objects, aggregate).1| <= |objects|
    decreases |objects|
  {
    if objects != [] {
      CallsFitObjects(step, step(w, objects[0]).0, objects[1..], aggregate);
    }
  }

  function TornPhase<W, O>(step: Step<W, O, bool>, w: W, phase: Phase<O>): PhaseTeardown<W, O> {
    var (w', calls) := Calls(step, w, phase.objects, phase.aggregateErrors);
    CallsFitObjects(step, w, phase.objects, phase.aggregateErrors);
    PhaseTeardown(w', phase.name, Select(phase.objects, calls, true), Select(phase.objects, calls, false),
                  AnyFailure(calls), calls)
  }

  lemma SelectOneMore<O>(objects: seq<O>, calls: seq<Reply<bool>>, r: Reply<bool>, gone: bool)
    requires |calls| < |objects|
    ensures Select(objects, calls + [r], gone) ==
            if r == Produced(gone) then Select(objects, calls, gone) + [objects[|calls|]]
            else Select(objects, calls, gone)
  {
    assert (calls + [r])[..|calls|] == calls;
  }

  /** The lists kept by the loop are what the replies so far say. */
  ghost predicate Tallied<O>(objects: seq<O>, calls: seq<Reply<bool>>, gone: seq<O>, waiting: seq<O>, failed: bool) {
    && |calls| <= |objects|
    && gone == Select(objects, calls, true) && waiting == Select(objects, calls, false)
    && failed == AnyFailure(calls)
  }

  lemma TallyOneMore<O>(objects: seq<O>, calls: seq<Reply<bool>>, r: Reply<bool>, gone: seq<O>, waiting: seq<O>,
                        failed: bool)
    requires |calls| < |objects| && Tallied(objects, calls, gone, waiting, failed)
    ensures var o := objects[|calls|];
            match r
            case Failure(_) => Tallied(objects, calls + [r], gone, waiting, true)
            case Produced(done) =>
              if done then Tallied(objects, calls + [r], gone + [o], waiting, failed)
              else Tallied(objects, calls + [r], gone, waiting + [o], failed)
  {
    CollectOneMore(calls, r);
    SelectOneMore(objects, calls, r, true);
    SelectOneMore(objects, calls, r, false);
    if r.Produced? {
      if r.result {
        assert r == Produced(true);
      } else {
        assert r == Produced(false);
      }
    }
  }

  method TeardownPhase<W, O>(step: Step<W, O, bool>, w0: W, phase: Phase<O>) returns (run: PhaseTeardown<W, O>)
    ensures run == TornPhase(step, w0, phase)
  {
    var objects, aggregate := phase.objects, phase.aggregateErrors;
    var w, failed, calls := w0, false, [];
    var gone, waiting := [], [];
    ghost var all := Calls(step, w0, objects, aggregate);
    assert objects[0..] == objects && [] + all.1 == all.1;
    for i := 0 to |objects|
      invariant |calls| == i
      invariant all.0 == Calls(step, w, objects[i..], aggregate).0
      invariant all.1 == calls + Calls(step, w, objects[i..], aggregate).1
      invariant Tallied(objects, calls, gone, waiting, failed)
    {
      CallsOneMore(step, w, objects, aggregate, i, calls);
      var (w1, r) := step(w, objects[i]);
      TallyOneMore(objects, calls, r, gone, waiting, failed);
      w, calls := w1, calls + [r];
      if r.Failure? {
        failed := true;
        if !aggregate || r.throttled {
          return PhaseTeardown(w, phase.name, gone, waiting, failed, calls);
        }
      } else if r.result {
        gone := gone + [objects[i]];
      } else {
        waiting := waiting + [objects[i]];
      }
    }
    assert objects[|objects|..] == [] && calls + [] == calls;
    return PhaseTeardown(w, phase.name, gone, waiting, failed, calls);
  }

  lemma {:induction false} NothingWaiting<O>(objects: seq<O>, calls: seq<Reply<bool>>)
    requires |calls| <= |objects| && !AnyFailure(calls)
    ensures Select(objects, calls, false) == [] <==> forall i :: 0 <= i < |calls| ==> calls[i] == Produced(true)
    ensures |Select(objects, calls, true)| + |Select(objects, calls, false)| == |calls|
  {
    if calls != [] {
      var n := |calls| - 1;
      var before, last := calls[..n], calls[n];
      assert forall k :: 0 <= k < n ==> before[k] == calls[k];
      NothingWaiting(objects, before);
      assert !calls[n].Failure?;
      if last.result {
        assert last == Produced(true);
      } else {
        assert last == Produced(false);
      }
      var g, h := Select(objects, before, true), Select(objects, before, false);
      assert Select(objects, calls, true) == if last == Produced(true) then g + [objects[n]] else g;
      assert Select(objects, calls, false) == if last == Produced(false) then h + [objects[n]] else h;
      assert (forall i :: 0 <= i < |calls| ==> calls[i] == Produced(true)) <==>
             (last == Produced(true) && forall i :: 0 <= i < n ==> before[i] == Produced(true));
    }
  }

  /** A phase torn down without error is complete exactly when every object was handed over and reported gone. */
  lemma CompleteMeansGone<W, O>(step: Step<W, O, bool>, w: W, phase: Phase<O>)
    requires !TornPhase(step, w, phase).failed
    ensures var run := TornPhase(step, w, phase);
            && |run.calls| == |phase.objects|
            && |run.gone| + |run.waiting| == |phase.objects|
            && (run.IsComplete() <==> forall o :: 0 <= o < |phase.objects| ==> run.calls[o] == Produced(true))
  {
    CleanRunIsFull(step, w, phase.objects, phase.aggregateErrors);
    NothingWaiting(phase.objects, TornPhase(step, w, phase).calls);
  }

  // ---------------------------------------------------------------- all phases, last first

  /** The first run is the last phase's. */
  function TornPhases<W, O>(step: Step<W, O, bool>, w: W, phases: seq<Phase<O>>): seq<PhaseTeardown<W, O>>
    decreases |phases|
  {
    if phases == [] then []
    else
      var n := |phases| - 1;
      var run := TornPhase(step, w, phases[n]);
      if run.failed || !run.IsComplete() then [run]
      else [run] + TornPhases(step, run.world, phases[..n])
  }

  predicate TornOut<W, O>(runs: seq<PhaseTeardown<W, O>>, k: nat, i: nat) {
    k < |runs| && i < |runs[k].calls|
  }

  /**
   No object is torn down before every object of every later phase was handed over and reported
   gone. Run k belongs to the k-th phase from the end.
   */
  lemma {:induction false} TeardownIsGated<W, O>(step: Step<W, O, bool>, w: W, phases: seq<Phase<O>>, k: nat, i: nat,
                                                 j: nat, o: nat)
    requires TornOut(TornPhases(step, w, phases), k, i) && j < k
    ensures |TornPhases(step, w, phases)| <= |phases|
    ensures o < |phases[|phases| - 1 - j].objects| ==>
              TornOut(TornPhases(step, w, phases), j, o) && TornPhases(step, w, phases)[j].calls[o] == Produced(true)
    decreases |phases|
  {
    RunsFitPhases(step, w, phases);
    var n := |phases| - 1;
    var run := TornPhase(step, w, phases[n]);
    var runs, rest := TornPhases(step, w, phases), TornPhases(step, run.world, phases[..n]);
    if j == 0 {
      CompleteMeansGone(step, w, phases[n]);
    } else {
      assert runs[k] == rest[k - 1] && runs[j] == rest[j - 1];
      TeardownIsGated(step, run.world, phases[..n], k - 1, i, j - 1, o);
    }
  }

  lemma {:induction false} RunsFitPhases<W, O>(step: Step<W, O, bool>, w: W, phases: seq<Phase<O>>)
    ensures |TornPhases(step, w, phases)| <= |phases|
    decreases |phases|
  {
    if phases != [] {
      var n := |phases| - 1;
      RunsFitPhases(step, TornPhase(step, w, phases[n]).world, phases[..n]);
    }
  }

  // ---------------------------------------------------------------- the report

  datatype TeardownReport = TeardownReport(active: string, waiting: seq<string>, gone: seq<string>)
  {
    predicate IsComplete() {
      |waiting| == 0 && |active| == 0
    }
  }

  /** Names of phases not yet reached, in declared order, looked up by name. */
  function StillWaiting(names: seq<string>, waiting: set<string>): seq<string> {
    if names == [] then []
    else
      var n := |names| - 1;
      var rest := StillWaiting(names[..n], waiting);
      if names[n] in waiting then rest + [names[n]] else rest
  }

  function NameSet(names: seq<string>): set<string> {
    set n | n in names
  }

  /**
   The report after `done` phases from the end completed; `stopped` tells whether one more phase
   was attempted and is still waiting for objects to go.
   */
  function Report(names: seq<string>, done: nat, stopped: bool): TeardownReport
    requires done + (if stopped then 1 else 0) <= |names|
  {
    var from := |names| - done;
    if stopped then
      TeardownReport(names[from - 1], StillWaiting(names, NameSet(names) - NameSet(names[from - 1..])), names[from..])
    else
      TeardownReport("", [], names[from..])
  }

  predicate Stopped<W, O>(runs: seq<PhaseTeardown<W, O>>) {
    runs != [] && !runs[|runs| - 1].IsComplete()
  }

  /** The phase torn down last failed. */
  predicate Failed<W, O>(runs: seq<PhaseTeardown<W, O>>) {
    runs != [] && runs[|runs| - 1].failed
  }

  lemma LastRun<W, O>(runs: seq<PhaseTeardown<W, O>>, run: PhaseTeardown<W, O>)
    ensures Failed(runs + [run]) == run.failed && Stopped(runs + [run]) == !run.IsComplete()
  {
  }

  function ReportOf<W, O>(phases: seq<Phase<O>>, runs: seq<PhaseTeardown<W, O>>): TeardownReport
    requires |runs| <= |phases|
  {
    Report(PhaseNames(phases), if Stopped(runs) then |runs| - 1 else |runs|, Stopped(runs))
  }

  function Reversed<T>(s: seq<T>): seq<T> {
    if s == [] then [] else Reversed(s[1..]) + [s[0]]
  }

  lemma ReversedName(names: seq<string>, gone: seq<string>, i: nat)
    requires i < |names| && Reversed(gone) == names[i + 1..]
    ensures Reversed(gone + [names[i]]) == names[i..]
  {
    ReversedAppend(gone, names[i]);
    assert [names[i]] + names[i + 1..] == names[i..];
  }

  lemma {:induction false} ReversedAppend<T>(s: seq<T>, x: T)
    ensures Reversed(s + [x]) == [x] + Reversed(s)
  {
    if s != [] {
      assert (s + [x])[1..] == s[1..] + [x];
      ReversedAppend(s[1..], x);
    } else {
      assert ([x])[1..] == [];
    }
  }

  lemma TornPhasesOneMore<W, O>(step: Step<W, O, bool>, w: W, phases: seq<Phase<O>>, i: nat,
                                runs: seq<PhaseTeardown<W, O>>)
    requires 0 < i <= |phases|
    ensures var run := TornPhase(step, w, phases[i - 1]);
            TornPhases(step, w, phases[..i]) ==
            if run.failed || !run.IsComplete() then [run] else [run] + TornPhases(step, run.world, phases[..i - 1])
    ensures var run := TornPhase(step, w, phases[i - 1]);
            runs + ([run] + TornPhases(step, run.world, phases[..i - 1])) ==
              (runs + [run]) + TornPhases(step, run.world, phases[..i - 1])
  {
    assert phases[..i][i - 1] == phases[i - 1] && phases[..i][..i - 1] == phases[..i - 1];
  }

  /** The names that do not occur from position i on. */
  function NamesBefore(names: seq<string>, i: nat): set<string>
    requires i <= |names|
  {
    NameSet(names) - NameSet(names[i..])
  }

  lemma OneLessWaiting(names: seq<string>, i: nat)
    requires i < |names|
    ensures NamesBefore(names, i) == NamesBefore(names, i + 1) - {names[i]}
  {
    assert names[i..] == [names[i]] + names[i + 1..];
    assert NameSet(names[i..]) == {names[i]} + NameSet(names[i + 1..]);
  }

  lemma AllWaiting(names: seq<string>)
    ensures NamesBefore(names, |names|) == NameSet(names)
  {
  }

  method AllNames<O>(phases: seq<Phase<O>>) returns (names: set<string>)
    ensures names == NameSet(PhaseNames(phases))
  {
    ghost var all := PhaseNames(phases);
    names := {};
    for k := 0 to |phases|
      invariant names == NameSet(all[..k])
    {
      assert all[..k + 1] == all[..k] + [phases[k].name];
      names := names + {phases[k].name};
    }
    assert all[..|phases|] == all;
  }

  method NamesWaiting<O>(phases: seq<Phase<O>>, waiting: set<string>) returns (left: seq<string>)
    ensures left == StillWaiting(PhaseNames(phases), waiting)
  {
    ghost var all := PhaseNames(phases);
    left := [];
    for k := 0 to |phases|
      invariant left == StillWaiting(all[..k], waiting)
    {
      assert all[..k + 1][..k] == all[..k] && all[k] == phases[k].name;
      if phases[k].name in waiting {
        left := left + [phases[k].name];
      }
    }
    assert all[..|phases|] == all;
  }

  /** The report when the phase torn down last was not complete. */
  lemma StoppedReport<W, O>(phases: seq<Phase<O>>, runs: seq<PhaseTeardown<W, O>>, i: nat,
                            waiting: set<string>, left: seq<string>, gone: seq<string>)
    requires i < |phases| && |runs| == |phases| - i && Stopped(runs)
    requires var names := PhaseNames(phases);
             && waiting == NamesBefore(names, i) && left == StillWaiting(names, waiting)
             && Reversed(gone) == names[i + 1..]
    ensures ReportOf(phases, runs) == TeardownReport(phases[i].name, left, Reversed(gone))
  {
    assert |PhaseNames(phases)| - (|runs| - 1) - 1 == i;
  }

  lemma FinishedReport<W, O>(phases: seq<Phase<O>>, runs: seq<PhaseTeardown<W, O>>, gone: seq<string>)
    requires |runs| == |phases| && !Stopped(runs) && Reversed(gone) == PhaseNames(phases)[0..]
    ensures ReportOf(phases, runs) == TeardownReport("", [], Reversed(gone))
  {
  }

  /** The phases from i on are gone, one run each; the names that do not occur among them still wait. */
  ghost predicate TornDownTo(names: seq<string>, i: nat, runs: nat, waiting: set<string>, gone: seq<string>) {
    i <= |names| && runs == |names| - i && waiting == NamesBefore(names, i) && Reversed(gone) == names[i..]
  }

  lemma OneMoreGone(names: seq<string>, i: nat, runs: nat, waiting: set<string>, gone: seq<string>)
    requires i < |names| && TornDownTo(names, i + 1, runs, waiting, gone)
    ensures TornDownTo(names, i, runs + 1, waiting - {names[i]}, gone + [names[i]])
  {
    OneLessWaiting(names, i);
    ReversedName(names, gone, i);
  }

  method TeardownRevision<W, O>(step: Step<W, O, bool>, w0: W, phases: seq<Phase<O>>)
    returns (report: Option<TeardownReport>, runs: seq<PhaseTeardown<W, O>>)
    ensures runs == TornPhases(step, w0, phases)
    ensures report.None? <==> Failed(runs)
    ensures report.Some? ==> |runs| <= |phases| && report.value == ReportOf(phases, runs)
  {
    ghost var names := PhaseNames(phases);
    var w := w0;
    var active, gone := "", [];
    var waiting := AllNames(phases);
    runs := [];
    ghost var all := TornPhases(step, w0, phases);
    AllWaiting(names);
    assert phases[..|phases|] == phases && [] + all == all;
    for i := |phases| downto 0
      invariant all == runs + TornPhases(step, w, phases[..i])
      invariant !Failed(runs) && !Stopped(runs)
      invariant TornDownTo(names, i, |runs|, waiting, gone)
    {
      OneMoreGone(names, i, |runs|, waiting, gone);
      waiting := waiting - {phases[i].name};
      active := phases[i].name;
      TornPhasesOneMore(step, w, phases, i + 1, runs);
      var run := TeardownPhase(step, w, phases[i]);
      LastRun(runs, run);
      runs := runs + [run];
      if run.failed {
        return None, runs;
      }
      if !run.IsComplete() {
        var left := NamesWaiting(phases, waiting);
        StoppedReport(phases, runs, i, waiting, left, gone);
        return Some(TeardownReport(active, left, Reversed(gone))), runs;
      }
      gone := gone + [phases[i].name];
      w := run.world;
    }
    assert phases[..0] == [] && runs + [] == runs;
    FinishedReport(phases, runs, gone);
    report := Some(TeardownReport("", [], Reversed(gone)));
  }

  predicate Distinct(names: seq<string>) {
    forall i, j :: 0 <= i < j < |names| ==> names[i] != names[j]
  }

  lemma {:induction false} WaitingIsPrefix(names: seq<string>, waiting: set<string>, k: nat)
    requires k <= |names|
    requires forall i :: 0 <= i < |names| ==> (names[i] in waiting <==> i < k)
    ensures StillWaiting(names, waiting) == names[..k]
  {
    if names != [] {
      var n := |names| - 1;
      WaitingIsPrefix(names[..n], waiting, if k <= n then k else n);
      assert k == |names| ==> names[..k] == names[..n] + [names[n]];
    }
  }

  /** With distinct phase names, the report splits the phases in declared order: waiting, active, gone. */
  lemma TeardownPartitions(names: seq<string>, done: nat, stopped: bool)
    requires Distinct(names) && done + (if stopped then 1 else 0) <= |names| && (!stopped ==> done == |names|)
    ensures var r := Report(names, done, stopped);
            r.waiting + (if stopped then [r.active] else []) + r.gone == names
  {
    var from := |names| - done;
    if stopped {
      var set_ := NameSet(names) - NameSet(names[from - 1..]);
      forall i | 0 <= i < |names| ensures names[i] in set_ <==> i < from - 1 {
        if i >= from - 1 {
          assert names[from - 1..][i - (from - 1)] == names[i];
        } else {
          assert names[i] !in names[from - 1..];
        }
      }
      WaitingIsPrefix(names, set_, from - 1);
      assert names == names[..from - 1] + [names[from - 1]] + names[from..];
    } else {
      assert names[0..] == names;
    }
  }

  lemma {:induction false} NoneWaiting(names: seq<string>, waiting: set<string>)
    ensures StillWaiting(names, waiting) == [] <==> forall i :: 0 <= i < |names| ==> names[i] !in waiting
  {
    if names != [] {
      var n := |names| - 1;
      NoneWaiting(names[..n], waiting);
      assert forall i :: 0 <= i < n ==> names[..n][i] == names[i];
    }
  }

  /** Every phase before the stopping one shares its name with a phase already torn down or stopping. */
  predicate NamesHideWaiting(names: seq<string>, from: nat)
    requires 0 < from <= |names|
  {
    forall i :: 0 <= i < from - 1 ==> names[i] in names[from - 1..]
  }

  /**
   The report says complete exactly when every phase was torn down, or when the stopping phase has
   an empty name and no earlier name is left to wait for.
   */
  lemma ReportCompleteExactly(names: seq<string>, done: nat, stopped: bool)
    requires done + (if stopped then 1 else 0) <= |names| && (!stopped ==> done == |names|)
    ensures Report(names, done, stopped).IsComplete() <==>
            !stopped || (names[|names| - done - 1] == "" && NamesHideWaiting(names, |names| - done))
  {
    if stopped {
      var from := |names| - done;
      var tail := names[from - 1..];
      NoneWaiting(names, NameSet(names) - NameSet(tail));
      assert forall j :: from - 1 <= j < |names| ==> tail[j - (from - 1)] == names[j];
    }
  }

  /** Distinct, non-empty names rule the exception out: complete means every phase is gone. */
  lemma ReportCompleteForNamedPhases(names: seq<string>, done: nat, stopped: bool)
    requires "" !in names && done + (if stopped then 1 else 0) <= |names| && (!stopped ==> done == |names|)
    ensures Report(names, done, stopped).IsComplete() <==> !stopped
  {
    ReportCompleteExactly(names, done, stopped);
    if stopped {
      assert names[|names| - done - 1] in names;
    }
  }

  predicate AllComplete<W, O>(runs: seq<PhaseTeardown<W, O>>) {
    forall k :: 0 <= k < |runs| ==> runs[k].IsComplete()
  }

  lemma CompleteFirst<W, O>(run: PhaseTeardown<W, O>, rest: seq<PhaseTeardown<W, O>>)
    requires run.IsComplete()
    ensures Stopped([run] + rest) == Stopped(rest) && AllComplete([run] + rest) == AllComplete(rest)
    ensures rest != [] ==> Failed([run] + rest) == Failed(rest)
  {
    var runs := [run] + rest;
    assert forall k :: 0 < k < |runs| ==> runs[k] == rest[k - 1];
    assert forall k :: 0 <= k < |rest| ==> rest[k] == runs[k + 1];
  }

  lemma {:induction false} StopsOnlyIncomplete<W, O>(step: Step<W, O, bool>, w: W, phases: seq<Phase<O>>)
    requires !Failed(TornPhases(step, w, phases))
    ensures var runs := TornPhases(step, w, phases);
            |runs| <= |phases| && (!Stopped(runs) <==> |runs| == |phases| && AllComplete(runs))
    decreases |phases|
  {
    if phases != [] {
      var n := |phases| - 1;
      var run := TornPhase(step, w, phases[n]);
      if !run.failed && run.IsComplete() {
        CompleteFirst(run, TornPhases(step, run.world, phases[..n]));
        StopsOnlyIncomplete(step, run.world, phases[..n]);
      } else {
        assert TornPhases(step, w, phases)[0] == run;
      }
    }
  }

  /**
   An error-free teardown of distinctly named phases reports them in declared order as waiting,
   active and gone, and, when no name is empty, as complete exactly when every phase was torn
   down completely.
   */
  lemma TeardownReportIsExact<W, O>(step: Step<W, O, bool>, w: W, phases: seq<Phase<O>>)
    requires !Failed(TornPhases(step, w, phases))
    requires Distinct(PhaseNames(phases)) && "" !in PhaseNames(phases)
    ensures |TornPhases(step, w, phases)| <= |phases|
    ensures var runs, names := TornPhases(step, w, phases), PhaseNames(phases);
            var r := ReportOf(phases, runs);
            && r.waiting + (if Stopped(runs) then [r.active] else []) + r.gone == names
            && (r.IsComplete() <==> |runs| == |phases| && AllComplete(runs))
  {
    StopsOnlyIncomplete(step, w, phases);
    NamedReportIsExact(PhaseNames(phases), TornPhases(step, w, phases), phases);
  }

  lemma NamedReportIsExact<W, O>(names: seq<string>, runs: seq<PhaseTeardown<W, O>>, phases: seq<Phase<O>>)
    requires names == PhaseNames(phases) && Distinct(names) && "" !in names
    requires |runs| <= |phases| && (!Stopped(runs) ==> |runs| == |phases|)
    ensures var r := ReportOf(phases, runs);
            && r.waiting + (if Stopped(runs) then [r.active] else []) + r.gone == names
            && (r.IsComplete() <==> !Stopped(runs))
  {
    var done := if Stopped(runs) then |runs| - 1 else |runs|;
    TeardownPartitions(names, done, Stopped(runs));
    ReportCompleteForNamedPhases(names, done, Stopped(runs));
  }

  /** A phase with one object that still exists. */
  lemma OneObjectWaits<W, O>(step: Step<W, O, bool>, w: W, phase: Phase<O>)
    requires |phase.objects| == 1 && step(w, phase.objects[0]).1 == Produced(false)
    ensures var run := TornPhase(step, w, phase); !run.failed && run.waiting == phase.objects
  {
    var objects := phase.objects;
    var (w1, r) := step(w, objects[0]);
    assert objects[1..] == [] && objects == [objects[0]];
    assert [r] + [] == [r] && [r][..0] == [];
    assert Calls(step, w, objects, phase.aggregateErrors) == (w1, [r]);
    assert Select(objects, [r], false) == Select(objects, [], false) + [objects[0]];
  }

  /**
   A revision whose only phase has an empty name is reported torn down by the very call that was told
   its object still exists, whatever the object engine and the world are.
   */
  lemma UnnamedPhaseHidesWaiting<W, O>(step: Step<W, O, bool>, w: W, phase: Phase<O>)
    requires phase.name == "" && |phase.objects| == 1 && step(w, phase.objects[0]).1 == Produced(false)
    ensures var runs := TornPhases(step, w, [phase]);
            && |runs| == 1 && !runs[0].failed && runs[0].waiting == phase.objects && !runs[0].IsComplete()
            && ReportOf([phase], runs).IsComplete()
  {
    OneObjectWaits(step, w, phase);
    var run := TornPhase(step, w, phase);
    assert !run.IsComplete() && TornPhases(step, w, [phase]) == [run];
    UnnamedReport([phase], [run]);
  }

  lemma UnnamedReport<W, O>(phases: seq<Phase<O>>, runs: seq<PhaseTeardown<W, O>>)
    requires |phases| == 1 && phases[0].name == "" && |runs| == 1 && !runs[0].IsComplete()
    ensures ReportOf(phases, runs).IsComplete()
  {
    assert PhaseNames(phases) == [""] && Stopped(runs);
    ReportCompleteExactly([""], 0, true);
  }
}
