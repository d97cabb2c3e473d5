/**
 What a whole rollout or teardown has achieved on the cluster when it is reported complete: the phase
 and revision loops run over the object engine, reading current versions.
 */
module Outcomes {
  import opened Basics
  import opened OwnerRefs
  import opened Comparator
  import opened ObjectEngine
  import opened Reconciliation
  import opened Results
  import opened Rollout
  import opened DryRun
  import T = Teardown

  // ---------------------------------------------------------------- rolling out

  /** What is configured for the rollout: options, merge outcomes and probes per object. */
  datatype Setting = Setting(e: Engine, revision: int, opts: Manifest -> Options, keep: Key -> set<Uid>,
                             probe: (World, Manifest) -> Option<ProbeStatus>)

  predicate Usable(c: Setting, m: Manifest) {
    OwnerResolves(c.opts(m)) && !c.opts(m).paused && c.revision != 0
  }

  function ReconcileStep(c: Setting): Step<World, Manifest, ObjectResult> {
    (w: World, m: Manifest) =>
      var (w', out) := Reconciled(c.e, w, c.revision, m, c.opts(m), Lookup(w, m.key), c.keep(m.key));
      (w', if out.Done? then Produced(ObjectResult(out.action, c.opts(m).paused, c.probe(w', m))) else Failure(false))
  }

  /**
   The object exists and this revision has nothing left to do about it: it is settled, or controlled and
   compared without a difference, or a sibling controls it and notes a newer revision.
   */
  predicate AtRest(c: Setting, w: World, m: Manifest)
    requires Usable(c, m)
  {
    PrepareEffect(c.e, c.revision, m, c.opts(m));
    var d := Prepare(c.e, c.revision, m, c.opts(m)).value;
    m.key in w.objects &&
    var v := w.objects[m.key];
    || Settled(c.e, d, v, c.opts(m))
    || DecideUpdate(c.e, c.revision, d, v, c.opts(m)) == Report(Idle)
    || (CheckSituation(c.opts(m), v) == SiblingIsController && NoteRevision(v.note).Some? &&
        NoteRevision(v.note).value > c.revision)
  }

  lemma ProgressedMeansNewer(cmp: CompareResult, revision: int, d: Desired, v: Live, opts: Options)
    requires Decide(cmp, revision, d, v, opts) == Report(Progressed)
    ensures CheckSituation(opts, v) == SiblingIsController && NoteRevision(v.note).Some?
    ensures NoteRevision(v.note).value > revision
  {
  }

  /** A call that succeeds without a collision leaves its object at rest. */
  lemma CallRests(c: Setting, w: World, m: Manifest)
    requires Usable(c, m)
    requires var r := ReconcileStep(c)(w, m).1; r.Produced? && r.result.action != Collision
    ensures AtRest(c, ReconcileStep(c)(w, m).0, m)
  {
    var opts, cached := c.opts(m), Lookup(w, m.key);
    PrepareEffect(c.e, c.revision, m, opts);
    var d := Prepare(c.e, c.revision, m, opts).value;
    var (w', out) := Reconciled(c.e, w, c.revision, m, opts, cached, c.keep(m.key));
    if out in {Done(Created), Done(Updated), Done(Recovered)} {
      WriteSettles(c.e, w, c.revision, m, d, opts, cached, c.keep(m.key));
    } else {
      ReportsLeaveWorld(c.e, w, c.revision, m, d, opts, c.keep(m.key));
    }
  }

  lemma ReportsLeaveWorld(e: Engine, w: World, revision: int, m: Manifest, d: Desired, opts: Options, keep: set<Uid>)
    requires Prepare(e, revision, m, opts) == Ok(d) && d.key == m.key && !opts.paused
    requires Reconciled(e, w, revision, m, opts, Lookup(w, m.key), keep).1 in {Done(Idle), Done(Progressed)}
    ensures m.key in w.objects && Reconciled(e, w, revision, m, opts, Lookup(w, m.key), keep).0 == w
    ensures var v := w.objects[m.key];
            || DecideUpdate(e, revision, d, v, opts) == Report(Idle)
            || (CheckSituation(opts, v) == SiblingIsController && NoteRevision(v.note).Some? &&
                NoteRevision(v.note).value > revision)
  {
    var v := w.objects[m.key];
    var decision := DecideUpdate(e, revision, d, v, opts);
    WritesAreNoReports(CompareWith(e, d, v, opts), revision, d, v, opts);
    if decision == Report(Progressed) {
      ProgressedMeansNewer(CompareWith(e, d, v, opts).value, revision, d, v, opts);
    }
  }

  lemma WritesAreNoReports(cmp: Result<CompareResult, Error>, revision: int, d: Desired, v: Live, opts: Options)
    ensures cmp.Ok? && Decide(cmp.value, revision, d, v, opts).Write? ==>
              Decide(cmp.value, revision, d, v, opts).action in {Updated, Recovered}
  {
  }

  /** At some moment the object was at rest, and its progress probe, if it has one, answered True. */
  ghost predicate Probed(c: Setting, m: Manifest)
    requires Usable(c, m)
  {
    exists w :: AtRest(c, w, m) && (c.probe(w, m).None? || c.probe(w, m) == Some(ProbeTrue))
  }

  /** Calls on other keys leave the object where it is. */
  lemma {:induction false} CallsLeaveOthers(c: Setting, w: World, objects: seq<Manifest>, aggregate: bool, key: Key)
    requires forall i :: 0 <= i < |objects| ==> objects[i].key != key
    ensures Lookup(Calls(ReconcileStep(c), w, objects, aggregate).0, key) == Lookup(w, key)
    decreases |objects|
  {
    if objects != [] {
      var m := objects[0];
      OnlyOwnKeyChanges(c.e, w, c.revision, m, c.opts(m), Lookup(w, m.key), c.keep(m.key), key);
      CallsLeaveOthers(c, ReconcileStep(c)(w, m).0, objects[1..], aggregate, key);
    }
  }

  lemma RestIsLocal(c: Setting, w: World, w': World, m: Manifest)
    requires Usable(c, m) && AtRest(c, w, m) && Lookup(w', m.key) == Lookup(w, m.key)
    ensures AtRest(c, w', m)
  {
  }

  /** A run of a phase without failures and collisions leaves all of its objects at rest. */
  lemma {:induction false} PhaseRests(c: Setting, w: World, objects: seq<Manifest>, aggregate: bool, o: nat)
    requires DistinctKeys(objects) && (forall m :: m in objects ==> Usable(c, m)) && o < |objects|
    requires var calls := Calls(ReconcileStep(c), w, objects, aggregate).1;
             !AnyFailure(calls) && forall i :: 0 <= i < |calls| ==> Succeeded(calls[i])
    ensures AtRest(c, Calls(ReconcileStep(c), w, objects, aggregate).0, objects[o])
    ensures Probed(c, objects[o])
    decreases |objects|
  {
    var step, m, rest := ReconcileStep(c), objects[0], objects[1..];
    CleanFirst(step, w, objects, aggregate);
    var (w1, r) := step(w, m);
    var all, tail := Calls(step, w, objects, aggregate).1, Calls(step, w1, rest, aggregate).1;
    assert all[0] == r && forall i :: 0 <= i < |tail| ==> tail[i] == all[i + 1];
    if o == 0 {
      assert Succeeded(all[0]);
      CallRests(c, w, m);
      assert AtRest(c, w1, m) && r.result.progress == c.probe(w1, m);
      CallsLeaveOthers(c, w1, rest, aggregate, m.key);
      RestIsLocal(c, w1, Calls(step, w1, rest, aggregate).0, m);
    } else {
      PhaseRests(c, w1, rest, aggregate, o - 1);
    }
  }

  function Flatten(phases: seq<Phase<Manifest>>): seq<Manifest> {
    if phases == [] then [] else phases[0].objects + Flatten(phases[1..])
  }

  function WorldAfter(w: World, runs: seq<PhaseRun<World>>): World {
    if runs == [] then w else runs[|runs| - 1].world
  }

  lemma {:induction false} PhasesLeaveOthers(v: (World, Phase<Manifest>) -> Verdict, c: Setting, w: World,
                                             phases: seq<Phase<Manifest>>, key: Key)
    requires forall i :: 0 <= i < |Flatten(phases)| ==> Flatten(phases)[i].key != key
    ensures Lookup(WorldAfter(w, RolledOut(Machinery(v, ReconcileStep(c)), w, phases)), key) == Lookup(w, key)
    decreases |phases|
  {
    if phases != [] {
      var m, p, later := Machinery(v, ReconcileStep(c)), phases[0], Flatten(phases[1..]);
      FlattenParts(phases);
      CallsLeaveOthers(c, w, p.objects, p.aggregateErrors, key);
      var run := ReconciledPhase(m, w, p);
      assert Lookup(run.world, key) == Lookup(w, key);
      if !run.failed && run.result.IsComplete() {
        PhasesLeaveOthers(v, c, run.world, phases[1..], key);
        LastWorld(run, w, RolledOut(m, run.world, phases[1..]));
      }
    }
  }

  lemma FlattenParts(phases: seq<Phase<Manifest>>)
    requires phases != []
    ensures var all, p, later := Flatten(phases), phases[0].objects, Flatten(phases[1..]);
            && |all| == |p| + |later|
            && (forall i :: 0 <= i < |p| ==> all[i] == p[i])
            && (forall i :: 0 <= i < |later| ==> all[|p| + i] == later[i])
  {
  }

  lemma LastWorld(run: PhaseRun<World>, w: World, rest: seq<PhaseRun<World>>)
    ensures WorldAfter(w, [run] + rest) == WorldAfter(run.world, rest)
  {
  }

  /**
   A revision that is reported complete, of objects with distinct keys, has left every object of every
   phase at rest on the cluster, and saw every progress probe answer True.
   */
  lemma {:induction false} CompleteRolloutRests(v: (World, Phase<Manifest>) -> Verdict, c: Setting, w: World,
                                                phases: seq<Phase<Manifest>>, k: nat, o: nat)
    requires DistinctKeys(Flatten(phases)) && forall m :: m in Flatten(phases) ==> Usable(c, m)
    requires k < |phases| && o < |phases[k].objects|
    requires var runs := RolledOut(Machinery(v, ReconcileStep(c)), w, phases);
             RevisionResult(PhaseNames(phases), ResultsOf(runs), false).IsComplete()
    ensures phases[k].objects[o] in Flatten(phases)
    ensures AtRest(c, WorldAfter(w, RolledOut(Machinery(v, ReconcileStep(c)), w, phases)), phases[k].objects[o])
    ensures Probed(c, phases[k].objects[o])
    decreases |phases|
  {
    var m, p := Machinery(v, ReconcileStep(c)), phases[0];
    var run := ReconciledPhase(m, w, p);
    var rest := RolledOut(m, run.world, phases[1..]);
    FlattenParts(phases);
    CompleteFirst(m, w, phases);
    LastWorld(run, w, rest);
    if k == 0 {
      assert Flatten(phases)[o] == p.objects[o];
      PhaseDistinct(phases);
      PhaseRests(c, w, p.objects, p.aggregateErrors, o);
      PhasesLeaveOthers(v, c, run.world, phases[1..], p.objects[o].key);
      RestIsLocal(c, run.world, WorldAfter(run.world, rest), p.objects[o]);
    } else {
      assert forall x :: x in Flatten(phases[1..]) ==> x in Flatten(phases);
      CompleteRolloutRests(v, c, run.world, phases[1..], k - 1, o);
    }
  }

  /** The objects of the first phase, and those after it, have distinct keys, and no key in common. */
  lemma PhaseDistinct(phases: seq<Phase<Manifest>>)
    requires phases != [] && DistinctKeys(Flatten(phases))
    ensures DistinctKeys(phases[0].objects) && DistinctKeys(Flatten(phases[1..]))
    ensures forall o, i :: 0 <= o < |phases[0].objects| && 0 <= i < |Flatten(phases[1..])| ==>
              Flatten(phases[1..])[i].key != phases[0].objects[o].key
  {
    FlattenParts(phases);
  }

  /** The first phase of a complete rollout ran through, and the rest of it is complete. */
  lemma CompleteFirst(m: Machinery<World, Manifest>, w: World, phases: seq<Phase<Manifest>>)
    requires phases != [] && RevisionResult(PhaseNames(phases), ResultsOf(RolledOut(m, w, phases)), false).IsComplete()
    ensures var run := ReconciledPhase(m, w, phases[0]);
            && RanThrough(phases[0], run) && !run.failed && run.result.IsComplete()
            && RolledOut(m, w, phases) == [run] + RolledOut(m, run.world, phases[1..])
            && var runs := RolledOut(m, run.world, phases[1..]);
               RevisionResult(PhaseNames(phases[1..]), ResultsOf(runs), false).IsComplete()
  {
    CompleteIsExact(m, w, phases);
    var run := ReconciledPhase(m, w, phases[0]);
    assert RolledOut(m, w, phases)[0] == run;
    RanThroughExactly(m, w, phases[0]);
    CompleteIsExact(m, run.world, phases[1..]);
    FirstRanThrough(phases, run, RolledOut(m, run.world, phases[1..]));
  }

  // ---------------------------------------------------------------- tearing down

  function TeardownStep(revision: int, opts: Key -> TeardownOptions): Step<World, Key, bool> {
    (w: World, key: Key) =>
      var (w', gone, err) := TornDown(w, revision, key, Lookup(w, key), opts(key));
      (w', if err.Some? then Failure(false) else Produced(gone))
  }

  /** Deletes for real, on behalf of an owner that can be resolved or of no owner. */
  predicate Deleting(opts: TeardownOptions) {
    !opts.orphan && !opts.ownerOrphansDependents && (opts.owner.Some? ==> Resolvable(opts.owner.value))
  }

  /** Owner lists on the cluster are well formed. */
  predicate Tidy(w: World) {
    forall k :: k in w.objects ==> WellFormed(w.objects[k].refs)
  }

  /** Nothing of the owner is left under the key; without an owner, nothing that notes the revision. */
  predicate Released(w: World, revision: int, key: Key, opts: TeardownOptions) {
    key in w.objects ==>
      if opts.owner.Some? then !IsOwner(w.objects[key].refs, opts.owner.value)
      else NoteRevision(w.objects[key].note) != Some(revision)
  }

  /** A teardown call leaves other keys alone, and lists well formed. */
  lemma TeardownIsLocal(w: World, revision: int, key: Key, cached: Option<Live>, opts: TeardownOptions, other: Key)
    requires other != key
    ensures Lookup(TornDown(w, revision, key, cached, opts).0, other) == Lookup(w, other)
  {
  }

  lemma TeardownKeepsTidy(w: World, revision: int, key: Key, opts: TeardownOptions)
    requires Tidy(w)
    ensures Tidy(TornDown(w, revision, key, Lookup(w, key), opts).0)
  {
    var w' := TornDown(w, revision, key, Lookup(w, key), opts).0;
    forall k | k in w'.objects ensures WellFormed(w'.objects[k].refs) {
      if k != key {
        TeardownIsLocal(w, revision, key, Lookup(w, key), opts, k);
        assert Lookup(w', k) == Some(w'.objects[k]);
      } else if opts.owner.Some? {
        EditKeepsWellFormed(w.objects[k].refs, Drop(opts.owner.value));
      }
    }
  }

  /** What has been released stays so, whichever object is torn down next. */
  lemma TeardownKeepsReleased(w: World, revision: int, key: Key, opts: Key -> TeardownOptions, other: Key)
    requires Deleting(opts(key)) && Released(w, revision, other, opts(other))
    ensures Released(TornDown(w, revision, key, Lookup(w, key), opts(key)).0, revision, other, opts(other))
  {
    if other != key {
      TeardownIsLocal(w, revision, key, Lookup(w, key), opts(key), other);
    } else if key in w.objects && opts(key).owner.Some? {
      ControlIsOwnership(w.objects[key].refs, opts(key).owner.value);
    }
  }

  lemma ControlIsOwnership(refs: seq<OwnerRef>, owner: Owner)
    ensures IsControlledBy(refs, owner) ==> IsOwner(refs, owner)
  {
  }

  lemma {:induction false} TeardownsKeepReleased(revision: int, opts: Key -> TeardownOptions, w: World, keys: seq<Key>,
                                                 aggregate: bool, other: Key)
    requires (forall k :: k in keys ==> Deleting(opts(k))) && Released(w, revision, other, opts(other))
    ensures Released(Calls(TeardownStep(revision, opts), w, keys, aggregate).0, revision, other, opts(other))
    decreases |keys|
  {
    if keys != [] {
      TeardownKeepsReleased(w, revision, keys[0], opts, other);
      TeardownsKeepReleased(revision, opts, TeardownStep(revision, opts)(w, keys[0]).0, keys[1..], aggregate, other);
    }
  }

  lemma {:induction false} TeardownsKeepTidy(revision: int, opts: Key -> TeardownOptions, w: World, keys: seq<Key>,
                                             aggregate: bool)
    requires Tidy(w)
    ensures Tidy(Calls(TeardownStep(revision, opts), w, keys, aggregate).0)
    decreases |keys|
  {
    if keys != [] {
      TeardownKeepsTidy(w, revision, keys[0], opts(keys[0]));
      TeardownsKeepTidy(revision, opts, TeardownStep(revision, opts)(w, keys[0]).0, keys[1..], aggregate);
    }
  }

  /** A phase whose objects were all reported gone has released them all, also if keys repeat. */
  lemma {:induction false} PhaseReleases(revision: int, opts: Key -> TeardownOptions, w: World, keys: seq<Key>,
                                         aggregate: bool, o: nat)
    requires Tidy(w) && (forall k :: k in keys ==> Deleting(opts(k))) && o < |keys|
    requires var calls := Calls(TeardownStep(revision, opts), w, keys, aggregate).1;
             !AnyFailure(calls) && forall i :: 0 <= i < |calls| ==> calls[i] == Produced(true)
    ensures Released(Calls(TeardownStep(revision, opts), w, keys, aggregate).0, revision, keys[o], opts(keys[o]))
    decreases |keys|
  {
    var step, key, rest := TeardownStep(revision, opts), keys[0], keys[1..];
    CleanFirst(step, w, keys, aggregate);
    var (w1, r) := step(w, key);
    var all, tail := Calls(step, w, keys, aggregate).1, Calls(step, w1, rest, aggregate).1;
    assert all[0] == r && forall i :: 0 <= i < |tail| ==> tail[i] == all[i + 1];
    if o == 0 {
      GoneMeansReleased(w, revision, key, opts(key));
      TeardownsKeepReleased(revision, opts, w1, rest, aggregate, key);
    } else {
      TeardownKeepsTidy(w, revision, key, opts(key));
      PhaseReleases(revision, opts, w1, rest, aggregate, o - 1);
    }
  }

  function WorldAfterTeardown(w: World, runs: seq<T.PhaseTeardown<World, Key>>): World {
    if runs == [] then w else runs[|runs| - 1].world
  }

  predicate AllDeleting(opts: Key -> TeardownOptions, phases: seq<Phase<Key>>) {
    forall i, k :: 0 <= i < |phases| && k in phases[i].objects ==> Deleting(opts(k))
  }

  lemma {:induction false} PhasesKeepReleased(revision: int, opts: Key -> TeardownOptions, w: World,
                                              phases: seq<Phase<Key>>, other: Key)
    requires AllDeleting(opts, phases) && Released(w, revision, other, opts(other))
    ensures var runs := T.TornPhases(TeardownStep(revision, opts), w, phases);
            Released(WorldAfterTeardown(w, runs), revision, other, opts(other))
    decreases |phases|
  {
    if phases != [] {
      var n, step := |phases| - 1, TeardownStep(revision, opts);
      var p, run := phases[n], T.TornPhase(step, w, phases[n]);
      TeardownsKeepReleased(revision, opts, w, p.objects, p.aggregateErrors, other);
      if !run.failed && run.IsComplete() {
        PhasesKeepReleased(revision, opts, run.world, phases[..n], other);
        LastTeardownWorld(run, w, T.TornPhases(step, run.world, phases[..n]));
      }
    }
  }

  lemma LastTeardownWorld(run: T.PhaseTeardown<World, Key>, w: World, rest: seq<T.PhaseTeardown<World, Key>>)
    ensures WorldAfterTeardown(w, [run] + rest) == WorldAfterTeardown(run.world, rest)
  {
  }

  /** A revision all of whose phases were torn down completely has released every object. */
  lemma {:induction false} TornPhasesRelease(revision: int, opts: Key -> TeardownOptions, w: World,
                                             phases: seq<Phase<Key>>, k: nat, o: nat)
    requires Tidy(w) && AllDeleting(opts, phases) && k < |phases| && o < |phases[k].objects|
    requires var runs := T.TornPhases(TeardownStep(revision, opts), w, phases);
             |runs| == |phases| && T.AllComplete(runs) && !T.Failed(runs)
    ensures var key, runs := phases[k].objects[o], T.TornPhases(TeardownStep(revision, opts), w, phases);
            Released(WorldAfterTeardown(w, runs), revision, key, opts(key))
    decreases |phases|
  {
    var n, step := |phases| - 1, TeardownStep(revision, opts);
    var p, run := phases[n], T.TornPhase(step, w, phases[n]);
    var runs, rest := T.TornPhases(step, w, phases), T.TornPhases(step, run.world, phases[..n]);
    assert runs[0] == run && run.IsComplete();
    assert !run.failed && runs == [run] + rest;
    T.CompleteFirst(run, rest);
    LastTeardownWorld(run, w, rest);
    if k == n {
      T.CompleteMeansGone(step, w, p);
      PhaseReleases(revision, opts, w, p.objects, p.aggregateErrors, o);
      PhasesKeepReleased(revision, opts, run.world, phases[..n], p.objects[o]);
    } else {
      TeardownsKeepTidy(revision, opts, w, p.objects, p.aggregateErrors);
      TornPhasesRelease(revision, opts, run.world, phases[..n], k, o);
    }
  }

  /**
   A teardown of distinctly named phases that is reported complete has left nothing of the owner under
   any of the revision's keys, whether keys repeat or not.
   */
  lemma CompleteTeardownReleases(revision: int, opts: Key -> TeardownOptions, w: World, phases: seq<Phase<Key>>, k: nat,
                                 o: nat)
    requires Tidy(w) && AllDeleting(opts, phases) && k < |phases| && o < |phases[k].objects|
    requires T.Distinct(PhaseNames(phases)) && "" !in PhaseNames(phases)
    requires var runs := T.TornPhases(TeardownStep(revision, opts), w, phases);
             !T.Failed(runs) && |runs| <= |phases| && T.ReportOf(phases, runs).IsComplete()
    ensures var key, runs := phases[k].objects[o], T.TornPhases(TeardownStep(revision, opts), w, phases);
            Released(WorldAfterTeardown(w, runs), revision, key, opts(key))
  {
    T.TeardownReportIsExact(TeardownStep(revision, opts), w, phases);
    TornPhasesRelease(revision, opts, w, phases, k, o);
  }
}
