/**
 A paused reconcile as a dry run: over one object, and over a whole phase run by the phase loop
 (machinery/objects.go, machinery/phases.go).
 */
module DryRun {
  import opened Basics
  import opened OwnerRefs
  import opened Comparator
  import opened ObjectEngine
  import opened Rollout

  function Lookup(w: World, key: Key): Option<Live> {
    if key in w.objects then Some(w.objects[key]) else None
  }

  lemma WrittenIsLocal(e: Engine, w: World, d: Desired, v: Live, force: bool, keep: set<Uid>, other: Key)
    requires other != d.key
    ensures Lookup(Written(e, w, d, v, force, keep).0, other) == Lookup(w, other)
  {
  }

  /** A reconcile never touches another key. */
  lemma OnlyOwnKeyChanges(e: Engine, w: World, revision: int, m: Manifest, opts: Options, cached: Option<Live>,
                          keep: set<Uid>, other: Key)
    requires other != m.key
    ensures Lookup(Reconciled(e, w, revision, m, opts, cached, keep).0, other) == Lookup(w, other)
  {
    var prepared := Prepare(e, revision, m, opts);
    if prepared.Ok? && (cached.Some? || m.key in w.objects) {
      var v := if cached.Some? then cached.value else w.objects[m.key];
      var decision := DecideUpdate(e, revision, prepared.value, v, opts);
      if decision.Write? {
        assert decision.d.key == m.key by {
          WriteTargetsKey(e, revision, prepared.value, v, opts);
        }
        WrittenIsLocal(e, w, decision.d, v, decision.force, keep, other);
      }
    }
  }

  lemma WriteTargetsKey(e: Engine, revision: int, d: Desired, v: Live, opts: Options)
    ensures var decision := DecideUpdate(e, revision, d, v, opts); decision.Write? ==> decision.d.key == d.key
  {
  }

  /** Pausing does not change what is decided. */
  lemma PauseKeepsDecision(e: Engine, revision: int, d: Desired, v: Live, opts: Options, paused: bool)
    ensures DecideUpdate(e, revision, d, v, opts.(paused := paused)) == DecideUpdate(e, revision, d, v, opts)
  {
  }

  /** A paused reconcile never changes the world, whatever it is asked to do and whatever the cache says. */
  lemma PausedWritesNothing(e: Engine, w: World, revision: int, m: Manifest, opts: Options, cached: Option<Live>,
                            keep: set<Uid>)
    requires opts.paused
    ensures Reconciled(e, w, revision, m, opts, cached, keep).0 == w
  {
  }

  /**
   Whatever the cache says, a paused reconcile reports the action the unpaused one takes when its writes
   are accepted. Only the object's own key matters, so the two may start from worlds that differ elsewhere.
   */
  lemma PausedReportsTheAction(e: Engine, w: World, w': World, revision: int, m: Manifest, opts: Options,
                               cached: Option<Live>, keep: set<Uid>, keep': set<Uid>)
    requires Lookup(w, m.key) == Lookup(w', m.key)
    ensures var dry := Reconciled(e, w', revision, m, opts.(paused := true), cached, keep');
            var wet := Reconciled(e, w, revision, m, opts.(paused := false), cached, keep);
            dry.0 == w' && (wet.1.Done? ==> dry.1 == wet.1)
  {
    PausedWritesNothing(e, w', revision, m, opts.(paused := true), cached, keep');
    var prepared := Prepare(e, revision, m, opts);
    assert Prepare(e, revision, m, opts.(paused := true)) == prepared;
    assert Prepare(e, revision, m, opts.(paused := false)) == prepared;
    if prepared.Ok? && (cached.Some? || m.key in w.objects) {
      var v := if cached.Some? then cached.value else w.objects[m.key];
      PauseKeepsDecision(e, revision, prepared.value, v, opts, true);
      PauseKeepsDecision(e, revision, prepared.value, v, opts, false);
    }
  }

  // ---------------------------------------------------------------- a whole phase

  /** The object engine with the options of each object, reading the cluster as it is. */
  function EngineStep(e: Engine, revision: int, opts: Manifest -> Options, keep: Key -> set<Uid>, paused: bool)
    : Step<World, Manifest, Action>
  {
    (w: World, m: Manifest) =>
      var (w', out) := Reconciled(e, w, revision, m, opts(m).(paused := paused), Lookup(w, m.key), keep(m.key));
      (w', if out.Done? then Produced(out.action) else Failure(false))
  }

  predicate DistinctKeys(objects: seq<Manifest>) {
    forall i, j :: 0 <= i < j < |objects| ==> objects[i].key != objects[j].key
  }

  /** A paused phase leaves the whole cluster unchanged: whatever its objects are, and whether calls fail or not. */
  lemma {:induction false} PausedPhaseWritesNothing(e: Engine, w: World, revision: int, objects: seq<Manifest>,
                                                    opts: Manifest -> Options, keep: Key -> set<Uid>, aggregate: bool)
    ensures Calls(EngineStep(e, revision, opts, keep, true), w, objects, aggregate).0 == w
    decreases |objects|
  {
    if objects != [] {
      var m := objects[0];
      PausedWritesNothing(e, w, revision, m, opts(m).(paused := true), Lookup(w, m.key), keep(m.key));
      PausedPhaseWritesNothing(e, w, revision, objects[1..], opts, keep, aggregate);
    }
  }

  /**
   For objects with distinct keys, a paused phase reports the same actions in the same order as the
   unpaused phase, when no call of the latter fails.
   */
  lemma {:induction false} PausedPhaseIsDryRun(e: Engine, w: World, w': World, revision: int, objects: seq<Manifest>,
                                               opts: Manifest -> Options, keep: Key -> set<Uid>, aggregate: bool)
    requires DistinctKeys(objects)
    requires forall i :: 0 <= i < |objects| ==> Lookup(w, objects[i].key) == Lookup(w', objects[i].key)
    requires !AnyFailure(Calls(EngineStep(e, revision, opts, keep, false), w, objects, aggregate).1)
    ensures Calls(EngineStep(e, revision, opts, keep, true), w', objects, aggregate) ==
            (w', Calls(EngineStep(e, revision, opts, keep, false), w, objects, aggregate).1)
    decreases |objects|
  {
    if objects != [] {
      var wet, dry := EngineStep(e, revision, opts, keep, false), EngineStep(e, revision, opts, keep, true);
      var m, rest := objects[0], objects[1..];
      CleanFirst(wet, w, objects, aggregate);
      PausedReportsTheAction(e, w, w', revision, m, opts(m), Lookup(w, m.key), keep(m.key), keep(m.key));
      var (w1, r) := wet(w, m);
      assert dry(w', m) == (w', r);
      forall i | 0 <= i < |rest| ensures Lookup(w1, rest[i].key) == Lookup(w', rest[i].key) {
        assert rest[i] == objects[i + 1];
        OnlyOwnKeyChanges(e, w, revision, m, opts(m).(paused := false), Lookup(w, m.key), keep(m.key), rest[i].key);
      }
      PausedPhaseIsDryRun(e, w1, w', revision, rest, opts, keep, aggregate);
    }
  }
}
