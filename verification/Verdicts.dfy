/**
 The verdict of every call of the object engine, stated by what is on the cluster: who controls the
 object, which revision it notes, which protection is configured. Nothing here speaks of the decision
 functions.
 */
module Verdicts {
  import opened Basics
  import opened OwnerRefs
  import opened Comparator
  import opened ObjectEngine
  import opened Reconciliation

  // ---------------------------------------------------------------- writing

  /** The live object as the apply finds it: after the migration, if one is needed. */
  function Migratable(e: Engine, live: Live, v: Live): Live {
    if NeedsMigration(v.managed, e.fieldOwner) then live.(managed := Migrated(live.managed, e.fieldOwner)) else live
  }

  /**
   A write succeeds exactly if the object exists at the version read, no other manager holds a field it
   would change unless it is forced, and the server accepts the merged owner references.
   */
  lemma WriteSucceedsExactly(e: Engine, w: World, d: Desired, v: Live, force: bool, keep: set<Uid>)
    ensures Written(e, w, d, v, force, keep).1.None? <==>
            && d.key in w.objects && w.objects[d.key].rv == v.rv
            && (force || !FieldsContested(e, Migratable(e, w.objects[d.key], v), d))
            && Acceptable(e.encoding, MergedRefs(e.encoding, w.objects[d.key].refs, d.refs, keep))
  {
    if d.key in w.objects && w.objects[d.key].rv == v.rv && NeedsMigration(v.managed, e.fieldOwner) {
      var base := Migratable(e, w.objects[d.key], v);
      var w1 := MigrateObject(e, w, d.key, v.rv).value;
      assert w1.objects[d.key] == base.(rv := w.nextRv);
      assert LiveContent(e.encoding, w1.objects[d.key]) == LiveContent(e.encoding, base);
      assert FieldsContested(e, w1.objects[d.key], d) <==> FieldsContested(e, base, d);
    }
  }

  /** The call writes this object, or would if it were not paused, and reports the action if that succeeds. */
  predicate Writes(e: Engine, w: World, d: Desired, v: Live, force: bool, opts: Options, keep: set<Uid>, action: Action,
                   r: (World, Outcome))
  {
    if opts.paused then r == (w, Done(action))
    else
      var (w', err) := Written(e, w, d, v, force, keep);
      r == (w', if err.Some? then Failed(err.value) else Done(action))
  }

  // ---------------------------------------------------------------- who is in control

  predicate WeControl(opts: Options, v: Live) {
    if opts.owner.Some? then IsControlledBy(v.refs, opts.owner.value) else !v.note.Missing?
  }

  predicate NobodyControls(opts: Options, v: Live) {
    if opts.owner.Some? then GetController(v.refs).None? else v.note.Missing?
  }

  predicate SiblingControls(opts: Options, v: Live) {
    && opts.owner.Some? && !IsControlledBy(v.refs, opts.owner.value)
    && GetController(v.refs).Some? && GetController(v.refs).value.uid in opts.siblings
  }

  predicate StrangerControls(opts: Options, v: Live) {
    && opts.owner.Some? && !IsControlledBy(v.refs, opts.owner.value)
    && GetController(v.refs).Some? && GetController(v.refs).value.uid !in opts.siblings
  }

  lemma ExactlyOneControls(opts: Options, v: Live)
    ensures CheckSituation(opts, v) == IsController <==> WeControl(opts, v)
    ensures CheckSituation(opts, v) == NoController <==> NobodyControls(opts, v)
    ensures CheckSituation(opts, v) == SiblingIsController <==> SiblingControls(opts, v)
    ensures CheckSituation(opts, v) == UnknownController <==> StrangerControls(opts, v)
  {
  }

  /** The prepared object, put under this owner beside the owners the live object has. */
  function TakenOver(d: Desired, v: Live, opts: Options): Desired
    requires OwnerResolves(opts)
  {
    if opts.owner.None? then d
    else
      TakeOverEffect(v.refs, opts.owner.value);
      d.(refs := TakeOver(v.refs, opts.owner.value).value)
  }

  /** What is decided when the object is read, whatever the comparison said. */
  lemma AdoptionBranches(cmp: CompareResult, revision: int, d: Desired, v: Live, opts: Options)
    requires OwnerResolves(opts) && d.note == Number(revision) && NoteRevision(v.note).Some? && !WeControl(opts, v)
    ensures var decision, noted := Decide(cmp, revision, d, v, opts), NoteRevision(v.note).value;
            var adopt, collide := Write(TakenOver(d, v, opts), true, Updated), Report(Collision);
            && (StrangerControls(opts, v) ==> decision == if opts.collision == NoProtection then adopt else collide)
            && (NobodyControls(opts, v) ==>
                  decision == if opts.collision == Prevent || !v.note.Missing? then collide else adopt)
            && (SiblingControls(opts, v) ==>
                  decision == if noted > revision then Report(Progressed) else if noted < revision then adopt
                  else collide)
  {
    ExactlyOneControls(opts, v);
    if opts.owner.Some? {
      TakeOverEffect(v.refs, opts.owner.value);
    }
    assert d.(note := Number(revision)) == d;
  }

  lemma ControlBranches(cmp: CompareResult, revision: int, d: Desired, v: Live, opts: Options)
    requires NoteRevision(v.note).Some? && WeControl(opts, v)
    ensures Decide(cmp, revision, d, v, opts) ==
            if cmp.IsConflict() then Write(d, true, Recovered)
            else if cmp.NeedsUpdate() then Write(d, false, Updated)
            else Report(Idle)
  {
    ExactlyOneControls(opts, v);
  }

  // ---------------------------------------------------------------- the verdicts

  /** What the call decides on: the cached object, or after a create collided what an uncached reader finds. */
  function DecidesOn(e: Engine, w: World, key: Key, cached: Option<Live>): Option<Live> {
    if cached.Some? then cached
    else if key in w.objects && e.hasUnfilteredReader then Some(w.objects[key])
    else None
  }

  /** The call on an object that was read carries out the decision about it. */
  lemma CallCarriesOut(e: Engine, w: World, revision: int, m: Manifest, d: Desired, opts: Options, cached: Option<Live>,
                       keep: set<Uid>, v: Live)
    requires Prepare(e, revision, m, opts) == Ok(d) && d.key == m.key && DecidesOn(e, w, m.key, cached) == Some(v)
    ensures var r := Reconciled(e, w, revision, m, opts, cached, keep);
            match DecideUpdate(e, revision, d, v, opts)
            case Report(action) => r == (w, Done(action))
            case Refuse(error) => r == (w, Failed(error))
            case Write(d', force, action) => Writes(e, w, d', v, force, opts, keep, action, r)
  {
  }

  lemma DecisionOnComparison(e: Engine, revision: int, d: Desired, v: Live, opts: Options)
    requires OwnerResolves(opts) && d.refs == OwnRefs(opts)
    ensures DecideUpdate(e, revision, d, v, opts) ==
            Decide(Comparing(e.fieldOwner, StripSet(e.hasStatus), DesiredContent(e.encoding, d),
                             LiveContent(e.encoding, v), v.managed), revision, d, v, opts)
  {
    CompareWithEffect(e, d, v, opts);
  }

  /**
   An object we do not control. A stranger keeps it unless there is no protection; if nobody controls it,
   it is left alone under prevention or if it notes a revision; from a sibling it is taken exactly if the
   noted revision is older, it is reported progressed if that is newer, and collides if it is our own.
   */
  lemma VerdictWithoutControl(e: Engine, w: World, revision: int, m: Manifest, opts: Options, cached: Option<Live>,
                              keep: set<Uid>, v: Live)
    requires OwnerResolves(opts) && revision != 0 && DecidesOn(e, w, m.key, cached) == Some(v)
    requires NoteRevision(v.note).Some? && !WeControl(opts, v)
    ensures Prepare(e, revision, m, opts).Ok?
    ensures var r, noted := Reconciled(e, w, revision, m, opts, cached, keep), NoteRevision(v.note).value;
            var d := TakenOver(Prepare(e, revision, m, opts).value, v, opts);
            && (r == (w, Done(Collision)) <==>
                  || (StrangerControls(opts, v) && opts.collision != NoProtection)
                  || (NobodyControls(opts, v) && (opts.collision == Prevent || !v.note.Missing?))
                  || (SiblingControls(opts, v) && noted == revision))
            && (r == (w, Done(Progressed)) <==> SiblingControls(opts, v) && noted > revision)
            && (r.1 in {Done(Collision), Done(Progressed)} || Writes(e, w, d, v, true, opts, keep, Updated, r))
  {
    PrepareEffect(e, revision, m, opts);
    var d := Prepare(e, revision, m, opts).value;
    DecisionOnComparison(e, revision, d, v, opts);
    AdoptionBranches(Comparing(e.fieldOwner, StripSet(e.hasStatus), DesiredContent(e.encoding, d),
                               LiveContent(e.encoding, v), v.managed), revision, d, v, opts);
    CallCarriesOut(e, w, revision, m, d, opts, cached, keep, v);
    ExactlyOneControls(opts, v);
  }

  /**
   An object we control: a conflict with another manager is recovered from by force, a difference without
   a conflict is applied without force, and otherwise nothing is done.
   */
  lemma VerdictWithControl(e: Engine, w: World, revision: int, m: Manifest, opts: Options, cached: Option<Live>,
                           keep: set<Uid>, v: Live)
    requires OwnerResolves(opts) && revision != 0 && DecidesOn(e, w, m.key, cached) == Some(v)
    requires NoteRevision(v.note).Some? && WeControl(opts, v)
    ensures Prepare(e, revision, m, opts).Ok?
    ensures var r, d := Reconciled(e, w, revision, m, opts, cached, keep), Prepare(e, revision, m, opts).value;
            var cmp := Comparing(e.fieldOwner, StripSet(e.hasStatus), DesiredContent(e.encoding, d),
                                 LiveContent(e.encoding, v), v.managed);
            if cmp.IsConflict() then Writes(e, w, d, v, true, opts, keep, Recovered, r)
            else if cmp.NeedsUpdate() then Writes(e, w, d, v, false, opts, keep, Updated, r)
            else r == (w, Done(Idle))
  {
    PrepareEffect(e, revision, m, opts);
    var d := Prepare(e, revision, m, opts).value;
    DecisionOnComparison(e, revision, d, v, opts);
    ControlBranches(Comparing(e.fieldOwner, StripSet(e.hasStatus), DesiredContent(e.encoding, d),
                              LiveContent(e.encoding, v), v.managed), revision, d, v, opts);
    CallCarriesOut(e, w, revision, m, d, opts, cached, keep, v);
  }

  /**
   The calls that end in an error before anything is written: a zero revision, a create that collides
   with an object no reader can find, and an annotation that cannot be read.
   */
  lemma VerdictErrors(e: Engine, w: World, revision: int, m: Manifest, opts: Options, cached: Option<Live>,
                      keep: set<Uid>)
    requires OwnerResolves(opts)
    ensures var r, read := Reconciled(e, w, revision, m, opts, cached, keep), DecidesOn(e, w, m.key, cached);
            && (r == (w, Failed(ZeroRevision)) <==> revision == 0)
            && (r == (w, Failed(CreateCollision)) <==> revision != 0 && read.None? && m.key in w.objects)
            && (r == (w, Failed(UnreadableRevision)) <==> revision != 0 && read.Some? && read.value.note == Garbled)
  {
    var read := DecidesOn(e, w, m.key, cached);
    if revision != 0 {
      PrepareEffect(e, revision, m, opts);
      var d := Prepare(e, revision, m, opts).value;
      if read.Some? {
        CallCarriesOut(e, w, revision, m, d, opts, cached, keep, read.value);
        DecisionOnComparison(e, revision, d, read.value, opts);
        var v := read.value;
        RefusalExactly(Comparing(e.fieldOwner, StripSet(e.hasStatus), DesiredContent(e.encoding, d),
                                 LiveContent(e.encoding, v), v.managed), revision, d, v, opts);
        WriteErrorsAreApiErrors(e, w, revision, d, read.value, opts, keep);
      }
    }
  }

  lemma RefusalExactly(cmp: CompareResult, revision: int, d: Desired, v: Live, opts: Options)
    requires OwnerResolves(opts)
    ensures var decision := Decide(cmp, revision, d, v, opts);
            (decision == Refuse(UnreadableRevision) <==> v.note == Garbled) && (decision.Refuse? ==> v.note == Garbled)
  {
    if opts.owner.Some? {
      TakeOverEffect(v.refs, opts.owner.value);
    }
  }

  lemma WriteErrorsAreApiErrors(e: Engine, w: World, revision: int, d: Desired, v: Live, opts: Options, keep: set<Uid>)
    ensures var decision := DecideUpdate(e, revision, d, v, opts);
            decision.Write? ==>
              var err := Written(e, w, decision.d, v, decision.force, keep).1; err.Some? ==> err.value.Api?
  {
  }

  // ---------------------------------------------------------------- tearing down

  predicate Orphans(opts: TeardownOptions) {
    opts.orphan || (opts.owner.Some? && opts.ownerOrphansDependents)
  }

  /** The version read is this teardown's to delete. */
  predicate OursToDelete(revision: int, v: Live, opts: TeardownOptions) {
    if opts.owner.Some? then IsControlledBy(v.refs, opts.owner.value) else NoteRevision(v.note) == Some(revision)
  }

  /**
   The verdict of every teardown. Orphaning never deletes and counts as gone, and so does an object that
   was not found. What is ours is deleted at the version read. Of what is not, an owner only takes itself
   off the list, and a revision without an owner leaves it alone.
   */
  lemma TeardownVerdict(w: World, revision: int, key: Key, cached: Option<Live>, opts: TeardownOptions)
    ensures var r := TornDown(w, revision, key, cached, opts);
            if revision == 0 then r == (w, false, Some(ZeroRevision))
            else if Orphans(opts) || cached.None? then r == (w, true, None)
            else if OursToDelete(revision, cached.value, opts) then
              if key !in w.objects then r == (w, true, None)
              else if w.objects[key].uid == cached.value.uid && w.objects[key].rv == cached.value.rv then
                r == (w.(objects := w.objects - {key}), false, None)
              else r == (w, false, Some(Api(VersionConflict)))
            else if opts.owner.None? then
              r == if NoteRevision(cached.value.note).None? then (w, false, Some(UnreadableRevision))
              else (w, true, None)
            else if key !in w.objects then r == (w, true, Some(Api(NotFound)))
            else if !IsOwner(cached.value.refs, opts.owner.value) then r == (w, true, None)
            else
              var left := w.objects[key].(refs := RemoveOwner(cached.value.refs, opts.owner.value), rv := w.nextRv);
              r == (World(w.objects[key := left], w.nextRv + 1, w.nextUid), true, None)
  {
    if cached.Some? && opts.owner.Some? {
      TeardownSituation(cached.value.refs, opts.owner.value);
    }
  }

  lemma TeardownSituation(refs: seq<OwnerRef>, owner: Owner)
    ensures DetectOwner(refs, owner, {}) == IsController <==> IsControlledBy(refs, owner)
  {
  }

  /**
   A teardown makes an object disappear exactly when nothing orphans and it read the current version,
   which is its to delete. It does not yet report such an object gone.
   */
  lemma TeardownDeletesExactly(w: World, revision: int, key: Key, cached: Option<Live>, opts: TeardownOptions)
    requires key in w.objects
    ensures key !in TornDown(w, revision, key, cached, opts).0.objects <==>
            && revision != 0 && !Orphans(opts) && cached.Some?
            && cached.value.uid == w.objects[key].uid && cached.value.rv == w.objects[key].rv
            && OursToDelete(revision, cached.value, opts)
    ensures key !in TornDown(w, revision, key, cached, opts).0.objects ==> !TornDown(w, revision, key, cached, opts).1
  {
    TeardownVerdict(w, revision, key, cached, opts);
  }
}
