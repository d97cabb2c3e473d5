/**
 What a removal patch that arrives late can do to delete safety between revisions
 (machinery/objects.go:154-198): the owner list it restores makes an older revision controller again,
 and that revision's teardown may then delete an object a newer revision had taken over.
 */
module StaleDelete {
  import opened Basics
  import opened OwnerRefs
  import opened Comparator
  import opened ObjectEngine
  import opened Reconciliation
  import opened Handover
  import opened HandoverSafety
  import opened Linearity
  import opened StalePatch

  // ---------------------------------------------------------------- the patch hands the object back

  /** No removal patch arrives. */
  predicate NoPatches(steps: seq<Step>) {
    forall i :: 0 <= i < |steps| && steps[i].Deliver? ==> !steps[i].req.PatchReq?
  }

  /** The state after a removal patch has arrived. */
  lemma PatchArrives(fam: Family, s: State, req: Request, e: Engine)
    requires Grounded(fam, s) && ValidFamily(fam) && req in s.pending && req.PatchReq? && req.key in s.world.objects
    ensures var v, s' := s.world.objects[req.key], Do(fam, s, Deliver(req, e, {}, false));
            && Grounded(fam, s') && s'.deletions == s.deletions && s'.pending == s.pending
            && req.key in s'.world.objects && s'.world.objects[req.key] == v.(refs := req.refs, rv := s.world.nextRv)
            && (req.key, s.world.nextRv) in s'.seen && s'.seen[(req.key, s.world.nextRv)] == s'.world.objects[req.key]
  {
    PatchKeepsGrounded(fam, s, req, e);
  }

  /** A sibling that controls the current version can delete it. */
  lemma ControllerDeletes(fam: Family, s: State, key: Key, who: Uid, e: Engine)
    requires ValidFamily(fam) && Grounded(fam, s) && who in fam && key in s.world.objects
    requires IsControlledBy(s.world.objects[key].refs, fam[who].owner)
    ensures var v := s.world.objects[key];
            var delete := Deliver(DeleteReq(who, key, v.uid, v.rv), e, {}, false);
            var s' := Do(fam, Do(fam, s, TearDown(who, key, v.rv)), delete);
            s'.deletions == s.deletions + [Deletion(who, v)] && key !in s'.world.objects
  {
    var v := s.world.objects[key];
    var me := fam[who].owner;
    assert (key, v.rv) in s.seen && s.seen[(key, v.rv)] == v && Sane(fam, v.refs);
    ControllerQueriesAgree(v.refs, me);
    assert DetectOwner(v.refs, me, {}) == IsController;
    assert TeardownRequests(fam, s, who, key, v.rv) == {DeleteReq(who, key, v.uid, v.rv)};
    var s1 := Do(fam, s, TearDown(who, key, v.rv));
    assert DeleteReq(who, key, v.uid, v.rv) in s1.pending && s1.world == s.world;
  }

  /**
   The other half of the condition under which older teardowns never delete. If the list of a pending
   removal patch names a sibling as controller, that sibling can delete the object three steps later,
   whichever revision the object notes by then.
   */
  lemma StalePatchLetsSiblingDelete(fam: Family, s: State, req: Request, e: Engine) returns (steps: seq<Step>)
    requires ValidFamily(fam) && Grounded(fam, s) && req in s.pending && req.PatchReq? && req.key in s.world.objects
    requires GetController(req.refs).Some? && GetController(req.refs).value.uid in fam
    ensures |steps| == 3 && steps[0] == Deliver(req, e, {}, false) && NoPatches(steps[1..])
    ensures var v, who := s.world.objects[req.key], GetController(req.refs).value.uid;
            Run(fam, s, steps).deletions == s.deletions + [Deletion(who, v.(refs := req.refs, rv := s.world.nextRv))]
  {
    var v, who, rv := s.world.objects[req.key], GetController(req.refs).value.uid, s.world.nextRv;
    PatchArrives(fam, s, req, e);
    var s1 := Do(fam, s, Deliver(req, e, {}, false));
    assert Sane(fam, req.refs) by {
      assert s1.seen[(req.key, rv)].refs == req.refs;
    }
    ControllerQueriesAgree(req.refs, fam[who].owner);
    ControllerDeletes(fam, s1, req.key, who, e);
    var t2, t3 := TearDown(who, req.key, rv), Deliver(DeleteReq(who, req.key, v.uid, rv), e, {}, false);
    steps := [Deliver(req, e, {}, false), t2, t3];
    RunThree(fam, s, steps[0], t2, t3);
  }

  // ---------------------------------------------------------------- siblings at work

  /** An object under this key, taken, last written by an apply of ours, noting the revision. */
  predicate WrittenBy(fam: Family, s: State, e: Engine, key: Key, uid: nat, who: Uid) {
    && who in fam && LiveAs(s, key, uid) && uid in s.taken
    && s.world.objects[key].note == Number(fam[who].revision)
    && !NeedsMigration(s.world.objects[key].managed, e.fieldOwner)
  }

  lemma MigratedNeedsNoMore(managed: seq<ManagedEntry>, fieldOwner: string)
    ensures !NeedsMigration(Migrated(managed, fieldOwner), fieldOwner)
  {
    OwnEntriesGone(managed, fieldOwner);
    var rest, out := WithoutOwn(managed, fieldOwner), Migrated(managed, fieldOwner);
    assert forall i :: 0 <= i < |rest| ==> out[i] == rest[i] && rest[i] in rest;
  }

  lemma {:induction false} OwnEntriesGone(managed: seq<ManagedEntry>, fieldOwner: string)
    ensures forall x :: x in WithoutOwn(managed, fieldOwner) ==> !IsClientSide(x, fieldOwner)
  {
    if managed != [] {
      OwnEntriesGone(managed[1..], fieldOwner);
    }
  }

  /** A revision creates an object that does not exist, and migrates its managers. */
  lemma SiblingCreates(fam: Family, s: State, who: Uid, e: Engine, m: Manifest) returns (steps: seq<Step>)
    requires ValidFamily(fam) && Linear(fam, s) && who in fam && m.key !in s.world.objects
    ensures var t := Run(fam, s, steps);
            && Linear(fam, t) && t.deletions == s.deletions
            && WrittenBy(fam, t, e, m.key, s.world.nextUid, who)
            && t.world.objects[m.key].refs == [ControllerRef(fam[who].owner)]
  {
    var opts := OptionsOf(fam, who, Prevent, false);
    PrepareEffect(e, fam[who].revision, m, opts);
    var d := Prepare(e, fam[who].revision, m, opts).value;
    var t1, t2 := Reconcile(who, e, m, Prevent, false, None), Deliver(CreateReq(who, d), e, {}, false);
    var t3 := Deliver(MigrateReq(who, d, s.world.nextRv, false), e, {}, false);
    steps := [t1, t2, t3];
    RunThree(fam, s, t1, t2, t3);
    var s1 := Do(fam, s, t1);
    assert s1 == s.(pending := s.pending + {CreateReq(who, d)});
    StepKeepsLinear(fam, s, t1);
    var s2 := Do(fam, s1, t2);
    StepKeepsLinear(fam, s1, t2);
    assert AtVersion(s2, m.key, s.world.nextRv) && t3.req in s2.pending;
    StepKeepsLinear(fam, s2, t3);
    MigratedNeedsNoMore(s2.world.objects[m.key].managed, e.fieldOwner);
  }

  /** However the object compares, a newer revision adopts what an older sibling controls. */
  lemma NewerDecides(cmp: CompareResult, fam: Family, who: Uid, d: Desired, v: Live)
    requires who in fam && Resolvable(fam[who].owner) && v.note.Number? && v.note.n < fam[who].revision
    requires GetController(v.refs).Some? && GetController(v.refs).value.uid in fam
    requires !IsControlledBy(v.refs, fam[who].owner)
    ensures var opts := OptionsOf(fam, who, Prevent, false);
            && Decide(cmp, fam[who].revision, d, v, opts) == Adopt(d, v, fam[who].revision, opts)
            && TakeOver(v.refs, fam[who].owner).Ok? && TakeOver(v.refs, fam[who].owner).value != []
            && var taken := d.(note := Number(fam[who].revision), refs := TakeOver(v.refs, fam[who].owner).value);
               Adopt(d, v, fam[who].revision, opts) == Write(taken, true, Updated)
  {
    TakeOverEffect(v.refs, fam[who].owner);
    assert GetController(TakeOver(v.refs, fam[who].owner).value).value in TakeOver(v.refs, fam[who].owner).value;
  }

  /** The write a newer revision sends about an object an older sibling controls. */
  lemma NewerSendsApply(fam: Family, s: State, who: Uid, e: Engine, m: Manifest, v: Live) returns (d: Desired)
    requires ValidFamily(fam) && who in fam && v.note.Number? && v.note.n < fam[who].revision
    requires GetController(v.refs).Some? && GetController(v.refs).value.uid in fam
    requires !IsControlledBy(v.refs, fam[who].owner)
    requires (m.key, v.rv) in s.seen && s.seen[(m.key, v.rv)] == v && !NeedsMigration(v.managed, e.fieldOwner)
    ensures Do(fam, s, Reconcile(who, e, m, Prevent, false, Some(v.rv))) ==
              s.(pending := s.pending + {ApplyReq(who, d, v.rv)})
    ensures d.key == m.key && d.note == Number(fam[who].revision)
    ensures TakeOver(v.refs, fam[who].owner) == Ok(d.refs) && d.refs != []
  {
    var opts, revision := OptionsOf(fam, who, Prevent, false), fam[who].revision;
    PrepareEffect(e, revision, m, opts);
    var prepared := Prepare(e, revision, m, opts).value;
    CompareWithEffect(e, prepared, v, opts);
    NewerDecides(CompareWith(e, prepared, v, opts).value, fam, who, prepared, v);
    d := Adopt(prepared, v, revision, opts).d;
    assert ReconcileRequests(fam, s, who, e, m, opts, Some(v.rv)) == {ApplyReq(who, d, v.rv)};
  }

  lemma {:induction false} NothingKept(refs: seq<OwnerRef>, applied: seq<OwnerRef>)
    ensures Unnamed(refs, applied, {}) == []
  {
    if refs != [] {
      NothingKept(refs[1..], applied);
    }
  }

  lemma AppliedNeedsNoMigration(e: Engine, v: Live, d: Desired, keep: set<Uid>)
    requires !NeedsMigration(v.managed, e.fieldOwner)
    ensures !NeedsMigration(AppliedTo(e, v, d, keep).managed, e.fieldOwner)
  {
    var contested := Contested(DesiredContent(e.encoding, d), LiveContent(e.encoding, v));
    YieldingAddsNone(v.managed, e.fieldOwner, contested);
    var rest, out := Yielding(v.managed, e.fieldOwner, contested), AppliedTo(e, v, d, keep).managed;
    assert forall i :: 0 <= i < |rest| ==> out[i] == rest[i];
  }

  lemma {:induction false} YieldingAddsNone(managed: seq<ManagedEntry>, fieldOwner: string, contested: set<Path>)
    requires !NeedsMigration(managed, fieldOwner)
    ensures !NeedsMigration(Yielding(managed, fieldOwner, contested), fieldOwner)
  {
    if managed != [] {
      assert !IsClientSide(managed[0], fieldOwner);
      assert forall i :: 0 <= i < |managed[1..]| ==> managed[1..][i] == managed[i + 1];
      YieldingAddsNone(managed[1..], fieldOwner, contested);
    }
  }

  /** A newer revision takes an object over from an older sibling, at the default collision protection. */
  lemma SiblingTakesOver(fam: Family, s: State, who: Uid, e: Engine, m: Manifest, uid: nat, before: Uid)
    returns (steps: seq<Step>)
    requires ValidFamily(fam) && Linear(fam, s) && who in fam && WrittenBy(fam, s, e, m.key, uid, before)
    requires fam[before].revision < fam[who].revision && uid !in s.orphaned
    ensures var t := Run(fam, s, steps);
            && Linear(fam, t) && t.deletions == s.deletions && s.pending <= t.pending && t.orphaned == s.orphaned
            && WrittenBy(fam, t, e, m.key, uid, who)
            && TakeOver(s.world.objects[m.key].refs, fam[who].owner) == Ok(t.world.objects[m.key].refs)
            && IsControlledBy(t.world.objects[m.key].refs, fam[who].owner)
  {
    var v := s.world.objects[m.key];
    assert Tied(fam, s, v) && (m.key, v.rv) in s.seen && s.seen[(m.key, v.rv)] == v && Sane(fam, v.refs);
    ControllerQueriesAgree(v.refs, fam[who].owner);
    var d := NewerSendsApply(fam, s, who, e, m, v);
    var t1, t2 := Reconcile(who, e, m, Prevent, false, Some(v.rv)), Deliver(ApplyReq(who, d, v.rv), e, {}, false);
    steps := [t1, t2];
    RunTwo(fam, s, t1, t2);
    StepKeepsLinear(fam, s, t1);
    TakeOverArrives(fam, Do(fam, s, t1), who, e, d);
  }

  lemma TakeOverArrives(fam: Family, s: State, who: Uid, e: Engine, d: Desired)
    requires ValidFamily(fam) && Linear(fam, s) && who in fam && d.key in s.world.objects
    requires ApplyReq(who, d, s.world.objects[d.key].rv) in s.pending && d.note == Number(fam[who].revision)
    requires TakeOver(s.world.objects[d.key].refs, fam[who].owner) == Ok(d.refs) && d.refs != []
    requires !NeedsMigration(s.world.objects[d.key].managed, e.fieldOwner)
    ensures var v := s.world.objects[d.key];
            var t := Do(fam, s, Deliver(ApplyReq(who, d, v.rv), e, {}, false));
            && Linear(fam, t) && t.deletions == s.deletions && t.pending == s.pending && t.orphaned == s.orphaned
            && WrittenBy(fam, t, e, d.key, v.uid, who)
            && t.world.objects[d.key].refs == d.refs && IsControlledBy(d.refs, fam[who].owner)
  {
    var v := s.world.objects[d.key];
    var t := Deliver(ApplyReq(who, d, v.rv), e, {}, false);
    assert Linear(fam, Do(fam, s, t)) by {
      StepKeepsLinear(fam, s, t);
    }
    TakenOverVersion(v, who, fam[who].owner, e, d);
    assert Do(fam, s, t).world.objects[d.key] == AppliedTo(e, v, d, {}).(rv := s.world.nextRv);
  }

  /** The version an adoption stores when the server keeps nothing else. */
  lemma TakenOverVersion(v: Live, who: Uid, me: Owner, e: Engine, d: Desired)
    requires Resolvable(me) && TakeOver(v.refs, me) == Ok(d.refs) && d.refs != []
    requires !NeedsMigration(v.managed, e.fieldOwner)
    ensures var v' := AppliedTo(e, v, d, {});
            v'.uid == v.uid && v'.note == d.note && v'.refs == d.refs && !NeedsMigration(v'.managed, e.fieldOwner)
    ensures IsControlledBy(d.refs, me)
  {
    NothingKept(v.refs, d.refs);
    assert d.refs + [] == d.refs;
    AppliedNeedsNoMigration(e, v, d, {});
    TakeOverEffect(v.refs, me);
    ControllerQueriesAgree(d.refs, me);
  }

  /** An owner that does not control the object any more asks to be removed from its owners. */
  lemma OwnerLeaves(fam: Family, s: State, who: Uid, key: Key)
    requires ValidFamily(fam) && Linear(fam, s) && who in fam && key in s.world.objects
    requires IsOwner(s.world.objects[key].refs, fam[who].owner)
    requires !IsControlledBy(s.world.objects[key].refs, fam[who].owner)
    ensures var v := s.world.objects[key];
            var t := Do(fam, s, TearDown(who, key, v.rv));
            && Linear(fam, t)
            && t == s.(pending := s.pending + {PatchReq(who, key, v.rv, RemoveOwner(v.refs, fam[who].owner))})
  {
    var v := s.world.objects[key];
    assert (key, v.rv) in s.seen && s.seen[(key, v.rv)] == v;
    assert DetectOwner(v.refs, fam[who].owner, {}) != IsController;
    StepKeepsLinear(fam, s, TearDown(who, key, v.rv));
  }

  /** The lists of the run: one takes over from another, and then the other leaves. */
  lemma ListsOfTheRun(a: Owner, b: Owner)
    requires Resolvable(a) && Resolvable(b) && a.uid != b.uid
    ensures TakeOver([ControllerRef(a)], b) == Ok([RefTo(a, None), ControllerRef(b)])
  {
    var first, refs := [ControllerRef(a)], [RefTo(a, None), ControllerRef(b)];
    TakeOverEffect(first, b);
    var out := TakeOver(first, b).value;
    assert !SameObject(ControllerRef(b), first[0]);
    assert out[0] == RefTo(a, None);
    assert Release(first)[0] == RefTo(a, None) && |Release(first)| == 1;
    assert IndexOf(Release(first), ControllerRef(b)) == -1;
    assert out == Release(first) + [ControllerRef(b)] == refs;
  }

  lemma ListAfterLeaving(a: Owner, b: Owner)
    requires Resolvable(a) && Resolvable(b) && a.uid != b.uid
    ensures var refs := [RefTo(a, None), ControllerRef(b)];
            IsOwner(refs, a) && !IsControlledBy(refs, a) && RemoveOwner(refs, a) == [ControllerRef(b)]
  {
    var refs := [RefTo(a, None), ControllerRef(b)];
    assert SameObject(RefTo(a, None), refs[0]) && IndexOf(refs, RefTo(a, None)) == 0;
    assert SwapRemove(refs, 0) == [refs[1]];
  }

  // ---------------------------------------------------------------- a run of three revisions

  /** Revisions a and b have worked on the object, and a's removal is under way when c takes it over. */
  lemma RemovalUnderWay(fam: Family, s: State, a: Uid, b: Uid, e: Engine, m: Manifest)
    returns (steps: seq<Step>, req: Request)
    requires ValidFamily(fam) && Linear(fam, s) && m.key !in s.world.objects && s.world.nextUid !in s.orphaned
    requires a in fam && b in fam && fam[a].revision < fam[b].revision
    ensures var t := Run(fam, s, steps);
            && Linear(fam, t) && t.deletions == s.deletions && WrittenBy(fam, t, e, m.key, s.world.nextUid, b)
            && s.world.nextUid !in t.orphaned && req in t.pending
    ensures req.PatchReq? && req.key == m.key && req.refs == [ControllerRef(fam[b].owner)]
  {
    var uid := s.world.nextUid;
    var create := SiblingCreates(fam, s, a, e, m);
    var s1 := Run(fam, s, create);
    assert uid !in s1.orphaned by {
      assert Tied(fam, s1, s1.world.objects[m.key]);
      OnlyControllerIsFound(s1.world.objects[m.key].refs, 0);
    }
    var adopt := SiblingTakesOver(fam, s1, b, e, m, uid, a);
    var s2 := Run(fam, s1, adopt);
    ListsOfTheRun(fam[a].owner, fam[b].owner);
    ListAfterLeaving(fam[a].owner, fam[b].owner);
    OwnerLeaves(fam, s2, a, m.key);
    var v := s2.world.objects[m.key];
    var leave := TearDown(a, m.key, v.rv);
    steps := create + adopt + [leave];
    req := PatchReq(a, m.key, v.rv, RemoveOwner(v.refs, fam[a].owner));
    RunAppend(fam, s, create + adopt, [leave]);
    RunAppend(fam, s, create, adopt);
    RunOne(fam, s2, leave);
  }

  /**
   For any three revisions, any engine and any manifest of a new object, at the default collision
   protection and without anybody else interfering: revision c takes the object over, and afterwards
   revision b deletes it, because the removal patch of revision a arrived late.
   */
  lemma OlderTeardownCanDelete(fam: Family, s: State, a: Uid, b: Uid, c: Uid, e: Engine, m: Manifest)
    returns (before: seq<Step>, after: seq<Step>)
    requires ValidFamily(fam) && Linear(fam, s) && m.key !in s.world.objects
    requires a in fam && b in fam && c in fam && fam[a].revision < fam[b].revision < fam[c].revision
    ensures var t := Run(fam, s, before);
            && Linear(fam, t) && WrittenBy(fam, t, e, m.key, s.world.nextUid, c)
            && IsControlledBy(t.world.objects[m.key].refs, fam[c].owner)
            && var u := Run(fam, t, after);
               && |u.deletions| == |s.deletions| + 1
               && u.deletions[|s.deletions|].who == b && u.deletions[|s.deletions|].victim.uid == s.world.nextUid
               && u.deletions[|s.deletions|].victim.note == Number(fam[c].revision)
  {
    assert s.world.nextUid !in s.taken + s.orphaned;
    var first, req := RemovalUnderWay(fam, s, a, b, e, m);
    var s1 := Run(fam, s, first);
    var adopt := SiblingTakesOver(fam, s1, c, e, m, s.world.nextUid, b);
    before := first + adopt;
    RunAppend(fam, s, first, adopt);
    var t := Run(fam, s, before);
    OnlyControllerIsFound(req.refs, 0);
    after := StalePatchLetsSiblingDelete(fam, t, req, e);
  }

  // ---------------------------------------------------------------- exactly which patches do harm

  /** The list names no controller, or a sibling of revision n or newer. */
  predicate KeepsGuard(fam: Family, refs: seq<OwnerRef>, n: int) {
    var c := GetController(refs);
    c.Some? ==> c.value.uid in fam && fam[c.value.uid].revision >= n
  }

  /** The object lives, was taken, notes revision n or newer, and nobody else controls it. */
  predicate Guarded(fam: Family, s: State, key: Key, uid: nat, n: int) {
    && LiveAs(s, key, uid) && uid in s.taken
    && s.world.objects[key].note.Number? && s.world.objects[key].note.n >= n
    && KeepsGuard(fam, s.world.objects[key].refs, n)
  }

  /** No removal patch arrives at the object whose list gives it to a stranger or to a revision older than n. */
  predicate GuardedStep(fam: Family, s: State, key: Key, step: Step, n: int) {
    step.Deliver? && step.req.PatchReq? && step.req in s.pending && step.req.key == key ==>
      KeepsGuard(fam, step.req.refs, n)
  }

  predicate GuardedRun(fam: Family, s: State, key: Key, steps: seq<Step>, n: int)
    decreases |steps|
  {
    steps != [] ==> GuardedStep(fam, s, key, steps[0], n) && GuardedRun(fam, Do(fam, s, steps[0]), key, steps[1..], n)
  }

  /** A write by a sibling onto a guarded object keeps it guarded. */
  lemma ApplyKeepsGuard(fam: Family, s: State, key: Key, uid: nat, n: int, req: Request, e: Engine, keep: set<Uid>)
    requires ValidFamily(fam) && Grounded(fam, s) && Guarded(fam, s, key, uid, n)
    requires req in s.pending && req.ApplyReq? && req.d.key == key && AtVersion(s, key, req.rv)
    ensures Guarded(fam, Delivered(s, req, e, keep, false), key, uid, n)
  {
    var v := s.world.objects[key];
    assert Justified(fam, s, req) && s.seen[(key, req.rv)] == v && Sane(fam, v.refs);
    AllowedKeepsGuard(fam, req.who, v, req.d, e.encoding, keep, n);
    assert Delivered(s, req, e, keep, false).world.objects[key] == AppliedTo(e, v, req.d, keep).(rv := s.world.nextRv);
  }

  lemma AllowedKeepsGuard(fam: Family, who: Uid, v: Live, d: Desired, enc: Encoding, keep: set<Uid>, n: int)
    requires ValidFamily(fam) && Sane(fam, v.refs) && Allowed(fam, who, v, d)
    requires v.note.Number? && v.note.n >= n && KeepsGuard(fam, v.refs, n)
    ensures fam[who].revision >= n && d.note == Number(fam[who].revision)
    ensures KeepsGuard(fam, MergedRefs(enc, v.refs, d.refs, keep), n)
  {
    AllowedMerge(fam, who, v, d, enc, keep);
    AllowedIsNewer(fam, who, v, d, n);
  }

  lemma AllowedIsNewer(fam: Family, who: Uid, v: Live, d: Desired, n: int)
    requires ValidFamily(fam) && Sane(fam, v.refs) && Allowed(fam, who, v, d)
    requires v.note.Number? && v.note.n >= n && KeepsGuard(fam, v.refs, n)
    ensures fam[who].revision >= n
  {
    ControllerQueriesAgree(v.refs, fam[who].owner);
    if IsControlledBy(v.refs, fam[who].owner) {
      assert GetController(v.refs).value.uid == who;
    }
  }

  lemma DeliveryKeepsGuard(fam: Family, s: State, key: Key, uid: nat, n: int, req: Request, e: Engine, keep: set<Uid>,
                           lingers: bool)
    requires ValidFamily(fam) && Grounded(fam, s) && Guarded(fam, s, key, uid, n) && req in s.pending
    requires req.PatchReq? && req.key == key ==> KeepsGuard(fam, req.refs, n)
    ensures var s' := Delivered(s, req, e, keep, lingers); LiveAs(s', key, uid) ==> Guarded(fam, s', key, uid, n)
  {
    var s' := Delivered(s, req, e, keep, lingers);
    if req.ApplyReq? && req.d.key == key && AtVersion(s, key, req.rv) {
      ApplyKeepsGuard(fam, s, key, uid, n, req, e, keep);
    } else if req.PatchReq? && req.key == key {
      assert s'.world.objects[key] == s.world.objects[key].(refs := req.refs, rv := s.world.nextRv);
    } else {
      OtherDelivery(s, req, e, keep, lingers, key, uid);
    }
  }

  /** Any other delivery leaves note, owners and UID of the object alone, as long as it lives. */
  lemma OtherDelivery(s: State, req: Request, e: Engine, keep: set<Uid>, lingers: bool, key: Key, uid: nat)
    requires LiveAs(s, key, uid)
    requires !(req.ApplyReq? && req.d.key == key && AtVersion(s, key, req.rv)) && !(req.PatchReq? && req.key == key)
    ensures var s' := Delivered(s, req, e, keep, lingers);
            && s.taken <= s'.taken
            && (LiveAs(s', key, uid) ==>
                  s'.world.objects[key].note == s.world.objects[key].note &&
                  s'.world.objects[key].refs == s.world.objects[key].refs)
  {
  }

  lemma StepKeepsGuard(fam: Family, s: State, key: Key, uid: nat, n: int, step: Step)
    requires ValidFamily(fam) && Grounded(fam, s) && Guarded(fam, s, key, uid, n) && GuardedStep(fam, s, key, step, n)
    ensures var s' := Do(fam, s, step); LiveAs(s', key, uid) ==> Guarded(fam, s', key, uid, n)
  {
    match step {
      case Deliver(req, e, keep, lingers) =>
        if req in s.pending {
          DeliveryKeepsGuard(fam, s, key, uid, n, req, e, keep, lingers);
        }
      case Meddle(k, v) =>
        if Permitted(fam, s, k, v) {
          MeddlingKeepsGuard(fam, s, key, uid, n, k, v);
        }
      case _ => QuietKeepsGuard(fam, s, key, uid, n, step);
    }
  }

  lemma MeddlingKeepsGuard(fam: Family, s: State, key: Key, uid: nat, n: int, k: Key, v: Live)
    requires Grounded(fam, s) && Guarded(fam, s, key, uid, n) && Permitted(fam, s, k, v)
    ensures var s' := Meddled(s, k, v); LiveAs(s', key, uid) ==> Guarded(fam, s', key, uid, n)
  {
    var s' := Meddled(s, k, v);
    assert s'.taken == s.taken;
    if k == key {
      assert s'.world.objects[key].note == v.note && s'.world.objects[key].refs == v.refs;
    } else {
      assert s'.world.objects[key] == s.world.objects[key];
    }
  }

  /** Deciding writes nothing, and what vanishes does not live. */
  lemma QuietKeepsGuard(fam: Family, s: State, key: Key, uid: nat, n: int, step: Step)
    requires Guarded(fam, s, key, uid, n) && !step.Deliver? && !step.Meddle?
    ensures var s' := Do(fam, s, step); LiveAs(s', key, uid) ==> Guarded(fam, s', key, uid, n)
  {
    var s' := Do(fam, s, step);
    assert s'.taken == s.taken;
    assert key in s'.world.objects ==> s'.world.objects[key] == s.world.objects[key];
  }

  lemma GuardedDeletion(fam: Family, s: State, key: Key, uid: nat, n: int, step: Step, from: nat)
    requires ValidFamily(fam) && Grounded(fam, s) && Guarded(fam, s, key, uid, n)
    requires from <= |s.deletions| && OnlyNewerDelete(fam, s, from, uid, n)
    ensures from <= |Do(fam, s, step).deletions| && OnlyNewerDelete(fam, Do(fam, s, step), from, uid, n)
  {
    DeletionIsOwn(fam, s, step);
    if Do(fam, s, step).deletions != s.deletions && s.world.objects[step.req.key].uid == uid {
      var v := s.world.objects[key];
      assert step.req.key == key;
      assert (key, v.rv) in s.seen && Sane(fam, v.refs);
      ControllerQueriesAgree(v.refs, fam[step.req.who].owner);
    }
  }

  /**
   While no removal patch gives the object to a stranger or to an older revision, no teardown of a
   revision older than n deletes it. Nothing is asked of the patches that arrive at other objects.
   */
  lemma {:induction false} GuardedObjectsAreSafe(fam: Family, s: State, key: Key, uid: nat, n: int, steps: seq<Step>,
                                                 from: nat)
    requires ValidFamily(fam) && Grounded(fam, s) && Guarded(fam, s, key, uid, n) && GuardedRun(fam, s, key, steps, n)
    requires from <= |s.deletions| && OnlyNewerDelete(fam, s, from, uid, n)
    ensures OnlyNewerDelete(fam, Run(fam, s, steps), from, uid, n)
    decreases |steps|
  {
    if steps != [] {
      var s' := Do(fam, s, steps[0]);
      GuardedDeletion(fam, s, key, uid, n, steps[0], from);
      StepKeepsGuard(fam, s, key, uid, n, steps[0]);
      StepKeepsGrounded(fam, s, steps[0]);
      LiveOrDead(fam, s, steps[0], key, uid);
      if LiveAs(s', key, uid) {
        GuardedObjectsAreSafe(fam, s', key, uid, n, steps[1..], from);
      } else {
        DeadIsNotDeleted(fam, s', steps[1..], uid, from, n);
      }
    }
  }

  // ---------------------------------------------------------------- harmful patches do harm

  lemma {:induction false} NoPatchesIsGuarded(fam: Family, s: State, key: Key, steps: seq<Step>, n: int)
    requires NoPatches(steps)
    ensures GuardedRun(fam, s, key, steps, n)
    decreases |steps|
  {
    if steps != [] {
      NoPatchesIsGuarded(fam, Do(fam, s, steps[0]), key, steps[1..], n);
    }
  }

  /** Whatever a sibling applies, it controls the object afterwards. */
  lemma ApplyLands(fam: Family, s: State, who: Uid, e: Engine, d: Desired, rv: nat)
    requires ValidFamily(fam) && Grounded(fam, s) && ApplyReq(who, d, rv) in s.pending && AtVersion(s, d.key, rv)
    ensures var t := Do(fam, s, Deliver(ApplyReq(who, d, rv), e, {}, false));
            && Grounded(fam, t) && t.deletions == s.deletions && LiveAs(t, d.key, s.world.objects[d.key].uid)
            && who in fam && IsControlledBy(t.world.objects[d.key].refs, fam[who].owner)
  {
    var v := s.world.objects[d.key];
    var t := Do(fam, s, Deliver(ApplyReq(who, d, rv), e, {}, false));
    assert Grounded(fam, t) by {
      ApplyKeepsGrounded(fam, s, who, d, rv, e, {});
    }
    assert Allowed(fam, who, v, d) && Sane(fam, v.refs) by {
      assert Justified(fam, s, ApplyReq(who, d, rv)) && s.seen[(d.key, rv)] == v;
    }
    AllowedControls(fam, who, v, d, e.encoding);
    assert t.world.objects[d.key] == AppliedTo(e, v, d, {}).(rv := s.world.nextRv);
  }

  lemma AllowedControls(fam: Family, who: Uid, v: Live, d: Desired, enc: Encoding)
    requires ValidFamily(fam) && Sane(fam, v.refs) && Allowed(fam, who, v, d)
    ensures IsControlledBy(MergedRefs(enc, v.refs, d.refs, {}), fam[who].owner)
  {
    AllowedMerge(fam, who, v, d, enc, {});
    ControllerQueriesAgree(MergedRefs(enc, v.refs, d.refs, {}), fam[who].owner);
  }

  lemma MigrationLands(fam: Family, s: State, who: Uid, e: Engine, d: Desired, rv: nat)
    requires ValidFamily(fam) && Grounded(fam, s) && MigrateReq(who, d, rv, true) in s.pending
    requires AtVersion(s, d.key, rv)
    ensures var t := Do(fam, s, Deliver(MigrateReq(who, d, rv, true), e, {}, false));
            && Grounded(fam, t) && t.deletions == s.deletions && LiveAs(t, d.key, s.world.objects[d.key].uid)
            && ApplyReq(who, d, s.world.nextRv) in t.pending && AtVersion(t, d.key, s.world.nextRv)
  {
    MigrateKeepsGrounded(fam, s, who, d, rv, true, e);
  }

  /** A pending write to the current version, migration first or not, can be carried through. */
  lemma WriteLands(fam: Family, s: State, who: Uid, e: Engine, d: Desired, rv: nat, migrate: bool)
    returns (steps: seq<Step>)
    requires ValidFamily(fam) && Grounded(fam, s) && AtVersion(s, d.key, rv)
    requires (if migrate then MigrateReq(who, d, rv, true) else ApplyReq(who, d, rv)) in s.pending
    ensures NoPatches(steps)
    ensures var t := Run(fam, s, steps);
            && Grounded(fam, t) && t.deletions == s.deletions && LiveAs(t, d.key, s.world.objects[d.key].uid)
            && who in fam && IsControlledBy(t.world.objects[d.key].refs, fam[who].owner)
  {
    if migrate {
      MigrationLands(fam, s, who, e, d, rv);
      var t1 := Deliver(MigrateReq(who, d, rv, true), e, {}, false);
      var t2 := Deliver(ApplyReq(who, d, s.world.nextRv), e, {}, false);
      ApplyLands(fam, Do(fam, s, t1), who, e, d, s.world.nextRv);
      steps := [t1, t2];
      RunTwo(fam, s, t1, t2);
    } else {
      steps := [Deliver(ApplyReq(who, d, rv), e, {}, false)];
      ApplyLands(fam, s, who, e, d, rv);
      RunOne(fam, s, steps[0]);
    }
  }

  /** The first write of that adoption. */
  lemma StrangerRequest(fam: Family, s: State, who: Uid, e: Engine, m: Manifest) returns (d: Desired)
    requires ValidFamily(fam) && Grounded(fam, s) && who in fam && m.key in s.world.objects
    requires var v := s.world.objects[m.key];
             v.note.Number? && GetController(v.refs).Some? && GetController(v.refs).value.uid !in fam
    ensures d.key == m.key
    ensures var v := s.world.objects[m.key];
            Do(fam, s, Reconcile(who, e, m, NoProtection, false, Some(v.rv))) ==
            s.(pending := s.pending +
               if NeedsMigration(v.managed, e.fieldOwner) then {MigrateReq(who, d, v.rv, true)}
               else {ApplyReq(who, d, v.rv)})
  {
    var v := s.world.objects[m.key];
    assert (m.key, v.rv) in s.seen && s.seen[(m.key, v.rv)] == v && Sane(fam, v.refs);
    d := AdoptsFromStranger(fam, who, e, m, v);
    RequestFollowsDecision(fam, s, who, e, m, NoProtection, v, d);
  }

  /** So an object that a stranger controls can come under any revision, by reconciling without protection. */
  lemma StrangerGivesWay(fam: Family, s: State, who: Uid, e: Engine, m: Manifest) returns (steps: seq<Step>)
    requires ValidFamily(fam) && Grounded(fam, s) && who in fam && m.key in s.world.objects
    requires var v := s.world.objects[m.key];
             v.note.Number? && GetController(v.refs).Some? && GetController(v.refs).value.uid !in fam
    ensures NoPatches(steps)
    ensures var t := Run(fam, s, steps);
            && Grounded(fam, t) && t.deletions == s.deletions && LiveAs(t, m.key, s.world.objects[m.key].uid)
            && IsControlledBy(t.world.objects[m.key].refs, fam[who].owner)
  {
    var v := s.world.objects[m.key];
    var d := StrangerRequest(fam, s, who, e, m);
    var t1 := Reconcile(who, e, m, NoProtection, false, Some(v.rv));
    StepKeepsGrounded(fam, s, t1);
    var rest := WriteLands(fam, Do(fam, s, t1), who, e, d, v.rv, NeedsMigration(v.managed, e.fieldOwner));
    steps := [t1] + rest;
    RunCons(fam, s, t1, rest);
  }

  /** After a harmful patch has arrived, some older revision can delete the object without another patch. */
  lemma HarmfulPatchLetsOlderDelete(fam: Family, s: State, key: Key, uid: nat, n: int, req: Request, e: Engine,
                                    m: Manifest, older: Uid)
    returns (steps: seq<Step>)
    requires ValidFamily(fam) && Grounded(fam, s) && Guarded(fam, s, key, uid, n) && m.key == key
    requires req in s.pending && req.PatchReq? && req.key == key && !KeepsGuard(fam, req.refs, n)
    requires older in fam && fam[older].revision < n
    ensures NoPatches(steps)
    ensures !OnlyNewerDelete(fam, Run(fam, Do(fam, s, Deliver(req, e, {}, false)), steps), |s.deletions|, uid, n)
  {
    PatchArrives(fam, s, req, e);
    var s1 := Do(fam, s, Deliver(req, e, {}, false));
    var who := GetController(req.refs).value.uid;
    assert Sane(fam, req.refs) by {
      assert s1.seen[(key, s.world.nextRv)].refs == req.refs;
    }
    if who in fam {
      ControllerQueriesAgree(req.refs, fam[who].owner);
      steps := OldControllerDeletes(fam, s1, key, uid, n, who, e, |s.deletions|);
    } else {
      var first := StrangerGivesWay(fam, s1, older, e, m);
      var last := OldControllerDeletes(fam, Run(fam, s1, first), key, uid, n, older, e, |s.deletions|);
      steps := first + last;
      RunAppend(fam, s1, first, last);
    }
  }

  lemma OldControllerDeletes(fam: Family, s: State, key: Key, uid: nat, n: int, who: Uid, e: Engine, from: nat)
    returns (steps: seq<Step>)
    requires ValidFamily(fam) && Grounded(fam, s) && who in fam && fam[who].revision < n && LiveAs(s, key, uid)
    requires IsControlledBy(s.world.objects[key].refs, fam[who].owner) && from == |s.deletions|
    ensures NoPatches(steps) && !OnlyNewerDelete(fam, Run(fam, s, steps), from, uid, n)
  {
    var v := s.world.objects[key];
    ControllerDeletes(fam, s, key, who, e);
    steps := [TearDown(who, key, v.rv), Deliver(DeleteReq(who, key, v.uid, v.rv), e, {}, false)];
    RunTwo(fam, s, steps[0], steps[1]);
    assert Run(fam, s, steps).deletions[from] == Deletion(who, v);
  }

  /**
   The exact condition, for an object taken and noting revision n, with an older revision about: after
   a removal patch has arrived, older revisions can never delete the object in runs without further
   harmful patches, if and only if the list of the patch names nobody or a sibling not older than n.
   */
  lemma PatchIsSafeExactly(fam: Family, s: State, key: Key, uid: nat, n: int, req: Request, e: Engine, m: Manifest,
                           older: Uid)
    requires ValidFamily(fam) && Grounded(fam, s) && Guarded(fam, s, key, uid, n) && m.key == key
    requires req in s.pending && req.PatchReq? && req.key == key
    requires older in fam && fam[older].revision < n
    ensures var s1 := Do(fam, s, Deliver(req, e, {}, false));
            KeepsGuard(fam, req.refs, n) <==>
            forall steps :: GuardedRun(fam, s1, key, steps, n) ==>
              OnlyNewerDelete(fam, Run(fam, s1, steps), |s.deletions|, uid, n)
  {
    var t := Deliver(req, e, {}, false);
    var s1 := Do(fam, s, t);
    if KeepsGuard(fam, req.refs, n) {
      PatchArrives(fam, s, req, e);
      StepKeepsGuard(fam, s, key, uid, n, t);
      forall steps | GuardedRun(fam, s1, key, steps, n)
        ensures OnlyNewerDelete(fam, Run(fam, s1, steps), |s.deletions|, uid, n)
      {
        GuardedObjectsAreSafe(fam, s1, key, uid, n, steps, |s.deletions|);
      }
    } else {
      var steps := HarmfulPatchLetsOlderDelete(fam, s, key, uid, n, req, e, m, older);
      NoPatchesIsGuarded(fam, s1, key, steps, n);
    }
  }
}
