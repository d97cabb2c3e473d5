/**
 The one write of the protocol that carries no version: a teardown by an owner that is not the
 controller replaces the owner list by the list it read, without itself (machinery/objects.go:154-166).
 */
module StalePatch {
  import opened Basics
  import opened OwnerRefs
  import opened Comparator
  import opened ObjectEngine
  import opened Reconciliation
  import opened Handover
  import opened HandoverSafety
  import opened Linearity

  /** Every removal patch arrives at the version it was computed from, or finds no object. */
  predicate LockedRun(fam: Family, s: State, steps: seq<Step>)
    decreases |steps|
  {
    steps != [] ==>
      && (var t := steps[0];
          t.Deliver? && t.req in s.pending && t.req.PatchReq? && t.req.key in s.world.objects ==>
            AtVersion(s, t.req.key, t.req.readRv))
      && LockedRun(fam, Do(fam, s, steps[0]), steps[1..])
  }

  /** With removal patches locked to the version they read, linearity needs no further condition. */
  lemma {:induction false} LockedRunKeepsLinear(fam: Family, s: State, steps: seq<Step>)
    requires ValidFamily(fam) && Linear(fam, s) && LockedRun(fam, s, steps)
    ensures Linear(fam, Run(fam, s, steps))
    decreases |steps|
  {
    if steps != [] {
      var t := steps[0];
      if t.Deliver? && t.req in s.pending && t.req.PatchReq? && t.req.key in s.world.objects {
        CurrentPatchIsHarmless(fam, s, t.req);
      }
      StepKeepsLinear(fam, s, t);
      LockedRunKeepsLinear(fam, Do(fam, s, t), steps[1..]);
    }
  }

  // ---------------------------------------------------------------- adopting from a stranger

  /** Without collision protection any revision adopts what a stranger controls, whatever revision is noted. */
  lemma AdoptsFromStranger(fam: Family, who: Uid, e: Engine, m: Manifest, v: Live) returns (d: Desired)
    requires ValidFamily(fam) && who in fam && NoteRevision(v.note).Some? && Sane(fam, v.refs)
    requires GetController(v.refs).Some? && GetController(v.refs).value.uid !in fam
    ensures var opts, revision := OptionsOf(fam, who, NoProtection, false), fam[who].revision;
            && Prepare(e, revision, m, opts).Ok? && d.key == m.key && d.note == Number(revision)
            && DecideUpdate(e, revision, Prepare(e, revision, m, opts).value, v, opts) == Write(d, true, Updated)
  {
    var opts, revision, me := OptionsOf(fam, who, NoProtection, false), fam[who].revision, fam[who].owner;
    PrepareEffect(e, revision, m, opts);
    var prepared := Prepare(e, revision, m, opts).value;
    CompareWithEffect(e, prepared, v, opts);
    ControllerQueriesAgree(v.refs, me);
    TakeOverEffect(v.refs, me);
    d := prepared.(note := Number(revision), refs := TakeOver(v.refs, me).value);
    StrangerBranch(CompareWith(e, prepared, v, opts).value, revision, prepared, v, opts);
  }

  lemma StrangerBranch(cmp: CompareResult, revision: int, d: Desired, v: Live, opts: Options)
    requires opts.collision == NoProtection && CheckSituation(opts, v) == UnknownController
    requires NoteRevision(v.note).Some?
    ensures Decide(cmp, revision, d, v, opts) == Adopt(d, v, revision, opts)
  {
  }

  /** The request sent is the one decided on. */
  lemma RequestFollowsDecision(fam: Family, s: State, who: Uid, e: Engine, m: Manifest, collision: CollisionProtection,
                               v: Live, d: Desired)
    requires who in fam && (m.key, v.rv) in s.seen && s.seen[(m.key, v.rv)] == v
    requires var opts, revision := OptionsOf(fam, who, collision, false), fam[who].revision;
             && Prepare(e, revision, m, opts).Ok?
             && DecideUpdate(e, revision, Prepare(e, revision, m, opts).value, v, opts) == Write(d, true, Updated)
    ensures Do(fam, s, Reconcile(who, e, m, collision, false, Some(v.rv))) ==
            s.(pending := s.pending +
               if NeedsMigration(v.managed, e.fieldOwner) then {MigrateReq(who, d, v.rv, true)}
               else {ApplyReq(who, d, v.rv)})
  {
  }

  // ---------------------------------------------------------------- a run that breaks the tie

  function OwnerNamed(name: string): Owner {
    Owner(Some(Gvk("", "v1", "Deployment")), name, "", name)
  }

  const FAMILY: Family := map["a" := Sibling(OwnerNamed("a"), 1), "b" := Sibling(OwnerNamed("b"), 2)]

  /** A foreign object: controlled by a stranger, with revision 1's owner as a plain owner. */
  const FOUND: Live := Live(0, 0, map[], Missing, [RefTo(OwnerNamed("a"), None), ControllerRef(OwnerNamed("f"))], [])

  const START: State := State(World(map["k" := FOUND], 1, 1), map[("k", 0) := FOUND], {}, {}, {}, [])

  lemma NamesDiffer()
    ensures Resolvable(OwnerNamed("a")) && Resolvable(OwnerNamed("b")) && Resolvable(OwnerNamed("f"))
    ensures GetController(FOUND.refs) == Some(ControllerRef(OwnerNamed("f")))
    ensures AtMostOneController(FOUND.refs)
    ensures !IsControlledBy(FOUND.refs, OwnerNamed("a")) && !IsControlledBy(FOUND.refs, OwnerNamed("b"))
    ensures IsOwner(FOUND.refs, OwnerNamed("a"))
    ensures RemoveOwner(FOUND.refs, OwnerNamed("a")) == [ControllerRef(OwnerNamed("f"))]
  {
    assert SlashCount("1") == 0;
    assert SlashCount("v1") == 0;
    assert "a" != "f" && "b" != "f" && "a" != "b";
    var a := OwnerNamed("a");
    assert SameObject(RefTo(a, None), FOUND.refs[0]);
    assert IndexOf(FOUND.refs, RefTo(a, None)) == 0;
    OnlyControllerIsFound(FOUND.refs, 1);
    assert !SameObject(RefTo(a, None), FOUND.refs[1]) && !SameObject(RefTo(OwnerNamed("b"), None), FOUND.refs[1]);
    assert SwapRemove(FOUND.refs, 0) == [FOUND.refs[1]];
  }

  lemma StartIsInitial()
    ensures ValidFamily(FAMILY) && Initial(FAMILY, START)
  {
    NamesDiffer();
    assert START.seen.Keys == {("k", 0)};
    assert "f" !in FAMILY;
  }

  const PATCH: Request := PatchReq("a", "k", 0, [ControllerRef(OwnerNamed("f"))])

  /** Revision 1's teardown reads the object and asks to be removed from its owners. */
  lemma TeardownSendsPatch()
    ensures Do(FAMILY, START, TearDown("a", "k", 0)) == START.(pending := {PATCH})
  {
    NamesDiffer();
    assert TeardownRequests(FAMILY, START, "a", "k", 0) == {PATCH};
  }

  /** Revision 2 adopts the object although a stranger controls it. */
  lemma ReconcileSendsApply(e: Engine, m: Manifest, s: State) returns (d: Desired)
    requires m.key == "k" && s == START.(pending := {PATCH})
    ensures d.key == "k" && d.note == Number(2)
    ensures Do(FAMILY, s, Reconcile("b", e, m, NoProtection, false, Some(0))) ==
              START.(pending := {PATCH, ApplyReq("b", d, 0)})
  {
    NamesDiffer();
    StartIsInitial();
    assert "f" !in FAMILY && Sane(FAMILY, FOUND.refs) && s.seen[("k", 0)] == FOUND;
    d := AdoptsFromStranger(FAMILY, "b", e, m, FOUND);
    RequestFollowsDecision(FAMILY, s, "b", e, m, NoProtection, FOUND, d);
    assert !NeedsMigration(FOUND.managed, e.fieldOwner);
    assert {PATCH} + {ApplyReq("b", d, 0)} == {PATCH, ApplyReq("b", d, 0)};
  }

  /** The adoption is stored, then the stale patch overwrites the owner list. */
  lemma PatchOverwritesAdoption(e: Engine, d: Desired, s: State)
    requires d.key == "k" && d.note == Number(2) && s == START.(pending := {PATCH, ApplyReq("b", d, 0)})
    ensures var s' := Do(FAMILY, s, Deliver(ApplyReq("b", d, 0), e, {}, false));
            var t := Do(FAMILY, s', Deliver(PATCH, e, {}, false));
            && "k" in t.world.objects && t.world.objects["k"].uid in t.taken
            && t.world.objects["k"].note == Number(2)
            && t.world.objects["k"].refs == PATCH.refs
  {
    var s' := Do(FAMILY, s, Deliver(ApplyReq("b", d, 0), e, {}, false));
    assert s'.taken == {0} && PATCH in s'.pending;
    assert s'.world.objects["k"].note == Number(2) && s'.world.objects["k"].uid == 0;
  }

  /**
   Read by revision 1's teardown, then adopted by revision 2, then patched with the stale list:
   the object notes revision 2 while a stranger controls it again.
   */
  lemma StalePatchBreaksTheTie(e: Engine, m: Manifest) returns (steps: seq<Step>)
    requires m.key == "k"
    ensures ValidFamily(FAMILY) && Initial(FAMILY, START)
    ensures !Linear(FAMILY, Run(FAMILY, START, steps))
    ensures var t := Run(FAMILY, START, steps);
            && "k" in t.world.objects && t.world.objects["k"].uid in t.taken
            && t.world.objects["k"].note == Number(2)
            && GetController(t.world.objects["k"].refs) == Some(ControllerRef(OwnerNamed("f")))
  {
    StartIsInitial();
    TeardownSendsPatch();
    var s1 := Do(FAMILY, START, TearDown("a", "k", 0));
    var d := ReconcileSendsApply(e, m, s1);
    var s2 := Do(FAMILY, s1, Reconcile("b", e, m, NoProtection, false, Some(0)));
    PatchOverwritesAdoption(e, d, s2);
    OnlyControllerIsFound(PATCH.refs, 0);
    var t3, t4 := Deliver(ApplyReq("b", d, 0), e, {}, false), Deliver(PATCH, e, {}, false);
    steps := [TearDown("a", "k", 0), Reconcile("b", e, m, NoProtection, false, Some(0)), t3, t4];
    RunFour(FAMILY, START, steps[0], steps[1], t3, t4);
    StrangerBreaksTie(Run(FAMILY, START, steps));
  }

  lemma StrangerBreaksTie(t: State)
    requires "k" in t.world.objects && t.world.objects["k"].uid in t.taken && t.world.objects["k"].refs == PATCH.refs
    ensures !Linear(FAMILY, t)
  {
    OnlyControllerIsFound(PATCH.refs, 0);
    assert "f" !in FAMILY && !Tied(FAMILY, t, t.world.objects["k"]);
  }
}
