/**
 Revision linearity: who controls an object and which revision is noted on it stay tied together,
 and the noted revision never goes back during the life of an object.
 */
module Linearity {
  import opened Basics
  import opened OwnerRefs
  import opened Comparator
  import opened ObjectEngine
  import opened Handover
  import opened HandoverSafety

  /**
   An object taken by a sibling notes a revision; its controller is the owner of that revision,
   unless the environment orphaned it. An object never taken is not controlled by a sibling.
   */
  predicate Tied(fam: Family, s: State, v: Live) {
    var c := GetController(v.refs);
    if v.uid in s.taken then
      && v.note.Number?
      && (c.None? <==> v.uid in s.orphaned)
      && (c.Some? ==> c.value.uid in fam && fam[c.value.uid].revision == v.note.n)
    else
      && v.uid !in s.orphaned
      && (c.Some? ==> c.value.uid !in fam)
  }

  predicate Linear(fam: Family, s: State) {
    Grounded(fam, s) && forall k :: k in s.world.objects ==> Tied(fam, s, s.world.objects[k])
  }

  /**
   The owner list a removal patch would install names no controller, or the one the object has now.
   (On an object no sibling has taken: no sibling as controller.)
   */
  predicate HarmlessPatch(fam: Family, s: State, v: Live, refs: seq<OwnerRef>) {
    var c, now := GetController(refs), GetController(v.refs);
    c.Some? ==>
      if v.uid in s.taken then now.Some? && c.value.uid == now.value.uid else c.value.uid !in fam
  }

  /** The only unlocked write, the removal patch, is harmless when it arrives. */
  predicate Harmless(fam: Family, s: State, step: Step) {
    step.Deliver? && step.req in s.pending && step.req.PatchReq? && step.req.key in s.world.objects ==>
      HarmlessPatch(fam, s, s.world.objects[step.req.key], step.req.refs)
  }

  predicate HarmlessRun(fam: Family, s: State, steps: seq<Step>)
    decreases |steps|
  {
    steps != [] ==> Harmless(fam, s, steps[0]) && HarmlessRun(fam, Do(fam, s, steps[0]), steps[1..])
  }

  // ---------------------------------------------------------------- Linear is inductive

  /** A step that stores a tied version under one key leaves the other objects tied. */
  lemma OthersStayTied(fam: Family, s: State, s': State, key: Key)
    requires Linear(fam, s) && Grounded(fam, s')
    requires key in s'.world.objects && Tied(fam, s', s'.world.objects[key])
    requires s'.world.objects == s.world.objects[key := s'.world.objects[key]]
    requires s.taken <= s'.taken <= s.taken + {s'.world.objects[key].uid}
    requires s.orphaned <= s'.orphaned <= s.orphaned + {s'.world.objects[key].uid}
    ensures Linear(fam, s')
  {
    forall k | k in s'.world.objects ensures Tied(fam, s', s'.world.objects[k]) {
      if k != key {
        assert k in s.world.objects && s.world.objects[k] == s'.world.objects[k];
        assert s'.world.objects[k].uid != s'.world.objects[key].uid;
        assert Tied(fam, s, s.world.objects[k]);
      }
    }
  }

  /** An allowed write on a tied version never lowers the noted revision and never revives an orphan. */
  lemma AllowedGoesForward(fam: Family, s: State, who: Uid, v: Live, d: Desired)
    requires ValidFamily(fam) && Sane(fam, v.refs) && Tied(fam, s, v) && Allowed(fam, who, v, d)
    ensures v.uid in s.taken ==> v.note.n <= fam[who].revision
    ensures v.uid !in s.orphaned
  {
    ControllerQueriesAgree(v.refs, fam[who].owner);
  }

  lemma ApplyKeepsLinear(fam: Family, s: State, who: Uid, d: Desired, rv: nat, e: Engine, keep: set<Uid>)
    requires ValidFamily(fam) && Linear(fam, s) && ApplyReq(who, d, rv) in s.pending && AtVersion(s, d.key, rv)
    ensures var s' := Delivered(s, ApplyReq(who, d, rv), e, keep, false);
            && Linear(fam, s')
            && s'.world.objects[d.key].note == Number(fam[who].revision)
            && (s.world.objects[d.key].uid in s.taken ==> s.world.objects[d.key].note.n <= fam[who].revision)
  {
    var s' := Delivered(s, ApplyReq(who, d, rv), e, keep, false);
    var v := s.world.objects[d.key];
    assert Justified(fam, s, ApplyReq(who, d, rv));
    assert s.seen[(d.key, rv)] == v && Tied(fam, s, v);
    ApplyKeepsGrounded(fam, s, who, d, rv, e, keep);
    AllowedGoesForward(fam, s, who, v, d);
    AllowedMerge(fam, who, v, d, e.encoding, keep);
    OthersStayTied(fam, s, s', d.key);
  }

  lemma CreateKeepsLinear(fam: Family, s: State, who: Uid, d: Desired, e: Engine)
    requires ValidFamily(fam) && Linear(fam, s) && CreateReq(who, d) in s.pending && d.key !in s.world.objects
    ensures Linear(fam, Delivered(s, CreateReq(who, d), e, {}, false))
  {
    var s' := Delivered(s, CreateReq(who, d), e, {}, false);
    assert Justified(fam, s, CreateReq(who, d));
    CreateKeepsGrounded(fam, s, who, d, e);
    OnlyControllerIsFound(d.refs, 0);
    assert s.world.nextUid !in s.taken + s.orphaned;
    OthersStayTied(fam, s, s', d.key);
  }

  /** A removal patch keeps the tie exactly when it is harmless. */
  lemma PatchKeepsLinearExactly(fam: Family, s: State, req: Request, e: Engine)
    requires ValidFamily(fam) && Linear(fam, s) && req in s.pending && req.PatchReq? && req.key in s.world.objects
    ensures Linear(fam, Delivered(s, req, e, {}, false)) <==> HarmlessPatch(fam, s, s.world.objects[req.key], req.refs)
  {
    var s' := Delivered(s, req, e, {}, false);
    var v, v' := s.world.objects[req.key], s'.world.objects[req.key];
    PatchKeepsGrounded(fam, s, req, e);
    assert Tied(fam, s, v);
    if HarmlessPatch(fam, s, v, req.refs) {
      assert Tied(fam, s', v');
      OthersStayTied(fam, s, s', req.key);
    } else {
      assert !Tied(fam, s', v');
    }
  }

  /** A patch delivered to the very version it was computed from is harmless. */
  lemma CurrentPatchIsHarmless(fam: Family, s: State, req: Request)
    requires ValidFamily(fam) && Linear(fam, s) && req in s.pending && req.PatchReq?
    requires AtVersion(s, req.key, req.readRv)
    ensures HarmlessPatch(fam, s, s.world.objects[req.key], req.refs)
  {
    var v := s.world.objects[req.key];
    assert Justified(fam, s, req) && Tied(fam, s, v);
    assert s.seen[(req.key, req.readRv)] == v;
    RemovalKeepsController(v.refs, fam[req.who].owner);
  }

  lemma RemovalKeepsController(refs: seq<OwnerRef>, me: Owner)
    requires AtMostOneController(refs)
    ensures GetController(RemoveOwner(refs, me)).Some? ==> GetController(refs) == GetController(RemoveOwner(refs, me))
  {
    var out := RemoveOwner(refs, me);
    if out != refs && GetController(out).Some? {
      var i := IndexOf(refs, RefTo(me, None));
      var k :| 0 <= k < |out| && out[k] == GetController(out).value;
      var k' := if k == i then |refs| - 1 else k;
      assert refs[k'] == out[k];
      ControllerIsUnique(refs, k');
    }
  }

  lemma MeddlingKeepsLinear(fam: Family, s: State, key: Key, v: Live)
    requires ValidFamily(fam) && Linear(fam, s) && Permitted(fam, s, key, v)
    ensures Linear(fam, Meddled(s, key, v))
  {
    var s' := Meddled(s, key, v);
    assert Grounded(fam, s') by {
      MeddlingKeepsGrounded(fam, s, key, v);
    }
    assert Tied(fam, s', s'.world.objects[key]) by {
      assert s.world.nextUid !in s.taken + s.orphaned;
      assert key in s.world.objects ==> Tied(fam, s, s.world.objects[key]);
    }
    OthersStayTied(fam, s, s', key);
  }

  /** Rewriting a version without touching its references and note keeps everything tied. */
  lemma RewriteKeepsLinear(fam: Family, s: State, s': State, key: Key)
    requires Linear(fam, s) && Grounded(fam, s') && key in s.world.objects && key in s'.world.objects
    requires s'.world.objects == s.world.objects[key := s'.world.objects[key]] && s'.taken == s.taken
    requires s'.orphaned == s.orphaned
    requires var v, v' := s.world.objects[key], s'.world.objects[key];
             v'.uid == v.uid && v'.note == v.note && v'.refs == v.refs
    ensures Linear(fam, s')
  {
    assert Tied(fam, s, s.world.objects[key]);
    OthersStayTied(fam, s, s', key);
  }

  lemma RemovalKeepsLinear(fam: Family, s: State, s': State)
    requires Linear(fam, s) && Grounded(fam, s') && s'.taken == s.taken && s'.orphaned == s.orphaned
    requires forall k :: k in s'.world.objects ==> k in s.world.objects && s'.world.objects[k] == s.world.objects[k]
    ensures Linear(fam, s')
  {
    forall k | k in s'.world.objects ensures Tied(fam, s', s'.world.objects[k]) {
      assert Tied(fam, s, s.world.objects[k]);
    }
  }

  lemma MigrateKeepsLinear(fam: Family, s: State, req: Request, e: Engine)
    requires ValidFamily(fam) && Linear(fam, s) && req in s.pending && req.MigrateReq?
    requires AtVersion(s, req.d.key, req.rv)
    ensures Linear(fam, Delivered(s, req, e, {}, false))
  {
    var s' := Delivered(s, req, e, {}, false);
    assert Grounded(fam, s') by {
      MigrateKeepsGrounded(fam, s, req.who, req.d, req.rv, req.thenApply, e);
    }
    RewriteKeepsLinear(fam, s, s', req.d.key);
  }

  lemma DeleteKeepsLinear(fam: Family, s: State, req: Request, e: Engine, lingers: bool)
    requires ValidFamily(fam) && Linear(fam, s) && req in s.pending && req.DeleteReq?
    ensures Linear(fam, Delivered(s, req, e, {}, lingers))
  {
    var s' := Delivered(s, req, e, {}, lingers);
    assert Grounded(fam, s') by {
      DeleteKeepsGrounded(fam, s, req, e, lingers);
    }
    if AtVersion(s, req.key, req.rv) && s.world.objects[req.key].uid == req.uid && lingers {
      RewriteKeepsLinear(fam, s, s', req.key);
    } else {
      RemovalKeepsLinear(fam, s, s');
    }
  }

  lemma DeliveryKeepsLinear(fam: Family, s: State, req: Request, e: Engine, keep: set<Uid>, lingers: bool)
    requires ValidFamily(fam) && Linear(fam, s) && req in s.pending
    requires req.PatchReq? && req.key in s.world.objects ==> HarmlessPatch(fam, s, s.world.objects[req.key], req.refs)
    ensures Linear(fam, Delivered(s, req, e, keep, lingers))
  {
    match req {
      case CreateReq(who, d) =>
        if d.key !in s.world.objects {
          CreateKeepsLinear(fam, s, who, d, e);
        }
      case MigrateReq(who, d, rv, thenApply) =>
        if AtVersion(s, d.key, rv) {
          MigrateKeepsLinear(fam, s, req, e);
        }
      case ApplyReq(who, d, rv) =>
        if AtVersion(s, d.key, rv) {
          ApplyKeepsLinear(fam, s, who, d, rv, e, keep);
        }
      case DeleteReq(who, key, uid, rv) =>
        DeleteKeepsLinear(fam, s, req, e, lingers);
      case PatchReq(_, key, _, _) =>
        if key in s.world.objects {
          PatchKeepsLinearExactly(fam, s, req, e);
        }
    }
  }

  lemma StepKeepsLinear(fam: Family, s: State, step: Step)
    requires ValidFamily(fam) && Linear(fam, s) && Harmless(fam, s, step)
    ensures Linear(fam, Do(fam, s, step))
  {
    var s' := Do(fam, s, step);
    match step {
      case Deliver(req, e, keep, lingers) =>
        if req in s.pending {
          DeliveryKeepsLinear(fam, s, req, e, keep, lingers);
        }
      case Meddle(key, v) =>
        if Permitted(fam, s, key, v) {
          MeddlingKeepsLinear(fam, s, key, v);
        }
      case _ =>
        StepKeepsGrounded(fam, s, step);
        RemovalKeepsLinear(fam, s, s');
    }
  }

  // ---------------------------------------------------------------- one object over a run

  /** The object with this UID is live under this key. */
  predicate LiveAs(s: State, key: Key, uid: nat) {
    key in s.world.objects && s.world.objects[key].uid == uid
  }

  predicate Dead(s: State, uid: nat) {
    uid < s.world.nextUid && forall k :: k in s.world.objects ==> s.world.objects[k].uid != uid
  }

  /** A step touches one key, where it removes the object, rewrites it, or creates one with a fresh UID. */
  predicate Footprint(s: State, s': State, key: Key) {
    && s'.world.objects - {key} == s.world.objects - {key}
    && s.world.nextUid <= s'.world.nextUid
    && s.taken <= s'.taken && s.orphaned <= s'.orphaned
    && (key in s'.world.objects ==>
          if key in s.world.objects then s'.world.objects[key].uid == s.world.objects[key].uid
          else s.world.nextUid == s'.world.objects[key].uid)
  }

  lemma DeliveryFootprint(s: State, req: Request, e: Engine, keep: set<Uid>, lingers: bool)
    ensures Footprint(s, Delivered(s, req, e, keep, lingers),
                      if req.DeleteReq? || req.PatchReq? then req.key else req.d.key)
  {
  }

  lemma StepFootprint(fam: Family, s: State, step: Step) returns (key: Key)
    ensures Footprint(s, Do(fam, s, step), key)
  {
    match step {
      case Deliver(req, e, keep, lingers) =>
        key := if req.DeleteReq? || req.PatchReq? then req.key else req.d.key;
        DeliveryFootprint(s, req, e, keep, lingers);
      case Meddle(k, _) => key := k;
      case Vanish(k) => key := k;
      case _ => key := "";
    }
  }

  lemma DeadStaysDead(fam: Family, s: State, step: Step, uid: nat)
    requires Dead(s, uid)
    ensures Dead(Do(fam, s, step), uid)
  {
    var key := StepFootprint(fam, s, step);
    var s' := Do(fam, s, step);
    assert forall k :: k in s'.world.objects && k != key ==> k in s'.world.objects - {key};
  }

  /** An object keeps its key for life. */
  lemma LiveOrDead(fam: Family, s: State, step: Step, key: Key, uid: nat)
    requires Recorded(s) && LiveAs(s, key, uid)
    ensures LiveAs(Do(fam, s, step), key, uid) || Dead(Do(fam, s, step), uid)
  {
    var k' := StepFootprint(fam, s, step);
    var s' := Do(fam, s, step);
    assert forall k :: k in s'.world.objects && k != k' ==> k in s'.world.objects - {k'};
    assert key != k' ==> key in s.world.objects - {k'};
  }

  lemma ApplyGoesForward(fam: Family, s: State, req: Request, e: Engine, keep: set<Uid>)
    requires ValidFamily(fam) && Linear(fam, s) && req in s.pending && req.ApplyReq? && AtVersion(s, req.d.key, req.rv)
    requires s.world.objects[req.d.key].uid in s.taken
    ensures var s' := Delivered(s, req, e, keep, false);
            && s.world.objects[req.d.key].note.Number? && s'.world.objects[req.d.key].note.Number?
            && s.world.objects[req.d.key].note.n <= s'.world.objects[req.d.key].note.n
  {
    assert Tied(fam, s, s.world.objects[req.d.key]);
    ApplyKeepsLinear(fam, s, req.who, req.d, req.rv, e, keep);
  }

  /** Only an apply changes the note of a taken object. */
  lemma OnlyAppliesChangeNotes(fam: Family, s: State, step: Step, key: Key)
    requires key in s.world.objects && key in Do(fam, s, step).world.objects && s.world.objects[key].uid in s.taken
    requires !(step.Deliver? && step.req in s.pending && step.req.ApplyReq? && AtVersion(s, step.req.d.key, step.req.rv)
               && step.req.d.key == key)
    ensures Do(fam, s, step).world.objects[key].note == s.world.objects[key].note
  {
  }

  /** While an object lives, a step keeps it taken and orphaned if it was, and never lowers its noted revision. */
  lemma StepGoesForward(fam: Family, s: State, step: Step, key: Key, uid: nat)
    requires ValidFamily(fam) && Linear(fam, s)
    requires LiveAs(s, key, uid) && uid in s.taken && LiveAs(Do(fam, s, step), key, uid)
    ensures var s' := Do(fam, s, step);
            && uid in s'.taken && s.orphaned <= s'.orphaned
            && s.world.objects[key].note.Number? && s'.world.objects[key].note.Number?
            && s.world.objects[key].note.n <= s'.world.objects[key].note.n
  {
    assert Tied(fam, s, s.world.objects[key]);
    var _ := StepFootprint(fam, s, step);
    if step.Deliver? && step.req in s.pending && step.req.ApplyReq? && AtVersion(s, step.req.d.key, step.req.rv)
       && step.req.d.key == key {
      ApplyGoesForward(fam, s, step.req, step.e, step.keep);
    } else {
      OnlyAppliesChangeNotes(fam, s, step, key);
    }
  }

  // ---------------------------------------------------------------- theorems about runs

  /** Before any sibling acts: foreign objects may exist, none of them controlled by a sibling. */
  predicate Initial(fam: Family, s: State) {
    && s.pending == {} && s.taken == {} && s.orphaned == {} && s.deletions == []
    && Recorded(s)
    && (forall p :: p in s.seen ==> Sane(fam, s.seen[p].refs))
    && (forall k :: k in s.world.objects ==> Tied(fam, s, s.world.objects[k]))
  }

  lemma {:induction false} RunKeepsLinear(fam: Family, s: State, steps: seq<Step>)
    requires ValidFamily(fam) && Linear(fam, s) && HarmlessRun(fam, s, steps)
    ensures Linear(fam, Run(fam, s, steps))
    decreases |steps|
  {
    if steps != [] {
      StepKeepsLinear(fam, s, steps[0]);
      RunKeepsLinear(fam, Do(fam, s, steps[0]), steps[1..]);
    }
  }

  /** The state is linear at every moment of the run. */
  predicate AlwaysLinear(fam: Family, s: State, steps: seq<Step>)
    decreases |steps|
  {
    Linear(fam, s) && (steps != [] ==> AlwaysLinear(fam, Do(fam, s, steps[0]), steps[1..]))
  }

  lemma StepKeepsLinearExactly(fam: Family, s: State, step: Step)
    requires ValidFamily(fam) && Linear(fam, s)
    ensures Linear(fam, Do(fam, s, step)) <==> Harmless(fam, s, step)
  {
    if step.Deliver? && step.req in s.pending && step.req.PatchReq? && step.req.key in s.world.objects {
      PatchKeepsLinearExactly(fam, s, step.req, step.e);
    } else {
      StepKeepsLinear(fam, s, step);
    }
  }

  /**
   The exact condition over runs: from a linear state a run is linear at every moment if and only if
   every removal patch that arrives in it is harmless.
   */
  lemma {:induction false} AlwaysLinearExactly(fam: Family, s: State, steps: seq<Step>)
    requires ValidFamily(fam) && Linear(fam, s)
    ensures AlwaysLinear(fam, s, steps) <==> HarmlessRun(fam, s, steps)
    decreases |steps|
  {
    if steps != [] {
      StepKeepsLinearExactly(fam, s, steps[0]);
      if Harmless(fam, s, steps[0]) {
        AlwaysLinearExactly(fam, Do(fam, s, steps[0]), steps[1..]);
      }
    }
  }

  /**
   Revision linearity. In every run from an initial state in which no removal patch does harm, an
   object once taken by a sibling notes a revision; unless it was orphaned it has exactly one
   controller, and a sibling is that controller exactly when its revision is the one noted.
   */
  lemma RevisionsAreLinear(fam: Family, s: State, steps: seq<Step>, key: Key, who: Uid)
    requires ValidFamily(fam) && Initial(fam, s) && HarmlessRun(fam, s, steps) && who in fam
    requires var t := Run(fam, s, steps); key in t.world.objects && t.world.objects[key].uid in t.taken
    ensures var t := Run(fam, s, steps);
            var v := t.world.objects[key];
            && v.note.Number?
            && AtMostOneController(v.refs)
            && (GetController(v.refs).Some? <==> v.uid !in t.orphaned)
            && (v.uid !in t.orphaned ==>
                  (IsControlledBy(v.refs, fam[who].owner) <==> v.note == Number(fam[who].revision)))
  {
    RunKeepsLinear(fam, s, steps);
    var t := Run(fam, s, steps);
    var v := t.world.objects[key];
    assert Tied(fam, t, v);
    assert (key, v.rv) in t.seen && Sane(fam, v.refs);
    ControllerQueriesAgree(v.refs, fam[who].owner);
  }

  lemma {:induction false} DeadForEver(fam: Family, s: State, steps: seq<Step>, uid: nat)
    requires Dead(s, uid)
    ensures Dead(Run(fam, s, steps), uid)
    decreases |steps|
  {
    if steps != [] {
      DeadStaysDead(fam, s, steps[0], uid);
      DeadForEver(fam, Do(fam, s, steps[0]), steps[1..], uid);
    }
  }

  /** The noted revision of a taken object never decreases while the object lives. */
  lemma {:induction false} NotesNeverDecrease(fam: Family, s: State, steps: seq<Step>, key: Key, uid: nat)
    requires ValidFamily(fam) && Linear(fam, s) && HarmlessRun(fam, s, steps)
    requires LiveAs(s, key, uid) && uid in s.taken && LiveAs(Run(fam, s, steps), key, uid)
    ensures var t := Run(fam, s, steps);
            && uid in t.taken && s.orphaned <= t.orphaned
            && s.world.objects[key].note.Number? && t.world.objects[key].note.Number?
            && s.world.objects[key].note.n <= t.world.objects[key].note.n
    decreases |steps|
  {
    assert Tied(fam, s, s.world.objects[key]);
    if steps != [] {
      var s' := Do(fam, s, steps[0]);
      LiveOrDead(fam, s, steps[0], key, uid);
      if Dead(s', uid) {
        DeadForEver(fam, s', steps[1..], uid);
        assert false;
      }
      StepGoesForward(fam, s, steps[0], key, uid);
      StepKeepsLinear(fam, s, steps[0]);
      NotesNeverDecrease(fam, s', steps[1..], key, uid);
    }
  }

  /** An orphaned object is never adopted again: it has no controller for the rest of its life. */
  lemma OrphansStayOrphaned(fam: Family, s: State, steps: seq<Step>, key: Key, uid: nat)
    requires ValidFamily(fam) && Linear(fam, s) && HarmlessRun(fam, s, steps)
    requires LiveAs(s, key, uid) && uid in s.orphaned && LiveAs(Run(fam, s, steps), key, uid)
    ensures GetController(Run(fam, s, steps).world.objects[key].refs).None?
  {
    assert Tied(fam, s, s.world.objects[key]);
    NotesNeverDecrease(fam, s, steps, key, uid);
    RunKeepsLinear(fam, s, steps);
    assert Tied(fam, Run(fam, s, steps), Run(fam, s, steps).world.objects[key]);
  }

  /** Deletions recorded after the first `from` hit the object only on behalf of revision `n` or newer. */
  predicate OnlyNewerDelete(fam: Family, s: State, from: nat, uid: nat, n: int) {
    forall i :: from <= i < |s.deletions| && s.deletions[i].victim.uid == uid ==>
      s.deletions[i].who in fam && fam[s.deletions[i].who].revision >= n
  }

  /**
   Once an object notes revision n, no teardown of an older revision ever deletes it, whatever
   version of the object that teardown had read.
   */
  lemma {:induction false} OlderTeardownsNeverDelete(fam: Family, s: State, steps: seq<Step>, key: Key, uid: nat,
                                                     from: nat, n: int)
    requires ValidFamily(fam) && Linear(fam, s) && HarmlessRun(fam, s, steps)
    requires uid in s.taken && from <= |s.deletions| && OnlyNewerDelete(fam, s, from, uid, n)
    requires LiveAs(s, key, uid) && s.world.objects[key].note.Number? && s.world.objects[key].note.n >= n
    ensures OnlyNewerDelete(fam, Run(fam, s, steps), from, uid, n)
    decreases |steps|
  {
    if steps != [] {
      var s' := Do(fam, s, steps[0]);
      StepDeletesNewer(fam, s, steps[0], key, uid, from, n);
      StepKeepsLinear(fam, s, steps[0]);
      LiveOrDead(fam, s, steps[0], key, uid);
      if LiveAs(s', key, uid) {
        StepGoesForward(fam, s, steps[0], key, uid);
        OlderTeardownsNeverDelete(fam, s', steps[1..], key, uid, from, n);
      } else {
        DeadIsNotDeleted(fam, s', steps[1..], uid, from, n);
      }
    }
  }

  lemma StepDeletesNewer(fam: Family, s: State, step: Step, key: Key, uid: nat, from: nat, n: int)
    requires ValidFamily(fam) && Linear(fam, s)
    requires uid in s.taken && from <= |s.deletions| && OnlyNewerDelete(fam, s, from, uid, n)
    requires LiveAs(s, key, uid) && s.world.objects[key].note.Number? && s.world.objects[key].note.n >= n
    ensures from <= |Do(fam, s, step).deletions| && OnlyNewerDelete(fam, Do(fam, s, step), from, uid, n)
  {
    DeletionIsOwn(fam, s, step);
    if Do(fam, s, step).deletions != s.deletions {
      var v := s.world.objects[step.req.key];
      assert Tied(fam, s, v);
      assert (step.req.key, v.rv) in s.seen && Sane(fam, v.refs);
      ControllerQueriesAgree(v.refs, fam[step.req.who].owner);
    }
  }

  lemma {:induction false} DeadIsNotDeleted(fam: Family, s: State, steps: seq<Step>, uid: nat, from: nat, n: int)
    requires ValidFamily(fam) && Grounded(fam, s) && Dead(s, uid) && from <= |s.deletions|
    requires OnlyNewerDelete(fam, s, from, uid, n)
    ensures OnlyNewerDelete(fam, Run(fam, s, steps), from, uid, n)
    decreases |steps|
  {
    if steps != [] {
      DeletionIsOwn(fam, s, steps[0]);
      DeadStaysDead(fam, s, steps[0], uid);
      StepKeepsGrounded(fam, s, steps[0]);
      DeadIsNotDeleted(fam, Do(fam, s, steps[0]), steps[1..], uid, from, n);
    }
  }
}
