/**
 Safety of the handover protocol over every run: writes rest on versions that existed, and a delete
 hits only objects its sender controls at that moment.
 */
module HandoverSafety {
  import opened Basics
  import opened OwnerRefs
  import opened Comparator
  import opened ObjectEngine
  import opened Reconciliation
  import opened Handover

  // ---------------------------------------------------------------- decisions are allowed writes

  /** Every write the engine decides on is one of the allowed ones. */
  lemma DecisionIsAllowed(fam: Family, who: Uid, e: Engine, m: Manifest, v: Live, opts: Options)
    requires ValidFamily(fam) && who in fam
    requires opts.owner == Some(fam[who].owner) && opts.siblings == fam.Keys
    ensures Prepare(e, fam[who].revision, m, opts).Ok?
    ensures var d := Prepare(e, fam[who].revision, m, opts).value;
            var decision := DecideUpdate(e, fam[who].revision, d, v, opts);
            && d.key == m.key && d.refs == [ControllerRef(fam[who].owner)] && d.note == Number(fam[who].revision)
            && (decision.Write? ==> Allowed(fam, who, v, decision.d) && decision.d.key == m.key)
  {
    var revision := fam[who].revision;
    PrepareEffect(e, revision, m, opts);
    var d := Prepare(e, revision, m, opts).value;
    var cmp := CompareWith(e, d, v, opts);
    if cmp.Ok? && Decide(cmp.value, revision, d, v, opts).Write? {
      BranchIsAllowed(fam, who, cmp.value, d, v, opts);
    }
  }

  lemma BranchIsAllowed(fam: Family, who: Uid, cmp: CompareResult, d: Desired, v: Live, opts: Options)
    requires ValidFamily(fam) && who in fam
    requires opts.owner == Some(fam[who].owner) && opts.siblings == fam.Keys
    requires d.refs == [ControllerRef(fam[who].owner)] && d.note == Number(fam[who].revision)
    requires Decide(cmp, fam[who].revision, d, v, opts).Write?
    ensures var w := Decide(cmp, fam[who].revision, d, v, opts); Allowed(fam, who, v, w.d) && w.d.key == d.key
  {
    WritesByBranch(cmp, fam[who].revision, d, v, opts);
    TakeOverEffect(v.refs, fam[who].owner);
  }

  /** An allowed write leaves its sibling's owner as the only controller, whatever else the merge keeps. */
  lemma AllowedMerge(fam: Family, who: Uid, v: Live, d: Desired, enc: Encoding, keep: set<Uid>)
    requires Allowed(fam, who, v, d) && AtMostOneController(v.refs)
    ensures var refs := MergedRefs(enc, v.refs, d.refs, keep);
            AtMostOneController(refs) && GetController(refs) == Some(ControllerRef(fam[who].owner))
  {
    var me := fam[who].owner;
    var kept := Unnamed(v.refs, d.refs, keep);
    if IsControlledBy(v.refs, me) {
      forall x | x in kept ensures !x.IsController() {
        OtherRefsDoNotControl(v.refs, me, x);
      }
      SoleControllerOfSum(d.refs, kept, 0);
    } else {
      TakeOverEffect(v.refs, me);
      TakeOverNamesAll(v.refs, me, kept, keep);
      assert d.refs + [] == d.refs;
    }
  }

  lemma OtherRefsDoNotControl(refs: seq<OwnerRef>, me: Owner, x: OwnerRef)
    requires me.gvk.Some? && AtMostOneController(refs) && IsControlledBy(refs, me)
    requires x in refs && x.uid != me.uid
    ensures !x.IsController()
  {
    var i :| 0 <= i < |refs| && SameObject(RefTo(me, None), refs[i]) && refs[i].IsController();
    var j :| 0 <= j < |refs| && refs[j] == x;
    ControllersCoincide(refs, i, j);
  }

  lemma ControllersCoincide(refs: seq<OwnerRef>, i: nat, j: nat)
    requires AtMostOneController(refs) && i < |refs| && j < |refs| && refs[i].IsController()
    ensures refs[j].IsController() ==> i == j
  {
    assert i < j || j < i || i == j;
  }

  lemma SoleControllerOfSum(a: seq<OwnerRef>, b: seq<OwnerRef>, at: nat)
    requires at < |a| && a[at].IsController()
    requires forall i :: 0 <= i < |a| && i != at ==> !a[i].IsController()
    requires forall x :: x in b ==> !x.IsController()
    ensures AtMostOneController(a + b) && GetController(a + b) == Some(a[at])
  {
    var all := a + b;
    forall k | 0 <= k < |all| && k != at ensures !all[k].IsController() {
      assert k >= |a| ==> all[k] == b[k - |a|] && b[k - |a|] in b;
    }
    OnlyControllerIsFound(all, at);
  }

  /** A takeover names every earlier owner, so the merge has nothing left to keep. */
  lemma TakeOverNamesAll(refs: seq<OwnerRef>, me: Owner, kept: seq<OwnerRef>, keep: set<Uid>)
    requires Resolvable(me) && TakeOver(refs, me).Ok?
    requires kept == Unnamed(refs, TakeOver(refs, me).value, keep)
    ensures kept == []
  {
    TakeOverEffect(refs, me);
    var out := TakeOver(refs, me).value;
    forall x | x in refs ensures x.uid in Uids(out) {
      var i :| 0 <= i < |refs| && refs[i] == x;
      assert out[i] in out && out[i].uid == x.uid;
    }
    NothingUnnamed(refs, out, keep);
  }

  lemma {:induction false} NothingUnnamed(refs: seq<OwnerRef>, applied: seq<OwnerRef>, keep: set<Uid>)
    requires forall x :: x in refs ==> x.uid in Uids(applied)
    ensures Unnamed(refs, applied, keep) == []
  {
    if refs != [] {
      assert refs[0] in refs;
      NothingUnnamed(refs[1..], applied, keep);
    }
  }

  // ---------------------------------------------------------------- Grounded is inductive

  /** Storing one more version keeps everything that was recorded and justified. */
  lemma CommitKeepsRecord(fam: Family, s: State, s': State, key: Key, v: Live)
    requires Grounded(fam, s) && v.rv == s.world.nextRv
    requires s'.world.objects == s.world.objects[key := v] && s'.world.nextRv == s.world.nextRv + 1
    requires s'.seen == s.seen[(key, s.world.nextRv) := v]
    requires if key in s.world.objects then v.uid == s.world.objects[key].uid && s'.world.nextUid == s.world.nextUid
             else v.uid == s.world.nextUid && s'.world.nextUid == s.world.nextUid + 1
    requires s'.taken <= s.taken + {v.uid} && s'.orphaned <= s.orphaned + {v.uid}
    ensures Recorded(s')
  {
    assert forall p :: p in s.seen ==> p in s'.seen && s'.seen[p] == s.seen[p];
    forall k | k in s'.world.objects
      ensures (k, s'.world.objects[k].rv) in s'.seen && s'.seen[(k, s'.world.objects[k].rv)] == s'.world.objects[k]
    {
      if k != key {
        assert (k, s.world.objects[k].rv) in s.seen;
      }
    }
    forall u | u in s'.taken + s'.orphaned ensures u < s'.world.nextUid {
      assert u == v.uid || u in s.taken + s.orphaned;
    }
  }

  lemma CommitKeepsGrounded(fam: Family, s: State, s': State, key: Key, v: Live)
    requires Grounded(fam, s) && Sane(fam, v.refs) && v.rv == s.world.nextRv
    requires s'.world.objects == s.world.objects[key := v] && s'.world.nextRv == s.world.nextRv + 1
    requires s'.seen == s.seen[(key, s.world.nextRv) := v]
    requires if key in s.world.objects then v.uid == s.world.objects[key].uid && s'.world.nextUid == s.world.nextUid
             else v.uid == s.world.nextUid && s'.world.nextUid == s.world.nextUid + 1
    requires s'.taken <= s.taken + {v.uid} && s'.orphaned <= s.orphaned + {v.uid}
    ensures Recorded(s')
    ensures forall p :: p in s'.seen ==> Sane(fam, s'.seen[p].refs)
    ensures forall r :: r in s.pending ==> Justified(fam, s', r)
  {
    CommitKeepsRecord(fam, s, s', key, v);
    assert forall p :: p in s.seen ==> p in s'.seen && s'.seen[p] == s.seen[p];
  }

  lemma NewRequestsAreJustified(fam: Family, s: State, step: Step, r: Request)
    requires ValidFamily(fam) && Grounded(fam, s) && (step.Reconcile? || step.TearDown?)
    requires r in Do(fam, s, step).pending && r !in s.pending
    ensures Justified(fam, s, r)
  {
    match step {
      case Reconcile(who, e, m, collision, paused, read) =>
        var opts := OptionsOf(fam, who, collision, paused);
        var v := if read.Some? && (m.key, read.value) in s.seen then s.seen[(m.key, read.value)]
                 else Live(0, 0, map[], Missing, [], []);
        DecisionIsAllowed(fam, who, e, m, v, opts);
      case TearDown(who, key, readRv) =>
        var v := s.seen[(key, readRv)];
        ControllerQueriesAgree(v.refs, fam[who].owner);
    }
  }

  /** Removing an owner cannot bring in a controller, and removing a non-controller keeps the one there is. */
  lemma RemovalIsSane(fam: Family, refs: seq<OwnerRef>, me: Owner)
    requires Sane(fam, refs)
    ensures Sane(fam, RemoveOwner(refs, me))
  {
    var out := RemoveOwner(refs, me);
    if out != refs {
      var i := IndexOf(refs, RefTo(me, None));
      forall a, b | 0 <= a < b < |out| ensures !(out[a].IsController() && out[b].IsController()) {
        var a', b' := if a == i then |refs| - 1 else a, if b == i then |refs| - 1 else b;
        assert out[a] == refs[a'] && out[b] == refs[b'];
        assert a' < b' || b' < a';
      }
      if GetController(out).Some? {
        var c := GetController(out).value;
        var k :| 0 <= k < |out| && out[k] == c;
        var k' := if k == i then |refs| - 1 else k;
        assert refs[k'] == c;
        ControllerIsUnique(refs, k');
      }
    }
  }

  lemma ControllerIsUnique(refs: seq<OwnerRef>, k: nat)
    requires AtMostOneController(refs) && k < |refs| && refs[k].IsController()
    ensures GetController(refs) == Some(refs[k])
  {
    var j :| 0 <= j < |refs| && refs[j] == GetController(refs).value;
    assert j < k || k < j || j == k;
  }

  lemma OwnControllerIsSane(fam: Family, who: Uid, refs: seq<OwnerRef>)
    requires ValidFamily(fam) && who in fam && AtMostOneController(refs)
    requires GetController(refs) == Some(ControllerRef(fam[who].owner))
    ensures Sane(fam, refs)
  {
  }

  lemma CreateKeepsGrounded(fam: Family, s: State, who: Uid, d: Desired, e: Engine)
    requires ValidFamily(fam) && Grounded(fam, s) && CreateReq(who, d) in s.pending
    ensures Grounded(fam, Delivered(s, CreateReq(who, d), e, {}, false))
  {
    assert Justified(fam, s, CreateReq(who, d));
    if d.key !in s.world.objects {
      var s' := Delivered(s, CreateReq(who, d), e, {}, false);
      OnlyControllerIsFound(d.refs, 0);
      OwnControllerIsSane(fam, who, d.refs);
      CommitKeepsGrounded(fam, s, s', d.key, s'.world.objects[d.key]);
    }
  }

  lemma MigrateKeepsGrounded(fam: Family, s: State, who: Uid, d: Desired, rv: nat, thenApply: bool, e: Engine)
    requires ValidFamily(fam) && Grounded(fam, s) && MigrateReq(who, d, rv, thenApply) in s.pending
    ensures Grounded(fam, Delivered(s, MigrateReq(who, d, rv, thenApply), e, {}, false))
  {
    assert Justified(fam, s, MigrateReq(who, d, rv, thenApply));
    if AtVersion(s, d.key, rv) {
      var s' := Delivered(s, MigrateReq(who, d, rv, thenApply), e, {}, false);
      var v, v' := s.world.objects[d.key], s'.world.objects[d.key];
      assert s.seen[(d.key, rv)] == v;
      CommitKeepsGrounded(fam, s, s', d.key, v');
      assert thenApply ==> Allowed(fam, who, v', d);
    }
  }

  lemma ApplyKeepsGrounded(fam: Family, s: State, who: Uid, d: Desired, rv: nat, e: Engine, keep: set<Uid>)
    requires ValidFamily(fam) && Grounded(fam, s) && ApplyReq(who, d, rv) in s.pending
    ensures Grounded(fam, Delivered(s, ApplyReq(who, d, rv), e, keep, false))
  {
    assert Justified(fam, s, ApplyReq(who, d, rv));
    if AtVersion(s, d.key, rv) {
      var s' := Delivered(s, ApplyReq(who, d, rv), e, keep, false);
      var v := s.world.objects[d.key];
      assert s.seen[(d.key, rv)] == v;
      AllowedMerge(fam, who, v, d, e.encoding, keep);
      OwnControllerIsSane(fam, who, MergedRefs(e.encoding, v.refs, d.refs, keep));
      CommitKeepsGrounded(fam, s, s', d.key, s'.world.objects[d.key]);
    }
  }

  lemma DeleteKeepsGrounded(fam: Family, s: State, req: Request, e: Engine, lingers: bool)
    requires ValidFamily(fam) && Grounded(fam, s) && req in s.pending && req.DeleteReq?
    ensures Grounded(fam, Delivered(s, req, e, {}, lingers))
  {
    if AtVersion(s, req.key, req.rv) && s.world.objects[req.key].uid == req.uid && lingers {
      var s' := Delivered(s, req, e, {}, lingers);
      assert s.seen[(req.key, req.rv)] == s.world.objects[req.key];
      CommitKeepsGrounded(fam, s, s', req.key, s'.world.objects[req.key]);
    }
  }

  lemma PatchKeepsGrounded(fam: Family, s: State, req: Request, e: Engine)
    requires ValidFamily(fam) && Grounded(fam, s) && req in s.pending && req.PatchReq?
    ensures Grounded(fam, Delivered(s, req, e, {}, false))
  {
    assert Justified(fam, s, req);
    if req.key in s.world.objects {
      var s' := Delivered(s, req, e, {}, false);
      RemovalIsSane(fam, s.seen[(req.key, req.readRv)].refs, fam[req.who].owner);
      CommitKeepsGrounded(fam, s, s', req.key, s'.world.objects[req.key]);
    }
  }

  lemma DeliveryKeepsGrounded(fam: Family, s: State, req: Request, e: Engine, keep: set<Uid>, lingers: bool)
    requires ValidFamily(fam) && Grounded(fam, s) && req in s.pending
    ensures Grounded(fam, Delivered(s, req, e, keep, lingers))
  {
    match req {
      case CreateReq(who, d) => CreateKeepsGrounded(fam, s, who, d, e);
      case MigrateReq(who, d, rv, thenApply) => MigrateKeepsGrounded(fam, s, who, d, rv, thenApply, e);
      case ApplyReq(who, d, rv) => ApplyKeepsGrounded(fam, s, who, d, rv, e, keep);
      case DeleteReq(_, _, _, _) => DeleteKeepsGrounded(fam, s, req, e, lingers);
      case PatchReq(_, _, _, _) => PatchKeepsGrounded(fam, s, req, e);
    }
  }

  lemma MeddlingKeepsGrounded(fam: Family, s: State, key: Key, v: Live)
    requires ValidFamily(fam) && Grounded(fam, s) && Permitted(fam, s, key, v)
    ensures Grounded(fam, Meddled(s, key, v))
  {
    var s' := Meddled(s, key, v);
    if key in s.world.objects {
      assert (key, s.world.objects[key].rv) in s.seen;
      assert Sane(fam, s.world.objects[key].refs);
    }
    CommitKeepsGrounded(fam, s, s', key, s'.world.objects[key]);
  }

  /** Whatever happens, versions stay recorded and requests stay justified by a version that existed. */
  lemma VanishingKeepsGrounded(fam: Family, s: State, key: Key)
    requires Grounded(fam, s)
    ensures Grounded(fam, Do(fam, s, Vanish(key)))
  {
    var s' := Do(fam, s, Vanish(key));
    assert s' == s.(world := s.world.(objects := s.world.objects - {key}));
    assert forall r :: r in s.pending ==> (Justified(fam, s', r) <==> Justified(fam, s, r));
  }

  /** Deciding only adds requests, and those rest on a version that existed. */
  lemma SendingKeepsGrounded(fam: Family, s: State, step: Step)
    requires ValidFamily(fam) && Grounded(fam, s) && (step.Reconcile? || step.TearDown?)
    ensures Grounded(fam, Do(fam, s, step))
  {
    var s' := Do(fam, s, step);
    assert s' == s.(pending := s'.pending);
    forall r | r in s'.pending ensures Justified(fam, s', r) {
      if r !in s.pending {
        NewRequestsAreJustified(fam, s, step, r);
      }
    }
  }

  lemma StepKeepsGrounded(fam: Family, s: State, step: Step)
    requires ValidFamily(fam) && Grounded(fam, s)
    ensures Grounded(fam, Do(fam, s, step))
  {
    match step {
      case Deliver(req, e, keep, lingers) =>
        if req in s.pending {
          DeliveryKeepsGrounded(fam, s, req, e, keep, lingers);
        }
      case Meddle(key, v) =>
        if Permitted(fam, s, key, v) {
          MeddlingKeepsGrounded(fam, s, key, v);
        }
      case Vanish(key) => VanishingKeepsGrounded(fam, s, key);
      case Reconcile(_, _, _, _, _, _) => SendingKeepsGrounded(fam, s, step);
      case TearDown(_, _, _) => SendingKeepsGrounded(fam, s, step);
    }
  }

  // ---------------------------------------------------------------- delete safety

  predicate DeletionsWereOwn(fam: Family, s: State) {
    forall i :: 0 <= i < |s.deletions| ==>
      s.deletions[i].who in fam && IsControlledBy(s.deletions[i].victim.refs, fam[s.deletions[i].who].owner)
  }

  /**
   In every run, however stale the reads, a delete takes effect only on an object whose controller
   at that moment is the owner that asked for the delete.
   */
  lemma {:induction false} DeletesAreSafe(fam: Family, s: State, steps: seq<Step>)
    requires ValidFamily(fam) && Grounded(fam, s) && DeletionsWereOwn(fam, s)
    ensures Grounded(fam, Run(fam, s, steps)) && DeletionsWereOwn(fam, Run(fam, s, steps))
    decreases |steps|
  {
    if steps != [] {
      var s' := Do(fam, s, steps[0]);
      StepKeepsGrounded(fam, s, steps[0]);
      DeletionIsOwn(fam, s, steps[0]);
      DeletesAreSafe(fam, s', steps[1..]);
    }
  }

  lemma DeletionIsOwn(fam: Family, s: State, step: Step)
    requires Grounded(fam, s)
    ensures var s' := Do(fam, s, step);
            || s'.deletions == s.deletions
            || (&& step.Deliver? && step.req.DeleteReq? && step.req.key in s.world.objects
                && s'.deletions == s.deletions + [Deletion(step.req.who, s.world.objects[step.req.key])]
                && step.req.who in fam
                && IsControlledBy(s.world.objects[step.req.key].refs, fam[step.req.who].owner))
  {
    if step.Deliver? && step.req.DeleteReq? && step.req in s.pending {
      var r := step.req;
      assert Justified(fam, s, r);
      if AtVersion(s, r.key, r.rv) {
        assert s.seen[(r.key, r.rv)] == s.world.objects[r.key];
      }
    }
  }
}
