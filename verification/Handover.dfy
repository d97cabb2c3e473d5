/**
 The handover protocol: sibling revisions reconcile and tear down the same objects concurrently.

 Each sibling decides on some version of an object it has read, however old, using the decision
 functions of ObjectEngine (machinery/objects.go), and sends the resulting write. Requests stay
 deliverable for ever: they may be delayed, reordered, repeated or never arrive, and a request the
 server refuses for a reason not modelled is one that never arrives. Between any two steps the
 environment may create, change and delete objects within the limits stated by Permitted.
 */
module Handover {
  import opened Basics
  import opened OwnerRefs
  import opened Comparator
  import opened ObjectEngine

  // ---------------------------------------------------------------- the system

  datatype Sibling = Sibling(owner: Owner, revision: int)

  /** Sibling revisions by the UID of their owner. */
  type Family = map<Uid, Sibling>

  predicate ValidFamily(fam: Family) {
    && (forall u :: u in fam ==> fam[u].owner.uid == u && Resolvable(fam[u].owner) && fam[u].revision >= 1)
    && (forall u, v :: u in fam && v in fam && fam[u].revision == fam[v].revision ==> u == v)
  }

  datatype Request =
    | CreateReq(who: Uid, d: Desired)
    | MigrateReq(who: Uid, d: Desired, rv: nat, thenApply: bool)
    | ApplyReq(who: Uid, d: Desired, rv: nat)
    | DeleteReq(who: Uid, key: Key, uid: nat, rv: nat)
    | PatchReq(who: Uid, key: Key, readRv: nat, refs: seq<OwnerRef>)

  datatype Deletion = Deletion(who: Uid, victim: Live)

  /**
   `seen` holds every version that ever existed. `taken` are the objects some sibling has written,
   `orphaned` those that lost their controller afterwards.
   */
  datatype State = State(world: World, seen: map<(Key, nat), Live>, pending: set<Request>,
                         taken: set<nat>, orphaned: set<nat>, deletions: seq<Deletion>)

  datatype Step =
    | Reconcile(who: Uid, e: Engine, m: Manifest, collision: CollisionProtection, paused: bool, read: Option<nat>)
    | TearDown(who: Uid, key: Key, readRv: nat)
    | Deliver(req: Request, e: Engine, keep: set<Uid>, lingers: bool)
    | Meddle(key: Key, v: Live)
    | Vanish(key: Key)

  function OptionsOf(fam: Family, who: Uid, collision: CollisionProtection, paused: bool): Options
    requires who in fam
  {
    Options(collision, fam.Keys, Some(fam[who].owner), paused)
  }

  /** The write a reconcile of `who` ends in after reading version `rv` of the object, if any. */
  function ReconcileRequests(fam: Family, s: State, who: Uid, e: Engine, m: Manifest, opts: Options,
                             read: Option<nat>): set<Request>
    requires who in fam
  {
    var prepared := Prepare(e, fam[who].revision, m, opts);
    if prepared.Err? || opts.paused then {}
    else if read.None? then {CreateReq(who, prepared.value)}
    else if (m.key, read.value) !in s.seen then {}
    else
      var v := s.seen[(m.key, read.value)];
      match DecideUpdate(e, fam[who].revision, prepared.value, v, opts)
      case Write(d, _, _) =>
        if NeedsMigration(v.managed, e.fieldOwner) then {MigrateReq(who, d, v.rv, true)} else {ApplyReq(who, d, v.rv)}
      case _ => {}
  }

  function TeardownRequests(fam: Family, s: State, who: Uid, key: Key, read: nat): set<Request>
    requires who in fam
  {
    if (key, read) !in s.seen then {}
    else
      var opts := TeardownOptions(false, Some(fam[who].owner), false);
      match PlanTeardown(fam[who].revision, Some(s.seen[(key, read)]), opts)
      case Delete(uid, rv) => {DeleteReq(who, key, uid, rv)}
      case GiveUpOwnership(refs) => if refs.Some? then {PatchReq(who, key, read, refs.value)} else {}
      case _ => {}
  }

  /** The world `w` replaces the current one after `key` was stored. */
  function Commit(s: State, w: World, key: Key): State
    requires key in w.objects
  {
    s.(world := w, seen := s.seen[(key, s.world.nextRv) := w.objects[key]])
  }

  function OrphanedBy(s: State, v: Live): set<nat> {
    if v.uid in s.taken && GetController(v.refs).None? then {v.uid} else {}
  }

  predicate AtVersion(s: State, key: Key, rv: nat) {
    key in s.world.objects && s.world.objects[key].rv == rv
  }

  function Delivered(s: State, req: Request, e: Engine, keep: set<Uid>, lingers: bool): State {
    match req
    case CreateReq(who, d) =>
      if d.key in s.world.objects then s
      else
        var s' := Commit(s, CreateObject(e, s.world, d).value, d.key);
        s'.(taken := s.taken + {s.world.nextUid}, pending := s.pending + {MigrateReq(who, d, s.world.nextRv, false)})
    case MigrateReq(who, d, rv, thenApply) =>
      if !AtVersion(s, d.key, rv) then s
      else
        var s' := Commit(s, MigrateObject(e, s.world, d.key, rv).value, d.key);
        if thenApply then s'.(pending := s.pending + {ApplyReq(who, d, s.world.nextRv)}) else s'
    case ApplyReq(who, d, rv) =>
      if !AtVersion(s, d.key, rv) then s
      else
        var v := s.world.objects[d.key];
        Commit(s, Store(s.world, d.key, AppliedTo(e, v, d, keep)), d.key).(taken := s.taken + {v.uid})
    case DeleteReq(who, key, uid, rv) =>
      if !AtVersion(s, key, rv) || s.world.objects[key].uid != uid then s
      else
        var v := s.world.objects[key];
        var s' := if lingers then Commit(s, Store(s.world, key, v), key)
                  else s.(world := DeleteObject(s.world, key, uid, rv).value);
        s'.(deletions := s.deletions + [Deletion(who, v)])
    case PatchReq(who, key, _, refs) =>
      if key !in s.world.objects then s
      else
        var v := s.world.objects[key].(refs := refs);
        Commit(s, PatchRefs(s.world, key, refs).value, key).(orphaned := s.orphaned + OrphanedBy(s, v))
  }

  /**
   What the environment may do to an object: it never makes a sibling controller, and on an object
   a sibling has taken it leaves the revision annotation alone and at most removes the controller.
   */
  predicate Permitted(fam: Family, s: State, key: Key, v: Live) {
    && AtMostOneController(v.refs)
    && (if key in s.world.objects && s.world.objects[key].uid in s.taken then
          && v.note == s.world.objects[key].note
          && (GetController(v.refs).None? || GetController(v.refs) == GetController(s.world.objects[key].refs))
        else
          GetController(v.refs).Some? ==> GetController(v.refs).value.uid !in fam)
  }

  function Meddled(s: State, key: Key, v: Live): State {
    if key in s.world.objects then
      var v' := v.(uid := s.world.objects[key].uid);
      Commit(s, Store(s.world, key, v'), key).(orphaned := s.orphaned + OrphanedBy(s, v'))
    else
      Commit(s, Store(s.world, key, v.(uid := s.world.nextUid)).(nextUid := s.world.nextUid + 1), key)
  }

  function Do(fam: Family, s: State, step: Step): State {
    match step
    case Reconcile(who, e, m, collision, paused, read) =>
      if who !in fam then s
      else s.(pending := s.pending + ReconcileRequests(fam, s, who, e, m, OptionsOf(fam, who, collision, paused), read))
    case TearDown(who, key, readRv) =>
      if who !in fam then s else s.(pending := s.pending + TeardownRequests(fam, s, who, key, readRv))
    case Deliver(req, e, keep, lingers) =>
      if req !in s.pending then s else Delivered(s, req, e, keep, lingers)
    case Meddle(key, v) =>
      if !Permitted(fam, s, key, v) then s else Meddled(s, key, v)
    case Vanish(key) =>
      s.(world := s.world.(objects := s.world.objects - {key}))
  }

  function Run(fam: Family, s: State, steps: seq<Step>): State
    decreases |steps|
  {
    if steps == [] then s else Run(fam, Do(fam, s, steps[0]), steps[1..])
  }

  lemma {:induction false} RunAppend(fam: Family, s: State, first: seq<Step>, rest: seq<Step>)
    ensures Run(fam, s, first + rest) == Run(fam, Run(fam, s, first), rest)
    decreases |first|
  {
    if first == [] {
      assert [] + rest == rest;
    } else {
      assert (first + rest)[1..] == first[1..] + rest;
      RunAppend(fam, Do(fam, s, first[0]), first[1..], rest);
    }
  }

  lemma RunOne(fam: Family, s: State, t: Step)
    ensures Run(fam, s, [t]) == Do(fam, s, t)
  {
    assert [t][1..] == [];
    assert Run(fam, s, [t]) == Run(fam, Do(fam, s, t), []);
  }

  lemma RunCons(fam: Family, s: State, t: Step, rest: seq<Step>)
    ensures Run(fam, s, [t] + rest) == Run(fam, Do(fam, s, t), rest)
  {
    RunAppend(fam, s, [t], rest);
    RunOne(fam, s, t);
  }

  lemma RunTwo(fam: Family, s: State, t1: Step, t2: Step)
    ensures Run(fam, s, [t1, t2]) == Do(fam, Do(fam, s, t1), t2)
  {
    assert [t1] + [t2] == [t1, t2];
    RunAppend(fam, s, [t1], [t2]);
    RunOne(fam, s, t1);
    RunOne(fam, Do(fam, s, t1), t2);
  }

  lemma RunFour(fam: Family, s: State, t1: Step, t2: Step, t3: Step, t4: Step)
    ensures Run(fam, s, [t1, t2, t3, t4]) == Do(fam, Do(fam, Do(fam, Do(fam, s, t1), t2), t3), t4)
  {
    assert [t1, t2] + [t3, t4] == [t1, t2, t3, t4];
    RunAppend(fam, s, [t1, t2], [t3, t4]);
    RunTwo(fam, s, t1, t2);
    RunTwo(fam, Do(fam, Do(fam, s, t1), t2), t3, t4);
  }

  lemma RunThree(fam: Family, s: State, t1: Step, t2: Step, t3: Step)
    ensures Run(fam, s, [t1, t2, t3]) == Do(fam, Do(fam, Do(fam, s, t1), t2), t3)
  {
    assert [t1, t2] + [t3] == [t1, t2, t3];
    RunAppend(fam, s, [t1, t2], [t3]);
    RunTwo(fam, s, t1, t2);
    RunOne(fam, Do(fam, Do(fam, s, t1), t2), t3);
  }

  // ---------------------------------------------------------------- what always holds

  /** Live objects are recorded under their version; versions and UIDs are never reused. */
  predicate Recorded(s: State) {
    && (forall k :: k in s.world.objects ==>
          (k, s.world.objects[k].rv) in s.seen && s.seen[(k, s.world.objects[k].rv)] == s.world.objects[k])
    && (forall p :: p in s.seen ==> p.1 < s.world.nextRv && s.seen[p].rv == p.1)
    && (forall k :: k in s.world.objects ==> s.world.objects[k].uid < s.world.nextUid)
    && (forall k, k' :: k in s.world.objects && k' in s.world.objects ==>
          s.world.objects[k].uid == s.world.objects[k'].uid ==> k == k')
    && (forall u :: u in s.taken + s.orphaned ==> u < s.world.nextUid)
  }

  /** At most one controller, and a controller with a sibling's UID really is that sibling's owner. */
  predicate Sane(fam: Family, refs: seq<OwnerRef>) {
    && AtMostOneController(refs)
    && (GetController(refs).Some? && GetController(refs).value.uid in fam ==>
          Resolvable(fam[GetController(refs).value.uid].owner)
          && SameObject(ControllerRef(fam[GetController(refs).value.uid].owner), GetController(refs).value))
  }

  /** The writes the engine's branches lead to, in terms of the version they were decided on. */
  predicate Allowed(fam: Family, who: Uid, v: Live, d: Desired) {
    && who in fam && Resolvable(fam[who].owner)
    && d.note == Number(fam[who].revision)
    && (if IsControlledBy(v.refs, fam[who].owner) then d.refs == [ControllerRef(fam[who].owner)]
        else
          && TakeOver(v.refs, fam[who].owner) == Ok(d.refs)
          && (GetController(v.refs).None? ==> v.note.Missing?)
          && (GetController(v.refs).Some? && GetController(v.refs).value.uid in fam ==>
                NoteRevision(v.note).Some? && NoteRevision(v.note).value < fam[who].revision))
  }

  predicate Justified(fam: Family, s: State, r: Request) {
    r.who in fam && Resolvable(fam[r.who].owner) &&
    match r
    case CreateReq(who, d) => d.refs == [ControllerRef(fam[who].owner)] && d.note == Number(fam[who].revision)
    case MigrateReq(who, d, rv, thenApply) => thenApply ==>
           (d.key, rv) in s.seen && Allowed(fam, who, s.seen[(d.key, rv)], d)
    case ApplyReq(who, d, rv) => (d.key, rv) in s.seen && Allowed(fam, who, s.seen[(d.key, rv)], d)
    case DeleteReq(who, key, uid, rv) => (key, rv) in s.seen && IsControlledBy(s.seen[(key, rv)].refs, fam[who].owner)
    case PatchReq(who, key, readRv, refs) =>
      && (key, readRv) in s.seen
      && !IsControlledBy(s.seen[(key, readRv)].refs, fam[who].owner)
      && refs == RemoveOwner(s.seen[(key, readRv)].refs, fam[who].owner)
  }

  predicate Grounded(fam: Family, s: State) {
    && Recorded(s)
    && (forall p :: p in s.seen ==> Sane(fam, s.seen[p].refs))
    && (forall r :: r in s.pending ==> Justified(fam, s, r))
  }
}
