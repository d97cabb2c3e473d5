/**
 Reconciliation and teardown of a single object (machinery/objects.go) against an API server.

 The decision part of the code is a function of what was read; the writes are requests to the
 server. The Handover module lets many such decisions and writes interleave; this module runs
 one call at a time.
 */
module ObjectEngine {
  import opened Basics
  import opened OwnerRefs
  import opened Comparator

  type Key = string

  // ---------------------------------------------------------------- objects

  /** How owner references are stored: one field per reference, or the whole list in one annotation. */
  datatype Encoding = NativeList | AnnotationText

  /** An object as written by the user of the library. */
  datatype Manifest = Manifest(key: Key, data: Content)

  /** The object the engine wants to see on the cluster. */
  datatype Desired = Desired(key: Key, data: Content, note: Note, refs: seq<OwnerRef>)

  /** One version of an object on the server. */
  datatype Live = Live(uid: nat, rv: nat, data: Content, note: Note, refs: seq<OwnerRef>, managed: seq<ManagedEntry>)

  const NOTE_PATH: Path := ["metadata", "annotations", "revision"]
  const OWNERS_PATH: Path := ["metadata", "annotations", "owners"]
  const MANAGED_BY_PATH: Path := ["metadata", "labels", "app.kubernetes.io/managed-by"]

  function RefPath(uid: Uid): Path {
    ["metadata", "ownerReferences", uid]
  }

  /** Paths the engine writes itself; manifests carry no values there. */
  predicate Reserved(p: Path) {
    p == NOTE_PATH || p == OWNERS_PATH || (|p| == 3 && p == RefPath(p[2]))
  }

  predicate Plain(m: Manifest) {
    forall p :: p in m.data ==> !Reserved(p)
  }

  function NoteContent(note: Note): Content {
    if note.Missing? then map[] else map[NOTE_PATH := NoteValue(note)]
  }

  function RefMap(refs: seq<OwnerRef>): Content {
    if refs == [] then map[] else RefMap(refs[1..])[RefPath(refs[0].uid) := Reference(refs[0])]
  }

  function RefContent(enc: Encoding, refs: seq<OwnerRef>): Content {
    match enc
    case NativeList => RefMap(refs)
    case AnnotationText => if refs == [] then map[] else map[OWNERS_PATH := References(refs)]
  }

  function ContentOf(enc: Encoding, data: Content, note: Note, refs: seq<OwnerRef>): Content {
    data + NoteContent(note) + RefContent(enc, refs)
  }

  function DesiredContent(enc: Encoding, d: Desired): Content {
    ContentOf(enc, d.data, d.note, d.refs)
  }

  function LiveContent(enc: Encoding, v: Live): Content {
    ContentOf(enc, v.data, v.note, v.refs)
  }

  // ---------------------------------------------------------------- engine settings

  datatype Engine = Engine(fieldOwner: string, managedBy: string, encoding: Encoding,
                           hasStatus: bool, hasUnfilteredReader: bool)

  /** Fields the comparison ignores; the status too when the API has a status subresource. */
  function StripSet(hasStatus: bool): set<Path> {
    {["apiVersion"], ["kind"], ["metadata", "name"], ["metadata", "namespace"],
     ["metadata", "creationTimestamp"], ["metadata", "selfLink"], ["metadata", "uid"],
     ["metadata", "clusterName"], ["metadata", "generation"], ["metadata", "managedFields"],
     ["metadata", "resourceVersion"]}
    + if hasStatus then {["status"]} else {}
  }

  datatype CollisionProtection = Prevent | IfNoController | NoProtection

  /** `siblings` are the owner UIDs the sibling classifier accepts. */
  datatype Options = Options(collision: CollisionProtection, siblings: set<Uid>, owner: Option<Owner>, paused: bool)

  datatype Action = Created | Updated | Recovered | Progressed | Idle | Collision

  datatype ApiError = NotFound | AlreadyExists | VersionConflict | FieldConflict | InvalidRefs

  datatype Error =
    | ZeroRevision
    | OwnerProblem(problem: OwnerError)
    | UnreadableRevision
    | CreateCollision
    | Api(api: ApiError)

  datatype Outcome = Done(action: Action) | Failed(error: Error)

  // ---------------------------------------------------------------- decisions

  /** The desired object with managed-by label, revision annotation and controller reference. */
  function Prepare(e: Engine, revision: int, m: Manifest, opts: Options): Result<Desired, Error> {
    var data := m.data[MANAGED_BY_PATH := Text(e.managedBy)];
    if revision == 0 then Err(ZeroRevision)
    else if opts.owner.None? then Ok(Desired(m.key, data, Number(revision), []))
    else
      var refs := SetController([], opts.owner.value);
      if refs.Err? then Err(OwnerProblem(refs.error)) else Ok(Desired(m.key, data, Number(revision), refs.value))
  }

  datatype Situation = IsController | SiblingIsController | UnknownController | NoController

  function DetectOwner(refs: seq<OwnerRef>, owner: Owner, siblings: set<Uid>): Situation {
    var controller := GetController(refs);
    if controller.None? then NoController
    else if IsControlledBy(refs, owner) then IsController
    else if controller.value.uid in siblings then SiblingIsController
    else UnknownController
  }

  function CheckSituation(opts: Options, v: Live): Situation {
    if opts.owner.Some? then DetectOwner(v.refs, opts.owner.value, opts.siblings)
    else if v.note.Missing? then NoController
    else IsController
  }

  /** The comparison claims control for the owner once more on its own copy of the desired object. */
  function CompareWith(e: Engine, d: Desired, v: Live, opts: Options): Result<CompareResult, Error> {
    var refs := if opts.owner.None? then Ok(d.refs) else SetController(d.refs, opts.owner.value);
    if refs.Err? then Err(OwnerProblem(refs.error))
    else
      Ok(Comparing(e.fieldOwner, StripSet(e.hasStatus), DesiredContent(e.encoding, d.(refs := refs.value)),
                   LiveContent(e.encoding, v), v.managed))
  }

  function NoteRevision(note: Note): Option<int> {
    match note
    case Missing => Some(0)
    case Blank => Some(0)
    case Number(n) => Some(n)
    case Garbled => None
  }

  /** Either a verdict without a write, an error, or an object to apply and the verdict once it is stored. */
  datatype Decision = Report(action: Action) | Refuse(error: Error) | Write(d: Desired, force: bool, action: Action)

  function Adopt(d: Desired, v: Live, revision: int, opts: Options): Decision {
    var noted := d.(note := Number(revision));
    if opts.owner.None? then Write(noted, true, Updated)
    else
      var refs := TakeOver(v.refs, opts.owner.value);
      if refs.Err? then Refuse(OwnerProblem(refs.error)) else Write(noted.(refs := refs.value), true, Updated)
  }

  function DecideUpdate(e: Engine, revision: int, d: Desired, v: Live, opts: Options): Decision {
    var cmp := CompareWith(e, d, v, opts);
    if cmp.Err? then Refuse(cmp.error) else Decide(cmp.value, revision, d, v, opts)
  }

  /** What to do about an object that exists, given how it compares with the desired one. */
  function Decide(cmp: CompareResult, revision: int, d: Desired, v: Live, opts: Options): Decision {
    if NoteRevision(v.note).None? then Refuse(UnreadableRevision)
    else
      var actual := NoteRevision(v.note).value;
      match CheckSituation(opts, v)
      case UnknownController =>
        if opts.collision != NoProtection then Report(Collision) else Adopt(d, v, revision, opts)
      case NoController =>
        if opts.collision == Prevent || !v.note.Missing? then Report(Collision) else Adopt(d, v, revision, opts)
      case SiblingIsController =>
        if actual > revision then Report(Progressed)
        else if actual < revision then Adopt(d, v, revision, opts)
        else Report(Collision)
      case IsController =>
        if !cmp.IsConflict() then
          if cmp.NeedsUpdate() then Write(d, false, Updated) else Report(Idle)
        else Write(d, true, Recovered)
  }

  /** Writes either keep the desired object as it is, or adopt under the conditions of their branch. */
  lemma WritesByBranch(cmp: CompareResult, revision: int, d: Desired, v: Live, opts: Options)
    requires Decide(cmp, revision, d, v, opts).Write?
    ensures var w, situation := Decide(cmp, revision, d, v, opts), CheckSituation(opts, v);
            if situation == IsController then w.d == d
            else
              && w == Adopt(d, v, revision, opts)
              && (situation == NoController ==> v.note.Missing?)
              && (situation == SiblingIsController ==>
                    NoteRevision(v.note).Some? && NoteRevision(v.note).value < revision)
  {
  }

  // ---------------------------------------------------------------- the API server

  datatype World = World(objects: map<Key, Live>, nextRv: nat, nextUid: nat)

  /** Stores a new version of an object under a fresh resource version. */
  function Store(w: World, key: Key, v: Live): World {
    World(w.objects[key := v.(rv := w.nextRv)], w.nextRv + 1, w.nextUid)
  }

  function Fields(e: Engine, d: Desired): set<Path> {
    DesiredContent(e.encoding, d).Keys - StripSet(e.hasStatus)
  }

  /** A plain create records the caller as an updating manager of everything it wrote. */
  function CreateObject(e: Engine, w: World, d: Desired): Result<World, ApiError> {
    if d.key in w.objects then Err(AlreadyExists)
    else
      var v := Live(w.nextUid, 0, d.data, d.note, d.refs, [ManagedEntry(e.fieldOwner, UpdateOp, "", Fields(e, d))]);
      Ok(Store(w, d.key, v).(nextUid := w.nextUid + 1))
  }

  predicate IsClientSide(m: ManagedEntry, fieldOwner: string) {
    m.manager == fieldOwner && m.operation == UpdateOp && m.subresource == ""
  }

  predicate NeedsMigration(managed: seq<ManagedEntry>, fieldOwner: string) {
    exists i :: 0 <= i < |managed| && IsClientSide(managed[i], fieldOwner)
  }

  function ClientSideFields(managed: seq<ManagedEntry>, fieldOwner: string): set<Path> {
    set i, p | 0 <= i < |managed| && IsClientSide(managed[i], fieldOwner) && p in managed[i].fields :: p
  }

  function AppliedFields(managed: seq<ManagedEntry>, fieldOwner: string): set<Path> {
    var ours := FindManaged(managed, fieldOwner);
    if ours.Some? then ours.value.fields else {}
  }

  function WithoutOwn(managed: seq<ManagedEntry>, fieldOwner: string): seq<ManagedEntry> {
    if managed == [] then []
    else
      var rest := WithoutOwn(managed[1..], fieldOwner);
      if IsOurs(managed[0], fieldOwner) || IsClientSide(managed[0], fieldOwner) then rest else [managed[0]] + rest
  }

  /** Folds the manager's client-side entries into its server-side apply entry. */
  function Migrated(managed: seq<ManagedEntry>, fieldOwner: string): seq<ManagedEntry> {
    WithoutOwn(managed, fieldOwner) +
    [ManagedEntry(fieldOwner, ApplyOp, "", AppliedFields(managed, fieldOwner) + ClientSideFields(managed, fieldOwner))]
  }

  /** The migration patch carries the resource version of the object it was computed from. */
  function MigrateObject(e: Engine, w: World, key: Key, rv: nat): Result<World, ApiError> {
    if key !in w.objects then Err(NotFound)
    else if w.objects[key].rv != rv then Err(VersionConflict)
    else Ok(Store(w, key, w.objects[key].(managed := Migrated(w.objects[key].managed, e.fieldOwner))))
  }

  function Uids(refs: seq<OwnerRef>): set<Uid> {
    set r | r in refs :: r.uid
  }

  /** The references the applied list does not name and the merge keeps. */
  function Unnamed(refs: seq<OwnerRef>, applied: seq<OwnerRef>, keep: set<Uid>): (r: seq<OwnerRef>)
    ensures forall x :: x in r ==> x in refs && x.uid in keep && x.uid !in Uids(applied)
  {
    if refs == [] then []
    else
      var rest := Unnamed(refs[1..], applied, keep);
      if refs[0].uid in keep && refs[0].uid !in Uids(applied) then [refs[0]] + rest else rest
  }

  /**
   Owner references after an apply. Stored one by one, those not named by the applied object may
   stay or go depending on who manages them (`keep`); stored as one text, the applied text wins.
   */
  function MergedRefs(enc: Encoding, refs: seq<OwnerRef>, applied: seq<OwnerRef>, keep: set<Uid>): seq<OwnerRef> {
    if enc == AnnotationText && applied != [] then applied
    else applied + Unnamed(refs, applied, keep)
  }

  predicate DistinctUids(refs: seq<OwnerRef>) {
    forall i, j :: 0 <= i < j < |refs| ==> refs[i].uid != refs[j].uid
  }

  /** The server refuses two references to one UID and two controllers in a native list. */
  predicate Acceptable(enc: Encoding, refs: seq<OwnerRef>) {
    enc == NativeList ==> DistinctUids(refs) && AtMostOneController(refs)
  }

  /** Fields the applied object would change. */
  function Contested(applied: Content, actual: Content): set<Path> {
    set p | p in applied && p in actual && applied[p] != actual[p]
  }

  function Yielding(managed: seq<ManagedEntry>, fieldOwner: string, contested: set<Path>): (r: seq<ManagedEntry>)
    ensures forall x :: x in r ==> !IsOurs(x, fieldOwner)
  {
    if managed == [] then []
    else
      var rest := Yielding(managed[1..], fieldOwner, contested);
      if IsOurs(managed[0], fieldOwner) then rest
      else [managed[0].(fields := managed[0].fields - contested)] + rest
  }

  predicate HeldByOthers(managed: seq<ManagedEntry>, fieldOwner: string, p: Path) {
    exists i :: 0 <= i < |managed| && !IsOurs(managed[i], fieldOwner) && p in managed[i].fields
  }

  /** Fields we applied before, do not apply now, and nobody else holds. */
  function Dropped(v: Live, fieldOwner: string, applied: set<Path>): set<Path> {
    set p | p in AppliedFields(v.managed, fieldOwner) && p !in applied && !HeldByOthers(v.managed, fieldOwner, p)
  }

  /** A version after a successful server-side apply that stores values verbatim. */
  function AppliedTo(e: Engine, v: Live, d: Desired, keep: set<Uid>): Live {
    var content := DesiredContent(e.encoding, d);
    v.(data := (v.data - Dropped(v, e.fieldOwner, content.Keys)) + d.data,
       note := d.note,
       refs := MergedRefs(e.encoding, v.refs, d.refs, keep),
       managed := Yielding(v.managed, e.fieldOwner, Contested(content, LiveContent(e.encoding, v)))
                  + [ManagedEntry(e.fieldOwner, ApplyOp, "", Fields(e, d))])
  }

  predicate FieldsContested(e: Engine, v: Live, d: Desired) {
    exists p :: p in Contested(DesiredContent(e.encoding, d), LiveContent(e.encoding, v))
             && HeldByOthers(v.managed, e.fieldOwner, p)
  }

  function ApplyObject(e: Engine, w: World, d: Desired, rv: nat, force: bool, keep: set<Uid>): Result<World, ApiError> {
    if d.key !in w.objects then Err(NotFound)
    else
      var v := w.objects[d.key];
      if v.rv != rv then Err(VersionConflict)
      else if !force && FieldsContested(e, v, d) then Err(FieldConflict)
      else if !Acceptable(e.encoding, MergedRefs(e.encoding, v.refs, d.refs, keep)) then Err(InvalidRefs)
      else Ok(Store(w, d.key, AppliedTo(e, v, d, keep)))
  }

  /** A merge patch that replaces the owner references; it carries no version. */
  function PatchRefs(w: World, key: Key, refs: seq<OwnerRef>): Result<World, ApiError> {
    if key !in w.objects then Err(NotFound) else Ok(Store(w, key, w.objects[key].(refs := refs)))
  }

  function DeleteObject(w: World, key: Key, uid: nat, rv: nat): Result<World, ApiError> {
    if key !in w.objects then Err(NotFound)
    else if w.objects[key].uid != uid || w.objects[key].rv != rv then Err(VersionConflict)
    else Ok(w.(objects := w.objects - {key}))
  }

  // ---------------------------------------------------------------- one reconcile

  /** Migration and apply, chained through the resource version the migration returns. */
  function Written(e: Engine, w: World, d: Desired, v: Live, force: bool, keep: set<Uid>): (World, Option<Error>) {
    if NeedsMigration(v.managed, e.fieldOwner) then
      var migrated := MigrateObject(e, w, d.key, v.rv);
      if migrated.Err? then (w, Some(Api(migrated.error)))
      else
        var applied := ApplyObject(e, migrated.value, d, w.nextRv, force, keep);
        if applied.Err? then (migrated.value, Some(Api(applied.error))) else (applied.value, None)
    else
      var applied := ApplyObject(e, w, d, v.rv, force, keep);
      if applied.Err? then (w, Some(Api(applied.error))) else (applied.value, None)
  }

  function Updating(e: Engine, w: World, revision: int, d: Desired, v: Live, opts: Options, keep: set<Uid>)
    : (World, Outcome)
  {
    match DecideUpdate(e, revision, d, v, opts)
    case Report(action) => (w, Done(action))
    case Refuse(error) => (w, Failed(error))
    case Write(d', force, action) =>
      if opts.paused then (w, Done(action))
      else
        var (w', err) := Written(e, w, d', v, force, keep);
        (w', if err.Some? then Failed(err.value) else Done(action))
  }

  function Creating(e: Engine, w: World, d: Desired, opts: Options): (World, Outcome)
    requires d.key !in w.objects
  {
    var created := CreateObject(e, w, d).value;
    if opts.paused then (w, Done(Created))
    else
      var migrated := MigrateObject(e, created, d.key, w.nextRv);
      if migrated.Err? then (created, Failed(Api(migrated.error))) else (migrated.value, Done(Created))
  }

  /** `cached` is what the cache answered, which may be older or less than what the server holds. */
  function Reconciled(e: Engine, w: World, revision: int, m: Manifest, opts: Options, cached: Option<Live>,
                      keep: set<Uid>): (World, Outcome)
  {
    var prepared := Prepare(e, revision, m, opts);
    if prepared.Err? then (w, Failed(prepared.error))
    else
      var d := prepared.value;
      if cached.Some? then Updating(e, w, revision, d, cached.value, opts, keep)
      else if d.key !in w.objects then Creating(e, w, d, opts)
      else if !e.hasUnfilteredReader then (w, Failed(CreateCollision))
      else Updating(e, w, revision, d, w.objects[d.key], opts, keep)
  }

  // ---------------------------------------------------------------- one teardown

  datatype TeardownOptions = TeardownOptions(orphan: bool, owner: Option<Owner>, ownerOrphansDependents: bool)

  datatype TeardownPlan =
    | LeaveOrphaned            // only labels are touched
    | AlreadyGone
    | LeaveToOthers            // another revision's object
    | GiveUpOwnership(refs: Option<seq<OwnerRef>>)  // None: the patch is empty
    | Delete(uid: nat, rv: nat)
    | CannotTell(error: Error)

  function PlanTeardown(revision: int, cached: Option<Live>, opts: TeardownOptions): TeardownPlan {
    if revision == 0 then CannotTell(ZeroRevision)
    else if opts.orphan || (opts.owner.Some? && opts.ownerOrphansDependents) then LeaveOrphaned
    else if cached.None? then AlreadyGone
    else
      var v := cached.value;
      if opts.owner.Some? then
        if DetectOwner(v.refs, opts.owner.value, {}) != IsController then
          GiveUpOwnership(
            if IsOwner(v.refs, opts.owner.value) then Some(RemoveOwner(v.refs, opts.owner.value)) else None)
        else Delete(v.uid, v.rv)
      else
        match NoteRevision(v.note)
        case None => CannotTell(UnreadableRevision)
        case Some(n) => if n != revision then LeaveToOthers else Delete(v.uid, v.rv)
  }

  /** The world after a teardown call, whether the object counts as gone, and the error of the call. */
  function TornDown(w: World, revision: int, key: Key, cached: Option<Live>, opts: TeardownOptions)
    : (World, bool, Option<Error>)
  {
    match PlanTeardown(revision, cached, opts)
    case LeaveOrphaned => (w, true, None)
    case AlreadyGone => (w, true, None)
    case LeaveToOthers => (w, true, None)
    case CannotTell(error) => (w, false, Some(error))
    case GiveUpOwnership(refs) =>
      if refs.None? then (w, true, if key in w.objects then None else Some(Api(NotFound)))
      else
        var r := PatchRefs(w, key, refs.value);
        if r.Err? then (w, true, Some(Api(r.error))) else (r.value, true, None)
    case Delete(uid, rv) =>
      var r := DeleteObject(w, key, uid, rv);
      if r.Ok? then (r.value, false, None)
      else if r.error == NotFound then (w, true, None)
      else (w, false, Some(Api(r.error)))
  }

  /**
   A teardown that read the current version and reports the object gone has left nothing of its own:
   the object does not exist, or its owner is no owner of it any more; without an owner, the object
   notes another revision.
   */
  lemma GoneMeansReleased(w: World, revision: int, key: Key, opts: TeardownOptions)
    requires !opts.orphan && !opts.ownerOrphansDependents
    requires opts.owner.Some? ==> Resolvable(opts.owner.value)
    requires key in w.objects ==> WellFormed(w.objects[key].refs)
    ensures var cached := if key in w.objects then Some(w.objects[key]) else None;
            var (w', gone, err) := TornDown(w, revision, key, cached, opts);
            err.None? && gone ==>
              key !in w'.objects ||
              if opts.owner.Some? then !IsOwner(w'.objects[key].refs, opts.owner.value)
              else NoteRevision(w'.objects[key].note) != Some(revision)
  {
    if key in w.objects && opts.owner.Some? {
      RemoveOwnerEffect(w.objects[key].refs, opts.owner.value);
    }
  }

  // ---------------------------------------------------------------- the calls as the code makes them

  /** The API server as a mutable object. Each call answers with an error or changes the stored world. */
  class Cluster {
    var world: World

    constructor (world: World)
      ensures this.world == world
    {
      this.world := world;
    }

    /** Fails on an existing object; otherwise a new one appears under a fresh UID and version, nothing else changes. */
    method Create(e: Engine, d: Desired, dryRun: bool) returns (err: Option<ApiError>)
      modifies this
      ensures err == if d.key in old(world.objects) then Some(AlreadyExists) else None
      ensures err.Some? || dryRun ==> world == old(world)
      ensures err.None? && !dryRun ==>
                && d.key in world.objects && world.objects - {d.key} == old(world.objects)
                && world.nextUid == old(world.nextUid) + 1 && world.nextRv == old(world.nextRv) + 1
                && world.objects[d.key].uid == old(world.nextUid) && world.objects[d.key].rv == old(world.nextRv)
                && LiveContent(e.encoding, world.objects[d.key]) == DesiredContent(e.encoding, d)
                && world.objects[d.key].managed == [ManagedEntry(e.fieldOwner, UpdateOp, "", Fields(e, d))]
                && Ok(world) == CreateObject(e, old(world), d)
    {
      if d.key in world.objects {
        return Some(AlreadyExists);
      }
      if !dryRun {
        var entry := ManagedEntry(e.fieldOwner, UpdateOp, "", Fields(e, d));
        var v := Live(world.nextUid, world.nextRv, d.data, d.note, d.refs, [entry]);
        world := World(world.objects[d.key := v], world.nextRv + 1, world.nextUid + 1);
      }
      err := None;
    }

    method PatchOwners(key: Key, refs: seq<OwnerRef>) returns (err: Option<Error>)
      modifies this
      ensures err == (var r := PatchRefs(old(world), key, refs); if r.Err? then Some(Api(r.error)) else None)
      ensures world == (var r := PatchRefs(old(world), key, refs); if r.Err? then old(world) else r.value)
    {
      var r := PatchRefs(world, key, refs);
      if r.Err? {
        return Some(Api(r.error));
      }
      world := r.value;
      err := None;
    }

    /** Removes exactly the named object, and only while it is at the given UID and version. */
    method Delete(key: Key, uid: nat, rv: nat) returns (err: Option<Error>)
      modifies this
      ensures err.None? <==>
              key in old(world.objects) && old(world.objects)[key].uid == uid && old(world.objects)[key].rv == rv
      ensures err == Some(Api(NotFound)) <==> key !in old(world.objects)
      ensures err.Some? ==> world == old(world) && err.value in {Api(NotFound), Api(VersionConflict)}
      ensures err.None? ==>
                && key !in world.objects && world.objects == old(world.objects) - {key}
                && world.nextRv == old(world.nextRv) && world.nextUid == old(world.nextUid)
    {
      if key !in world.objects {
        return Some(Api(NotFound));
      }
      if world.objects[key].uid != uid || world.objects[key].rv != rv {
        return Some(Api(VersionConflict));
      }
      world := world.(objects := world.objects - {key});
      err := None;
    }

    method PatchManagers(e: Engine, key: Key, rv: nat) returns (newRv: nat, err: Option<ApiError>)
      modifies this
      ensures err == (var r := MigrateObject(e, old(world), key, rv); if r.Err? then Some(r.error) else None)
      ensures err.None? ==> world == MigrateObject(e, old(world), key, rv).value && newRv == old(world).nextRv
      ensures err.Some? ==> world == old(world)
    {
      newRv := world.nextRv;
      var r := MigrateObject(e, world, key, rv);
      if r.Err? {
        return newRv, Some(r.error);
      }
      world := r.value;
      err := None;
    }

    method Apply(e: Engine, d: Desired, rv: nat, force: bool, keep: set<Uid>) returns (err: Option<ApiError>)
      modifies this
      ensures err == (var r := ApplyObject(e, old(world), d, rv, force, keep); if r.Err? then Some(r.error) else None)
      ensures world == (var r := ApplyObject(e, old(world), d, rv, force, keep); if r.Err? then old(world) else r.value)
    {
      var r := ApplyObject(e, world, d, rv, force, keep);
      if r.Err? {
        return Some(r.error);
      }
      world := r.value;
      err := None;
    }
  }

  method Teardown(c: Cluster, revision: int, key: Key, cached: Option<Live>, opts: TeardownOptions)
    returns (gone: bool, err: Option<Error>)
    modifies c
    ensures (c.world, gone, err) == TornDown(old(c.world), revision, key, cached, opts)
  {
    if revision == 0 {
      return false, Some(ZeroRevision);
    }
    if opts.orphan || (opts.owner.Some? && opts.ownerOrphansDependents) {
      return true, None;
    }
    if cached.None? {
      return true, None;
    }
    var v := cached.value;
    if opts.owner.Some? {
      if DetectOwner(v.refs, opts.owner.value, {}) != IsController {
        if !IsOwner(v.refs, opts.owner.value) {
          return true, if key in c.world.objects then None else Some(Api(NotFound));
        }
        err := c.PatchOwners(key, RemoveOwner(v.refs, opts.owner.value));
        return true, err;
      }
    } else {
      var actual := NoteRevision(v.note);
      if actual.None? {
        return false, Some(UnreadableRevision);
      }
      if actual.value != revision {
        return true, None;
      }
    }
    err := c.Delete(key, v.uid, v.rv);
    if err == Some(Api(NotFound)) {
      return true, None;
    }
    gone := false;
  }

  method MigrateFieldManagers(c: Cluster, e: Engine, key: Key, v: Live, opts: Options)
    returns (rv: nat, err: Option<Error>)
    modifies c
    ensures opts.paused || !NeedsMigration(v.managed, e.fieldOwner) ==>
              c.world == old(c.world) && err.None? && rv == v.rv
    ensures !opts.paused && NeedsMigration(v.managed, e.fieldOwner) ==>
              var r := MigrateObject(e, old(c.world), key, v.rv);
              && c.world == (if r.Err? then old(c.world) else r.value)
              && err == (if r.Err? then Some(Api(r.error)) else None)
              && (r.Ok? ==> rv == old(c.world).nextRv)
  {
    rv, err := v.rv, None;
    if opts.paused || !NeedsMigration(v.managed, e.fieldOwner) {
      return;
    }
    var newRv, apiErr := c.PatchManagers(e, key, v.rv);
    if apiErr.Some? {
      return v.rv, Some(Api(apiErr.value));
    }
    rv := newRv;
  }

  method ApplyDesired(c: Cluster, e: Engine, d: Desired, v: Live, opts: Options, force: bool, keep: set<Uid>)
    returns (err: Option<Error>)
    modifies c
    ensures opts.paused ==> c.world == old(c.world) && err.None?
    ensures !opts.paused ==> (c.world, err) == Written(e, old(c.world), d, v, force, keep)
  {
    if opts.paused {
      return None;
    }
    var rv, migrateErr := MigrateFieldManagers(c, e, d.key, v, opts);
    if migrateErr.Some? {
      return migrateErr;
    }
    var apiErr := c.Apply(e, d, rv, force, keep);
    err := if apiErr.Some? then Some(Api(apiErr.value)) else None;
  }

  method AdoptObject(c: Cluster, e: Engine, revision: int, desired: Desired, v: Live, opts: Options, keep: set<Uid>)
    returns (out: Outcome)
    modifies c
    ensures match Adopt(desired, v, revision, opts)
            case Report(_) => false
            case Refuse(error) => c.world == old(c.world) && out == Failed(error)
            case Write(d, force, action) =>
              if opts.paused then c.world == old(c.world) && out == Done(action)
              else
                var (w, err) := Written(e, old(c.world), d, v, force, keep);
                c.world == w && out == if err.Some? then Failed(err.value) else Done(action)
  {
    var d := desired.(note := Number(revision));
    if opts.owner.Some? {
      d := d.(refs := v.refs);
      d := d.(refs := Release(d.refs));
      var claimed := SetController(d.refs, opts.owner.value);
      if claimed.Err? {
        return Failed(OwnerProblem(claimed.error));
      }
      d := d.(refs := claimed.value);
    }
    var err := ApplyDesired(c, e, d, v, opts, true, keep);
    out := if err.Some? then Failed(err.value) else Done(Updated);
  }

  method UpdateObject(c: Cluster, e: Engine, revision: int, d: Desired, v: Live, opts: Options, keep: set<Uid>)
    returns (out: Outcome)
    modifies c
    ensures (c.world, out) == Updating(e, old(c.world), revision, d, v, opts, keep)
  {
    var cmp := CompareWith(e, d, v, opts);
    if cmp.Err? {
      return Failed(cmp.error);
    }
    var actual := NoteRevision(v.note);
    if actual.None? {
      return Failed(UnreadableRevision);
    }
    match CheckSituation(opts, v) {
      case UnknownController =>
        if opts.collision != NoProtection {
          return Done(Collision);
        }
        out := AdoptObject(c, e, revision, d, v, opts, keep);
      case NoController =>
        if opts.collision == Prevent || !v.note.Missing? {
          return Done(Collision);
        }
        out := AdoptObject(c, e, revision, d, v, opts, keep);
      case SiblingIsController =>
        if actual.value > revision {
          return Done(Progressed);
        }
        if actual.value < revision {
          out := AdoptObject(c, e, revision, d, v, opts, keep);
          return;
        }
        out := Done(Collision);
      case IsController =>
        var modified := cmp.value.NeedsUpdate();
        if !cmp.value.IsConflict() && !modified {
          return Done(Idle);
        }
        var force := cmp.value.IsConflict();
        var err := ApplyDesired(c, e, d, v, opts, force, keep);
        if err.Some? {
          return Failed(err.value);
        }
        out := Done(if force then Recovered else Updated);
    }
  }

  method Reconcile(c: Cluster, e: Engine, revision: int, m: Manifest, opts: Options, cached: Option<Live>,
                   keep: set<Uid>)
    returns (out: Outcome)
    modifies c
    ensures (c.world, out) == Reconciled(e, old(c.world), revision, m, opts, cached, keep)
  {
    var prepared := Prepare(e, revision, m, opts);
    if prepared.Err? {
      return Failed(prepared.error);
    }
    var d := prepared.value;
    if cached.Some? {
      out := UpdateObject(c, e, revision, d, cached.value, opts, keep);
      return;
    }
    var created := c.Create(e, d, opts.paused);
    if created.Some? {
      if !e.hasUnfilteredReader {
        return Failed(CreateCollision);
      }
      out := UpdateObject(c, e, revision, d, c.world.objects[d.key], opts, keep);
      return;
    }
    if !opts.paused {
      var v := c.world.objects[d.key];
      assert IsClientSide(v.managed[0], e.fieldOwner);
      var _, err := MigrateFieldManagers(c, e, d.key, v, opts);
      match err {
        case Some(error) =>
          return Failed(error);
        case None =>
      }
    }
    out := Done(Created);
  }
}
