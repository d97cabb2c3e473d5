/**
 Preflight validation of a revision (validation/revision.go, validation/phase.go, validation/metadata.go):
 phase names, object metadata, and objects that occur more than once.

 Lists of phase names inside a duplication error are sets here; they are sorted for display only.
 */
module Preflight {
  import opened Basics
  import opened Results
  import opened Rollout

  /** Group, version, kind, namespace and name: what identifies an object. */
  datatype Ref = Ref(group: string, version: string, kind: string, namespace: string, name: string)

  datatype Obj = Obj(ref: Ref, uid: string, generation: int, generateName: string,
                     finalizers: seq<string>, ownerReferences: seq<string>, resourceVersion: string)

  // ---------------------------------------------------------------- metadata and names

  datatype Field = ApiVersion | Kind | Uid | Generation | GenerateName | Finalizers | OwnerReferences | ResourceVersion

  /** What the rollout demands of a field: type fields are set, server-managed ones are not. */
  predicate Violates(o: Obj, f: Field) {
    match f
    case ApiVersion => o.ref.version == ""
    case Kind => o.ref.kind == ""
    case Uid => o.uid != ""
    case Generation => o.generation > 0
    case GenerateName => o.generateName != ""
    case Finalizers => o.finalizers != []
    case OwnerReferences => o.ownerReferences != []
    case ResourceVersion => o.resourceVersion != ""
  }

  /** What is wrong with a field, as it is reported. */
  datatype FieldError = Required(path: string, detail: string) | Forbidden(path: string, detail: string)

  function ErrorOf(f: Field): FieldError {
    match f
    case ApiVersion => Required("apiVersion", "must not be empty")
    case Kind => Required("kind", "must not be empty")
    case Uid => Forbidden("metadata.uid", "must be empty")
    case Generation => Forbidden("metadata.generation", "must be empty")
    case GenerateName => Forbidden("metadata.generateName", "must be empty")
    case Finalizers => Forbidden("metadata.finalizers", "must be empty")
    case OwnerReferences => Forbidden("metadata.ownerReferences", "must be empty")
    case ResourceVersion => Forbidden("metadata.resourceVersion", "must be empty")
  }

  /** The errors reported for the fields, in order. */
  function ErrorsOf(fields: seq<Field>): seq<FieldError> {
    seq(|fields|, i requires 0 <= i < |fields| => ErrorOf(fields[i]))
  }

  method CheckField(fields0: seq<Field>, errs0: seq<FieldError>, bad: bool, f: Field)
    returns (fields: seq<Field>, errs: seq<FieldError>)
    requires errs0 == ErrorsOf(fields0)
    ensures errs == ErrorsOf(fields) && forall x :: x in fields <==> x in fields0 || (bad && x == f)
  {
    fields, errs := fields0, errs0;
    if bad {
      fields, errs := fields + [f], errs + [ErrorOf(f)];
    }
  }

  /** One error per violated rule, with the path and the complaint of that rule. */
  method ValidateObjectMetadata(o: Obj) returns (fields: seq<Field>, errs: seq<FieldError>)
    ensures errs == ErrorsOf(fields) && forall f :: f in fields <==> Violates(o, f)
  {
    fields, errs := CheckField([], [], |o.ref.version| == 0, ApiVersion);
    fields, errs := CheckField(fields, errs, |o.ref.kind| == 0, Kind);
    fields, errs := CheckField(fields, errs, |o.uid| > 0, Uid);
    fields, errs := CheckField(fields, errs, o.generation > 0, Generation);
    fields, errs := CheckField(fields, errs, |o.generateName| > 0, GenerateName);
    fields, errs := CheckField(fields, errs, |o.finalizers| > 0, Finalizers);
    fields, errs := CheckField(fields, errs, |o.ownerReferences| > 0, OwnerReferences);
    fields, errs := CheckField(fields, errs, |o.resourceVersion| > 0, ResourceVersion);
  }

  predicate Sound(o: Obj) {
    forall f :: !Violates(o, f)
  }

  predicate Letter(c: char) {
    'a' <= c <= 'z'
  }

  predicate Alphanumeric(c: char) {
    Letter(c) || '0' <= c <= '9'
  }

  /** A DNS label in the sense of RFC 1035: at most 63 characters, from a letter to a letter or digit. */
  predicate ValidName(name: string) {
    && 0 < |name| <= 63
    && Letter(name[0]) && Alphanumeric(name[|name| - 1])
    && forall i :: 0 <= i < |name| ==> Alphanumeric(name[i]) || name[i] == '-'
  }

  // ---------------------------------------------------------------- duplicates

  function RefsOf(p: Phase<Obj>): seq<Ref> {
    seq(|p.objects|, i requires 0 <= i < |p.objects| => p.objects[i].ref)
  }

  /** The references of all objects of all phases, in order. */
  function AllRefs(phases: seq<Phase<Obj>>): seq<Ref> {
    if phases == [] then [] else AllRefs(phases[..|phases| - 1]) + RefsOf(phases[|phases| - 1])
  }

  /** The names of the phases that contain an object. */
  function PhasesWith(phases: seq<Phase<Obj>>, r: Ref): set<string> {
    set i | 0 <= i < |phases| && r in RefsOf(phases[i]) :: phases[i].name
  }

  predicate Repeated(phases: seq<Phase<Obj>>, r: Ref) {
    multiset(AllRefs(phases))[r] >= 2
  }

  /** What the search for duplicates knows after a part of the phases. */
  ghost predicate Tracks(done: seq<Phase<Obj>>, first: map<Ref, string>, conflicts: map<Ref, set<string>>) {
    && (forall r :: r in first <==> r in AllRefs(done))
    && (forall r :: r in conflicts <==> Repeated(done, r))
    && (forall r :: r in conflicts ==> r in first && conflicts[r] == PhasesWith(done, r))
    && (forall r :: r in first && r !in conflicts ==> PhasesWith(done, r) == {first[r]})
  }

  lemma AllRefsSnoc(done: seq<Phase<Obj>>, p: Phase<Obj>)
    ensures AllRefs(done + [p]) == AllRefs(done) + RefsOf(p)
  {
    assert (done + [p])[..|done|] == done;
  }

  function Upto(p: Phase<Obj>, j: nat): Phase<Obj>
    requires j <= |p.objects|
  {
    p.(objects := p.objects[..j])
  }

  /** One more object of the last phase. */
  lemma OneMoreRef(done: seq<Phase<Obj>>, p: Phase<Obj>, j: nat)
    requires j < |p.objects|
    ensures AllRefs(done + [Upto(p, j + 1)]) == AllRefs(done + [Upto(p, j)]) + [p.objects[j].ref]
  {
    AllRefsSnoc(done, Upto(p, j));
    AllRefsSnoc(done, Upto(p, j + 1));
    RefsUpto(p, j);
    Regroup(AllRefs(done), RefsOf(Upto(p, j)), p.objects[j].ref);
  }

  lemma Regroup(a: seq<Ref>, b: seq<Ref>, r: Ref)
    ensures a + (b + [r]) == (a + b) + [r]
  {
  }

  lemma RefsUpto(p: Phase<Obj>, j: nat)
    requires j < |p.objects|
    ensures RefsOf(Upto(p, j + 1)) == RefsOf(Upto(p, j)) + [p.objects[j].ref]
  {
    var longer, shorter := RefsOf(Upto(p, j + 1)), RefsOf(Upto(p, j));
    assert |longer| == |shorter| + 1 && longer[j] == p.objects[j].ref;
    assert forall i :: 0 <= i < j ==> longer[i] == shorter[i];
  }

  lemma OneMoreName(done: seq<Phase<Obj>>, p: Phase<Obj>, j: nat, r: Ref)
    requires j < |p.objects|
    ensures PhasesWith(done + [Upto(p, j + 1)], r) ==
            PhasesWith(done + [Upto(p, j)], r) + if r == p.objects[j].ref then {p.name} else {}
  {
    RefsUpto(p, j);
    var a, b := Upto(p, j), Upto(p, j + 1);
    assert r in RefsOf(b) <==> r in RefsOf(a) || r == p.objects[j].ref;
    PhasesWithSnoc(done, a, r);
    PhasesWithSnoc(done, b, r);
    AddedOnce(PhasesWith(done, r), p.name, r in RefsOf(a), r == p.objects[j].ref);
  }

  lemma AddedOnce(s: set<string>, name: string, before: bool, now: bool)
    ensures s + (if before || now then {name} else {}) ==
            (s + if before then {name} else {}) + if now then {name} else {}
  {
  }

  lemma PhasesWithSnoc(done: seq<Phase<Obj>>, p: Phase<Obj>, r: Ref)
    ensures PhasesWith(done + [p], r) == PhasesWith(done, r) + if r in RefsOf(p) then {p.name} else {}
  {
    var more := done + [p];
    assert more[|done|] == p;
    assert forall i :: 0 <= i < |done| ==> more[i] == done[i];
    forall n | n in PhasesWith(done, r) + if r in RefsOf(p) then {p.name} else {} ensures n in PhasesWith(more, r) {
      if n in PhasesWith(done, r) {
        var i :| 0 <= i < |done| && r in RefsOf(done[i]) && done[i].name == n;
        assert more[i] == done[i];
      }
    }
  }

  /** A phase without objects adds nothing. */
  lemma NoObjects(done: seq<Phase<Obj>>, p: Phase<Obj>, first: map<Ref, string>, conflicts: map<Ref, set<string>>)
    requires p.objects == [] && Tracks(done, first, conflicts)
    ensures Tracks(done + [p], first, conflicts)
  {
    AllRefsSnoc(done, p);
    assert AllRefs(done + [p]) == AllRefs(done);
    forall r ensures PhasesWith(done + [p], r) == PhasesWith(done, r) {
      PhasesWithSnoc(done, p, r);
    }
    SameTracks(done, done + [p], first, conflicts);
  }

  lemma SameTracks(now: seq<Phase<Obj>>, next: seq<Phase<Obj>>, first: map<Ref, string>,
                   conflicts: map<Ref, set<string>>)
    requires Tracks(now, first, conflicts) && AllRefs(next) == AllRefs(now)
    requires forall r :: PhasesWith(next, r) == PhasesWith(now, r)
    ensures Tracks(next, first, conflicts)
  {
    assert forall r :: Repeated(next, r) <==> Repeated(now, r);
  }

  /** One object more has been seen, in the phase of this name. */
  ghost predicate Adds(now: seq<Phase<Obj>>, next: seq<Phase<Obj>>, r: Ref, name: string) {
    && (forall q :: q in AllRefs(next) <==> q in AllRefs(now) || q == r)
    && (forall q :: Repeated(next, q) <==> Repeated(now, q) || (q == r && r in AllRefs(now)))
    && (forall q :: q != r ==> PhasesWith(next, q) == PhasesWith(now, q))
    && PhasesWith(next, r) == PhasesWith(now, r) + {name}
  }

  lemma OneMoreAdds(done: seq<Phase<Obj>>, p: Phase<Obj>, j: nat)
    requires j < |p.objects|
    ensures Adds(done + [Upto(p, j)], done + [Upto(p, j + 1)], p.objects[j].ref, p.name)
  {
    var now, next := done + [Upto(p, j)], done + [Upto(p, j + 1)];
    var r := p.objects[j].ref;
    OneMoreRef(done, p, j);
    OneMoreName(done, p, j, r);
    assert multiset(AllRefs(next)) == multiset(AllRefs(now)) + multiset{r};
    assert r in AllRefs(now) <==> multiset(AllRefs(now))[r] >= 1;
    forall q | q != r ensures PhasesWith(next, q) == PhasesWith(now, q) {
      OneMoreName(done, p, j, q);
    }
  }

  lemma SeenFirst(now: seq<Phase<Obj>>, next: seq<Phase<Obj>>, r: Ref, name: string,
                  first: map<Ref, string>, conflicts: map<Ref, set<string>>)
    requires Tracks(now, first, conflicts) && Adds(now, next, r, name) && r !in first
    ensures Tracks(next, first[r := name], conflicts)
  {
    AbsentMeansNoPhase(now, r);
    assert r !in conflicts;
  }

  lemma SeenAgain(now: seq<Phase<Obj>>, next: seq<Phase<Obj>>, r: Ref, name: string,
                  first: map<Ref, string>, conflicts: map<Ref, set<string>>)
    requires Tracks(now, first, conflicts) && Adds(now, next, r, name) && r in first
    ensures Tracks(next, first, conflicts[r := (if r in conflicts then conflicts[r] else {first[r]}) + {name}])
  {
  }

  lemma {:induction false} AbsentMeansNoPhase(phases: seq<Phase<Obj>>, r: Ref)
    ensures r in AllRefs(phases) <==> PhasesWith(phases, r) != {}
  {
    if phases != [] {
      var n := |phases| - 1;
      AbsentMeansNoPhase(phases[..n], r);
      PhasesWithSnoc(phases[..n], phases[n], r);
      assert phases[..n] + [phases[n]] == phases;
    }
  }

  /** The objects that occur more than once, each with the names of the phases that contain it. */
  method CheckForObjectDuplicates(phases: seq<Phase<Obj>>) returns (conflicts: map<Ref, set<string>>)
    ensures forall r :: r in conflicts <==> Repeated(phases, r)
    ensures forall r :: r in conflicts ==> conflicts[r] == PhasesWith(phases, r)
  {
    var uniqueObjectsInPhase: map<Ref, string> := map[];
    conflicts := map[];
    for i := 0 to |phases|
      invariant Tracks(phases[..i], uniqueObjectsInPhase, conflicts)
    {
      var phase := phases[i];
      ghost var done := phases[..i];
      NoObjects(done, Upto(phase, 0), uniqueObjectsInPhase, conflicts);
      for j := 0 to |phase.objects|
        invariant Tracks(done + [Upto(phase, j)], uniqueObjectsInPhase, conflicts)
      {
        var ref := phase.objects[j].ref;
        OneMoreAdds(done, phase, j);
        ghost var now, next := done + [Upto(phase, j)], done + [Upto(phase, j + 1)];
        if ref !in uniqueObjectsInPhase {
          SeenFirst(now, next, ref, phase.name, uniqueObjectsInPhase, conflicts);
          uniqueObjectsInPhase := uniqueObjectsInPhase[ref := phase.name];
        } else {
          SeenAgain(now, next, ref, phase.name, uniqueObjectsInPhase, conflicts);
          var names := if ref in conflicts then conflicts[ref] else {uniqueObjectsInPhase[ref]};
          conflicts := conflicts[ref := names + {phase.name}];
        }
      }
      assert Upto(phase, |phase.objects|) == phase;
      assert phases[..i + 1] == done + [phase];
    }
    assert phases[..|phases|] == phases;
  }

  // ---------------------------------------------------------------- errors of one object

  /** Errors found for one object, by one check. */
  datatype Violation<E> = Violation(ref: Ref, errors: seq<E>)

  /** Everything found for an object, in order. */
  function ErrorsFor<E>(vs: seq<Violation<E>>, r: Ref): seq<E> {
    if vs == [] then []
    else ErrorsFor(vs[..|vs| - 1], r) + if vs[|vs| - 1].ref == r then vs[|vs| - 1].errors else []
  }

  /** The objects something was found for. */
  function Blamed<E>(vs: seq<Violation<E>>): set<Ref> {
    set i | 0 <= i < |vs| :: vs[i].ref
  }

  lemma BlamedSnoc<E>(vs: seq<Violation<E>>, v: Violation<E>)
    ensures Blamed(vs + [v]) == Blamed(vs) + {v.ref}
  {
    var more := vs + [v];
    assert more[|vs|] == v;
    assert forall i :: 0 <= i < |vs| ==> more[i] == vs[i];
    forall r | r in Blamed(vs) ensures r in Blamed(more) {
      var i :| 0 <= i < |vs| && vs[i].ref == r;
      assert more[i].ref == r;
    }
  }

  /** The map holds everything found for every object. */
  ghost predicate Merged<E>(vs: seq<Violation<E>>, unique: map<Ref, seq<E>>) {
    unique.Keys == Blamed(vs) && forall r :: ErrorsIn(unique, r) == ErrorsFor(vs, r)
  }

  function ErrorsIn<E>(unique: map<Ref, seq<E>>, r: Ref): seq<E> {
    if r in unique then unique[r] else []
  }

  lemma MergeOneMore<E>(vs: seq<Violation<E>>, v: Violation<E>, unique: map<Ref, seq<E>>)
    requires Merged(vs, unique)
    ensures Merged(vs + [v], unique[v.ref := ErrorsIn(unique, v.ref) + v.errors])
  {
    BlamedSnoc(vs, v);
    var unique' := unique[v.ref := ErrorsIn(unique, v.ref) + v.errors];
    forall r ensures ErrorsIn(unique', r) == ErrorsFor(vs + [v], r) {
      assert ErrorsIn(unique', r) == ErrorsIn(unique, r) + if v.ref == r then v.errors else [];
      ErrorsSnoc(vs, v, r);
    }
  }

  lemma ErrorsSnoc<E>(vs: seq<Violation<E>>, v: Violation<E>, r: Ref)
    ensures ErrorsFor(vs + [v], r) == ErrorsFor(vs, r) + if v.ref == r then v.errors else []
  {
    assert (vs + [v])[..|vs|] == vs;
  }

  method MergeViolations<E>(vs: seq<Violation<E>>) returns (unique: map<Ref, seq<E>>)
    ensures Merged(vs, unique)
  {
    unique := map[];
    for i := 0 to |vs|
      invariant Merged(vs[..i], unique)
    {
      assert vs[..i + 1] == vs[..i] + [vs[i]];
      MergeOneMore(vs[..i], vs[i], unique);
      var r := vs[i].ref;
      unique := unique[r := ErrorsIn(unique, r) + vs[i].errors];
    }
    assert vs[..|vs|] == vs;
  }

  /** One violation per entry of the map, except for those left. */
  ghost predicate Listed<E>(out: seq<Violation<E>>, unique: map<Ref, seq<E>>, left: set<Ref>) {
    && Blamed(out) == unique.Keys - left
    && (forall a :: 0 <= a < |out| ==> out[a].ref in unique && out[a].errors == unique[out[a].ref])
    && (forall a, b :: 0 <= a < b < |out| ==> out[a].ref != out[b].ref)
  }

  lemma ListOneMore<E>(out: seq<Violation<E>>, unique: map<Ref, seq<E>>, left: set<Ref>, r: Ref)
    requires Listed(out, unique, left) && r in left && left <= unique.Keys
    ensures Listed(out + [Violation(r, unique[r])], unique, left - {r})
  {
    BlamedSnoc(out, Violation(r, unique[r]));
    forall a | 0 <= a < |out| ensures out[a].ref != r {
      assert out[a].ref in Blamed(out);
    }
  }

  /** One violation per object, which holds everything found for it; objects come in no particular order. */
  method CompactObjectViolations<E>(vs: seq<Violation<E>>) returns (out: seq<Violation<E>>)
    ensures forall a, b :: 0 <= a < b < |out| ==> out[a].ref != out[b].ref
    ensures forall a :: 0 <= a < |out| ==> out[a].errors == ErrorsFor(vs, out[a].ref)
    ensures Blamed(out) == Blamed(vs)
  {
    var unique := MergeViolations(vs);
    out := [];
    var left := unique.Keys;
    while left != {}
      invariant left <= unique.Keys && Listed(out, unique, left)
      decreases |left|
    {
      var r :| r in left;
      ListOneMore(out, unique, left, r);
      out := out + [Violation(r, unique[r])];
      left := left - {r};
    }
    ListedAll(vs, unique, out);
  }

  lemma ListedAll<E>(vs: seq<Violation<E>>, unique: map<Ref, seq<E>>, out: seq<Violation<E>>)
    requires Merged(vs, unique) && Listed(out, unique, {})
    ensures forall a, b :: 0 <= a < b < |out| ==> out[a].ref != out[b].ref
    ensures forall a :: 0 <= a < |out| ==> out[a].errors == ErrorsFor(vs, out[a].ref)
    ensures Blamed(out) == Blamed(vs)
  {
  }

  // ---------------------------------------------------------------- the revision

  /** Metadata errors are kept by field; ErrorsOf renders them. */
  datatype ObjectError = Metadata(ref: Ref, fields: seq<Field>) | Duplicate(ref: Ref, names: set<string>)

  datatype PhaseError = PhaseError(name: string, nameInvalid: bool, objects: seq<ObjectError>)

  /** An error that a phase with this name and these objects deserves, given the duplicates. */
  ghost predicate Deserved(phases: seq<Phase<Obj>>, name: string, objects: seq<Obj>, e: ObjectError) {
    match e
    case Duplicate(r, names) => Repeated(phases, r) && names == PhasesWith(phases, r) && name in names
    case Metadata(r, fields) =>
      exists o :: o in objects && o.ref == r && fields != [] && forall f :: f in fields <==> Violates(o, f)
  }

  /** Every duplicate that concerns the phase and every unsound object is reported, and nothing else. */
  ghost predicate ReportsObjects(phases: seq<Phase<Obj>>, name: string, objects: seq<Obj>, errs: seq<ObjectError>) {
    && (forall e :: e in errs ==> Deserved(phases, name, objects, e))
    && (forall o :: o in objects && !Sound(o) ==> exists e :: e in errs && e.Metadata? && e.ref == o.ref)
    && (forall r :: Repeated(phases, r) && name in PhasesWith(phases, r) ==>
          Duplicate(r, PhasesWith(phases, r)) in errs)
  }

  method ValidateObjects(objects: seq<Obj>) returns (errs: seq<ObjectError>)
    ensures forall e :: e in errs ==> e.Metadata? && Deserved([], "", objects, e)
    ensures forall o :: o in objects && !Sound(o) ==> exists e :: e in errs && e.Metadata? && e.ref == o.ref
  {
    errs := [];
    for j := 0 to |objects|
      invariant forall e :: e in errs ==> e.Metadata? && Deserved([], "", objects, e)
      invariant forall i :: 0 <= i < j && !Sound(objects[i]) ==>
                  exists e :: e in errs && e.Metadata? && e.ref == objects[i].ref
    {
      var o := objects[j];
      var fields, found := ValidateObjectMetadata(o);
      if |found| > 0 {
        var e := Metadata(o.ref, fields);
        assert o in objects;
        assert Deserved([], "", objects, e);
        ghost var before := errs;
        errs := errs + [e];
        assert e in errs && forall x :: x in before ==> x in errs;
      }
    }
  }

  /** Adds the duplicates that name this phase, in whatever order the map yields them. */
  method AddDuplicates(name: string, dups: map<Ref, set<string>>, errs0: seq<ObjectError>)
    returns (errs: seq<ObjectError>)
    ensures forall e :: e in errs <==>
              e in errs0 || (e.Duplicate? && e.ref in dups && e.names == dups[e.ref] && name in e.names)
  {
    errs := errs0;
    var left := dups.Keys;
    while left != {}
      invariant left <= dups.Keys
      invariant forall e :: e in errs <==>
        e in errs0 || (e.Duplicate? && e.ref in dups && e.ref !in left && e.names == dups[e.ref] && name in e.names)
      decreases |left|
    {
      var r :| r in left;
      if name in dups[r] {
        errs := errs + [Duplicate(r, dups[r])];
      }
      left := left - {r};
    }
  }

  ghost predicate Faulty(phases: seq<Phase<Obj>>, p: Phase<Obj>) {
    || !ValidName(p.name)
    || (exists o :: o in p.objects && !Sound(o))
    || (exists r :: Repeated(phases, r) && p.name in PhasesWith(phases, r))
  }

  ghost predicate IsErrorOf(phases: seq<Phase<Obj>>, p: Phase<Obj>, err: PhaseError) {
    err.name == p.name && err.nameInvalid == !ValidName(p.name) &&
    ReportsObjects(phases, p.name, p.objects, err.objects)
  }

  /** One error per faulty phase, in order: error k is about phase at[k]. */
  ghost predicate Reports(phases: seq<Phase<Obj>>, upto: nat, errs: seq<PhaseError>, at: seq<nat>)
    requires upto <= |phases|
  {
    && |at| == |errs|
    && (forall k, l :: 0 <= k < l < |at| ==> at[k] < at[l])
    && (forall k :: 0 <= k < |at| ==> at[k] < upto && IsErrorOf(phases, phases[at[k]], errs[k]))
    && (forall i :: 0 <= i < upto ==> (Faulty(phases, phases[i]) <==> i in at))
  }

  method ValidatePhase(ghost phases: seq<Phase<Obj>>, p: Phase<Obj>, dups: map<Ref, set<string>>)
    returns (err: Option<PhaseError>)
    requires forall r :: r in dups <==> Repeated(phases, r)
    requires forall r :: r in dups ==> dups[r] == PhasesWith(phases, r)
    ensures err.Some? <==> Faulty(phases, p)
    ensures err.Some? ==> IsErrorOf(phases, p, err.value)
  {
    var objectErrors := ValidateObjects(p.objects);
    ghost var metadata := objectErrors;
    objectErrors := AddDuplicates(p.name, dups, objectErrors);
    forall e | e in objectErrors ensures Deserved(phases, p.name, p.objects, e) {
      assert e in metadata ==> Deserved([], "", p.objects, e);
    }
    assert ReportsObjects(phases, p.name, p.objects, objectErrors) by {
      forall o | o in p.objects && !Sound(o) ensures exists e :: e in objectErrors && e.Metadata? && e.ref == o.ref {
        var e :| e in metadata && e.Metadata? && e.ref == o.ref;
        assert e in objectErrors;
      }
    }
    ErrorsMeanFaulty(phases, p, objectErrors);
    if ValidName(p.name) && |objectErrors| == 0 {
      return None;
    }
    err := Some(PhaseError(p.name, !ValidName(p.name), objectErrors));
  }

  lemma ErrorsMeanFaulty(phases: seq<Phase<Obj>>, p: Phase<Obj>, errs: seq<ObjectError>)
    requires ReportsObjects(phases, p.name, p.objects, errs)
    ensures Faulty(phases, p) <==> !ValidName(p.name) || errs != []
  {
    if errs != [] {
      var e := errs[0];
      assert e in errs && Deserved(phases, p.name, p.objects, e);
      if e.Metadata? {
        var o :| o in p.objects && o.ref == e.ref && e.fields != [] && forall f :: f in e.fields <==> Violates(o, f);
        assert e.fields[0] in e.fields && Violates(o, e.fields[0]) && !Sound(o);
      }
    }
  }

  /** Names valid, metadata sound, and the references of all objects of all phases pairwise distinct. */
  ghost predicate Passes(phases: seq<Phase<Obj>>) {
    && (forall i :: 0 <= i < |phases| ==> ValidName(phases[i].name))
    && (forall i, j :: 0 <= i < |phases| && 0 <= j < |phases[i].objects| ==> Sound(phases[i].objects[j]))
    && (forall i, j :: 0 <= i < j < |AllRefs(phases)| ==> AllRefs(phases)[i] != AllRefs(phases)[j])
  }

  lemma {:induction false} RepeatsAreNotDistinct<T>(s: seq<T>)
    ensures (forall i, j :: 0 <= i < j < |s| ==> s[i] != s[j]) <==> forall x :: multiset(s)[x] <= 1
  {
    if s != [] {
      var n := |s| - 1;
      var init := s[..n];
      RepeatsAreNotDistinct(init);
      assert s == init + [s[n]];
      assert multiset(s) == multiset(init) + multiset{s[n]};
      assert s[n] in init <==> multiset(init)[s[n]] >= 1;
      assert s[n] in init <==> exists i :: 0 <= i < n && s[i] == s[n];
      assert multiset(s)[s[n]] == multiset(init)[s[n]] + 1;
      assert forall x :: x != s[n] ==> multiset(s)[x] == multiset(init)[x];
    }
  }

  lemma NoFaultPasses(phases: seq<Phase<Obj>>)
    requires forall i :: 0 <= i < |phases| ==> !Faulty(phases, phases[i])
    ensures Passes(phases)
  {
    forall r ensures multiset(AllRefs(phases))[r] <= 1 {
      AbsentMeansNoPhase(phases, r);
      assert !Repeated(phases, r);
    }
    RepeatsAreNotDistinct(AllRefs(phases));
    forall i, j | 0 <= i < |phases| && 0 <= j < |phases[i].objects| ensures Sound(phases[i].objects[j]) {
      assert !Faulty(phases, phases[i]) && phases[i].objects[j] in phases[i].objects;
    }
  }

  lemma PassingHasNoFault(phases: seq<Phase<Obj>>, i: nat)
    requires Passes(phases) && i < |phases|
    ensures !Faulty(phases, phases[i])
  {
    RepeatsAreNotDistinct(AllRefs(phases));
    forall o | o in phases[i].objects ensures Sound(o) {
      var j :| 0 <= j < |phases[i].objects| && phases[i].objects[j] == o;
    }
  }

  lemma FaultDoesNotPass(phases: seq<Phase<Obj>>, i: nat)
    requires i < |phases| && Faulty(phases, phases[i])
    ensures !Passes(phases)
  {
    if Passes(phases) {
      PassingHasNoFault(phases, i);
    }
  }

  lemma ReportOneMore(phases: seq<Phase<Obj>>, i: nat, errs: seq<PhaseError>, at: seq<nat>, err: Option<PhaseError>)
    requires i < |phases| && Reports(phases, i, errs, at)
    requires err.Some? <==> Faulty(phases, phases[i])
    requires err.Some? ==> IsErrorOf(phases, phases[i], err.value)
    ensures if err.Some? then Reports(phases, i + 1, errs + [err.value], at + [i]) else Reports(phases, i + 1, errs, at)
  {
    assert forall k :: 0 <= k < |at| ==> at[k] < i;
    assert forall x: nat :: x in at + [i] <==> x in at || x == i;
  }

  lemma NoErrorsPasses(phases: seq<Phase<Obj>>, errs: seq<PhaseError>, at: seq<nat>)
    requires Reports(phases, |phases|, errs, at)
    ensures errs == [] <==> Passes(phases)
  {
    if errs == [] {
      NoFaultPasses(phases);
    } else {
      assert at[0] in at && Faulty(phases, phases[at[0]]);
      FaultDoesNotPass(phases, at[0]);
    }
  }

  /**
   Preflight is sound and complete: it reports exactly the faulty phases, and none exactly for a revision
   that passes.
   */
  method StaticValidateMultiplePhases(phases: seq<Phase<Obj>>) returns (errs: seq<PhaseError>, ghost at: seq<nat>)
    ensures Reports(phases, |phases|, errs, at)
    ensures errs == [] <==> Passes(phases)
  {
    var dups := CheckForObjectDuplicates(phases);
    errs, at := [], [];
    for i := 0 to |phases|
      invariant Reports(phases, i, errs, at)
    {
      var err := ValidatePhase(phases, phases[i], dups);
      ReportOneMore(phases, i, errs, at, err);
      if err.Some? {
        errs := errs + [err.value];
        at := at + [i];
      }
    }
    NoErrorsPasses(phases, errs, at);
  }

  /**
   Reconciling with preflight: a revision that does not pass hands no object to the engine and is
   reported neither complete nor in transition nor progressed; one that passes is rolled out.
   */
  method ReconcileChecked<W>(m: Machinery<W, Obj>, w: W, phases: seq<Phase<Obj>>)
    returns (result: RevisionResult, failed: bool, runs: seq<PhaseRun<W>>)
    ensures !Passes(phases) ==>
              && runs == [] && !failed && result.invalid
              && !result.IsComplete() && !result.InTransition() && !result.HasProgressed()
    ensures Passes(phases) ==> !result.invalid && runs == RolledOut(m, w, phases)
  {
    var errs, _ := StaticValidateMultiplePhases(phases);
    result, failed, runs := ReconcileRevision(m, w, phases, if errs == [] then Valid else Invalid);
    assert !Passes(phases) ==> phases != [];
  }
}
