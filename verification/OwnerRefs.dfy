/**
 Owner reference lists, as kept by the annotation owner strategy
 (ownerhandling/annotation.go) together with the slice removal of ownerhandling/common.go.

 Every operation is given twice: as a function on the list, which is what the other modules
 reason about, and as a method of AnnotatedObject that scans and rewrites the stored list in place.
 */
module OwnerRefs {
  import opened Basics

  type Uid = string

  datatype OwnerRef = OwnerRef(apiVersion: string, kind: string, name: string, namespace: string,
                               uid: Uid, controller: Option<bool>)
  {
    predicate IsController() {
      controller == Some(true)
    }
  }

  datatype Gvk = Gvk(group: string, version: string, kind: string)

  /** An owning object. `gvk` is absent when its type cannot be resolved through the scheme. */
  datatype Owner = Owner(gvk: Option<Gvk>, name: string, namespace: string, uid: Uid)

  datatype OwnerError = UnresolvableOwner | AlreadyOwned(rival: OwnerRef)

  // ---------------------------------------------------------------- identity of references

  function SlashCount(s: string): nat {
    if s == [] then 0 else (if s[0] == '/' then 1 else 0) + SlashCount(s[1..])
  }

  function BeforeSlash(s: string): string {
    if s == [] || s[0] == '/' then [] else [s[0]] + BeforeSlash(s[1..])
  }

  /** The group of an API version string; None when the string has more than one slash. */
  function ParseGroup(apiVersion: string): Option<string> {
    if apiVersion == "" || apiVersion == "/" then Some("")
    else if SlashCount(apiVersion) == 0 then Some("")
    else if SlashCount(apiVersion) == 1 then Some(BeforeSlash(apiVersion))
    else None
  }

  function ApiVersion(gvk: Gvk): string {
    if gvk.group != "" then gvk.group + "/" + gvk.version else gvk.version
  }

  /** Version and namespace are not part of a reference's identity. */
  predicate SameObject(a: OwnerRef, b: OwnerRef) {
    && ParseGroup(a.apiVersion).Some?
    && ParseGroup(a.apiVersion) == ParseGroup(b.apiVersion)
    && a.kind == b.kind
    && a.name == b.name
    && a.uid == b.uid
  }

  /** The owner has a kind, and the API version written for it can be read back. */
  predicate Resolvable(owner: Owner) {
    owner.gvk.Some? && ParseGroup(ApiVersion(owner.gvk.value)).Some?
  }

  function RefTo(owner: Owner, controller: Option<bool>): OwnerRef
    requires owner.gvk.Some?
  {
    OwnerRef(ApiVersion(owner.gvk.value), owner.gvk.value.kind, owner.name, owner.namespace, owner.uid, controller)
  }

  function ControllerRef(owner: Owner): OwnerRef
    requires owner.gvk.Some?
  {
    RefTo(owner, Some(true))
  }

  // ---------------------------------------------------------------- what a reference identifies

  predicate Slashless(s: string) {
    forall i :: 0 <= i < |s| ==> s[i] != '/'
  }

  lemma {:induction false} NoSlashes(s: string)
    requires Slashless(s)
    ensures SlashCount(s) == 0
  {
    if s != "" {
      NoSlashes(s[1..]);
    }
  }

  lemma {:induction false} OneSlash(group: string, version: string)
    requires Slashless(group) && Slashless(version)
    ensures SlashCount(group + "/" + version) == 1 && BeforeSlash(group + "/" + version) == group
  {
    var s := group + "/" + version;
    if group == "" {
      assert s[0] == '/' && s[1..] == version;
      NoSlashes(version);
    } else {
      assert s[0] == group[0] && s[1..] == group[1..] + "/" + version;
      OneSlash(group[1..], version);
    }
  }

  /** The group written into an API version is read back from it. */
  lemma GroupRoundTrip(gvk: Gvk)
    requires Slashless(gvk.group) && Slashless(gvk.version)
    ensures ParseGroup(ApiVersion(gvk)) == Some(gvk.group)
  {
    if gvk.group == "" {
      NoSlashes(gvk.version);
    } else {
      OneSlash(gvk.group, gvk.version);
      assert '/' in ApiVersion(gvk) && |ApiVersion(gvk)| > 1;
    }
  }

  /**
   References to two owners match exactly if these agree in group, kind, name and UID, whatever version
   they are read at.
   */
  lemma OwnersMatchExactly(a: Owner, b: Owner, x: Option<bool>, y: Option<bool>)
    requires a.gvk.Some? && Slashless(a.gvk.value.group) && Slashless(a.gvk.value.version)
    requires b.gvk.Some? && Slashless(b.gvk.value.group) && Slashless(b.gvk.value.version)
    ensures SameObject(RefTo(a, x), RefTo(b, y)) <==>
            && a.gvk.value.group == b.gvk.value.group && a.gvk.value.kind == b.gvk.value.kind
            && a.name == b.name && a.uid == b.uid
  {
    GroupRoundTrip(a.gvk.value);
    GroupRoundTrip(b.gvk.value);
  }

  // ---------------------------------------------------------------- operations on lists

  /** Index of the first reference to the same object as `ref`, or -1. */
  function IndexOf(refs: seq<OwnerRef>, ref: OwnerRef): (i: int)
    ensures -1 <= i < |refs|
    ensures i >= 0 ==> SameObject(ref, refs[i])
    ensures forall j :: 0 <= j < |refs| && (i == -1 || j < i) ==> !SameObject(ref, refs[j])
  {
    if refs == [] then -1
    else if SameObject(ref, refs[0]) then 0
    else
      var k := IndexOf(refs[1..], ref);
      assert forall j :: 1 <= j < |refs| ==> refs[j] == refs[1..][j - 1];
      if k == -1 then -1 else k + 1
  }

  function Upsert(refs: seq<OwnerRef>, ref: OwnerRef): seq<OwnerRef> {
    var i := IndexOf(refs, ref);
    if i == -1 then refs + [ref] else refs[i := ref]
  }

  function SetOwner(refs: seq<OwnerRef>, owner: Owner): Result<seq<OwnerRef>, OwnerError> {
    if owner.gvk.None? then Err(UnresolvableOwner) else Ok(Upsert(refs, RefTo(owner, None)))
  }

  /** Index of the first controller that is not `ref`, or -1. */
  function RivalOf(refs: seq<OwnerRef>, ref: OwnerRef): (i: int)
    ensures -1 <= i < |refs|
    ensures i >= 0 ==> refs[i].IsController() && !SameObject(ref, refs[i])
    ensures forall j :: 0 <= j < |refs| && (i == -1 || j < i) ==> refs[j].IsController() ==> SameObject(ref, refs[j])
  {
    if refs == [] then -1
    else if refs[0].IsController() && !SameObject(ref, refs[0]) then 0
    else
      var k := RivalOf(refs[1..], ref);
      assert forall j :: 1 <= j < |refs| ==> refs[j] == refs[1..][j - 1];
      if k == -1 then -1 else k + 1
  }

  function SetController(refs: seq<OwnerRef>, owner: Owner): Result<seq<OwnerRef>, OwnerError> {
    if owner.gvk.None? then Err(UnresolvableOwner)
    else
      var rival := RivalOf(refs, RefTo(owner, None));
      if rival != -1 then Err(AlreadyOwned(refs[rival])) else Ok(Upsert(refs, ControllerRef(owner)))
  }

  function Release(refs: seq<OwnerRef>): seq<OwnerRef> {
    seq(|refs|, i requires 0 <= i < |refs| => refs[i].(controller := None))
  }

  /** Removal by moving the last element into the freed slot. */
  function SwapRemove<T>(s: seq<T>, i: nat): seq<T>
    requires i < |s|
  {
    s[i := s[|s| - 1]][..|s| - 1]
  }

  function RemoveOwner(refs: seq<OwnerRef>, owner: Owner): seq<OwnerRef> {
    if owner.gvk.None? then refs
    else
      var i := IndexOf(refs, RefTo(owner, None));
      if i == -1 then refs else SwapRemove(refs, i)
  }

  /** The first reference marked as controller. */
  function GetController(refs: seq<OwnerRef>): (r: Option<OwnerRef>)
    ensures r.Some? ==> r.value in refs && r.value.IsController()
    ensures r.None? ==> forall i :: 0 <= i < |refs| ==> !refs[i].IsController()
  {
    if refs == [] then None
    else if refs[0].IsController() then Some(refs[0])
    else
      assert forall j :: 1 <= j < |refs| ==> refs[j] == refs[1..][j - 1];
      GetController(refs[1..])
  }

  /** With several controllers in the list, the first one counts. */
  lemma {:induction false} FirstControllerCounts(refs: seq<OwnerRef>, i: nat)
    requires i < |refs| && refs[i].IsController()
    requires forall j :: 0 <= j < i ==> !refs[j].IsController()
    ensures GetController(refs) == Some(refs[i])
  {
    if i > 0 {
      assert forall j :: 1 <= j < |refs| ==> refs[1..][j - 1] == refs[j];
      FirstControllerCounts(refs[1..], i - 1);
    }
  }

  predicate IsOwner(refs: seq<OwnerRef>, owner: Owner) {
    owner.gvk.Some? && exists i :: 0 <= i < |refs| && SameObject(RefTo(owner, None), refs[i])
  }

  predicate IsControlledBy(refs: seq<OwnerRef>, owner: Owner) {
    && owner.gvk.Some?
    && exists i :: 0 <= i < |refs| && SameObject(RefTo(owner, None), refs[i]) && refs[i].IsController()
  }

  // ---------------------------------------------------------------- the list invariant

  predicate NoTwins(refs: seq<OwnerRef>) {
    forall i, j :: 0 <= i < j < |refs| ==> !SameObject(refs[i], refs[j])
  }

  predicate AtMostOneController(refs: seq<OwnerRef>) {
    forall i, j :: 0 <= i < j < |refs| ==> !(refs[i].IsController() && refs[j].IsController())
  }

  predicate WellFormed(refs: seq<OwnerRef>) {
    NoTwins(refs) && AtMostOneController(refs)
  }

  lemma DistinctEntriesDiffer(refs: seq<OwnerRef>, i: nat, j: nat)
    requires NoTwins(refs) && i < |refs| && j < |refs| && i != j
    ensures !SameObject(refs[i], refs[j])
  {
    assert SameObject(refs[i], refs[j]) <==> SameObject(refs[j], refs[i]);
  }

  lemma UpsertKeepsNoTwins(refs: seq<OwnerRef>, ref: OwnerRef)
    requires NoTwins(refs)
    ensures NoTwins(Upsert(refs, ref))
  {
    var i, out := IndexOf(refs, ref), Upsert(refs, ref);
    forall a, b | 0 <= a < b < |out| ensures !SameObject(out[a], out[b]) {
      if i != -1 {
        // The replaced entry names the same object as the entry it replaces.
        assert SameObject(out[a], out[b]) ==> SameObject(refs[a], refs[b]);
      }
    }
  }

  lemma SetControllerEffect(refs: seq<OwnerRef>, owner: Owner)
    requires Resolvable(owner) && SetController(refs, owner).Ok? && WellFormed(refs)
    ensures WellFormed(SetController(refs, owner).value)
    ensures GetController(SetController(refs, owner).value) == Some(ControllerRef(owner))
  {
    var out, i := Upsert(refs, ControllerRef(owner)), IndexOf(refs, ControllerRef(owner));
    UpsertKeepsNoTwins(refs, ControllerRef(owner));
    var at := if i == -1 then |refs| else i;
    assert out[at] == ControllerRef(owner);
    forall a | 0 <= a < |out| && a != at ensures !out[a].IsController() {
      if i != -1 {
        DistinctEntriesDiffer(refs, i, a);
      }
    }
    OnlyControllerIsFound(out, at);
  }

  /** Claiming control fails exactly for an owner without a kind, or if another object controls already. */
  lemma SetControllerFailsExactly(refs: seq<OwnerRef>, owner: Owner)
    ensures SetController(refs, owner) == Err(UnresolvableOwner) <==> owner.gvk.None?
    ensures SetController(refs, owner).Err? && owner.gvk.Some? <==>
            owner.gvk.Some? &&
            exists i :: 0 <= i < |refs| && refs[i].IsController() && !SameObject(RefTo(owner, None), refs[i])
    ensures SetController(refs, owner).Err? && owner.gvk.Some? ==>
              && SetController(refs, owner).error.AlreadyOwned?
              && var rival := SetController(refs, owner).error.rival;
                 rival in refs && rival.IsController() && !SameObject(RefTo(owner, None), rival)
  {
  }

  /** Adding an owner makes it one, as a plain owner, and leaves all other references alone. */
  lemma SetOwnerEffect(refs: seq<OwnerRef>, owner: Owner)
    requires Resolvable(owner)
    ensures SetOwner(refs, owner).Ok? && IsOwner(SetOwner(refs, owner).value, owner)
    ensures var out := SetOwner(refs, owner).value;
            && |out| == |refs| + (if IsOwner(refs, owner) then 0 else 1)
            && RefTo(owner, None) in out
            && forall i :: 0 <= i < |refs| && out[i] != refs[i] ==>
                 SameObject(RefTo(owner, None), refs[i]) && out[i] == RefTo(owner, None)
  {
    var me := RefTo(owner, None);
    var out, i := SetOwner(refs, owner).value, IndexOf(refs, me);
    var at := if i == -1 then |refs| else i;
    assert out[at] == me && SameObject(me, out[at]);
  }

  lemma OnlyControllerIsFound(refs: seq<OwnerRef>, at: nat)
    requires at < |refs| && refs[at].IsController()
    requires forall a :: 0 <= a < |refs| && a != at ==> !refs[a].IsController()
    ensures AtMostOneController(refs) && GetController(refs) == Some(refs[at])
  {
    var c := GetController(refs).value;
    var k :| 0 <= k < |refs| && refs[k] == c;
  }

  lemma SwapRemoveKeepsWellFormed(refs: seq<OwnerRef>, i: nat)
    requires i < |refs| && WellFormed(refs)
    ensures WellFormed(SwapRemove(refs, i))
  {
    var out := SwapRemove(refs, i);
    forall a, b | 0 <= a < b < |out|
      ensures !SameObject(out[a], out[b]) && !(out[a].IsController() && out[b].IsController())
    {
      var a', b' := if a == i then |refs| - 1 else a, if b == i then |refs| - 1 else b;
      assert out[a] == refs[a'] && out[b] == refs[b'];
      DistinctEntriesDiffer(refs, a', b');
    }
  }

  /** Exactly one occurrence leaves the list, and nothing else changes but the order. */
  lemma SwapRemoveTakesOne<T>(s: seq<T>, i: nat)
    requires i < |s|
    ensures multiset(SwapRemove(s, i)) == multiset(s) - multiset{s[i]}
  {
    var n := |s| - 1;
    assert s == s[..n] + [s[n]];
    if i < n {
      assert s[..n] == s[..i] + [s[i]] + s[i + 1..n];
      assert SwapRemove(s, i) == s[..i] + [s[n]] + s[i + 1..n];
    } else {
      assert SwapRemove(s, i) == s[..n];
    }
  }

  // ---------------------------------------------------------------- any sequence of edits

  datatype Edit =
    | AddOwner(owner: Owner)
    | AddController(owner: Owner)
    | ReleaseAll
    | CopyFrom(refs: seq<OwnerRef>)
    | Drop(owner: Owner)

  /** A failing edit leaves the stored list alone. */
  function Edited(refs: seq<OwnerRef>, e: Edit): seq<OwnerRef> {
    match e
    case AddOwner(o) => var r := SetOwner(refs, o); if r.Ok? then r.value else refs
    case AddController(o) => var r := SetController(refs, o); if r.Ok? then r.value else refs
    case ReleaseAll => Release(refs)
    case CopyFrom(other) => other
    case Drop(o) => RemoveOwner(refs, o)
  }

  function EditedAll(refs: seq<OwnerRef>, edits: seq<Edit>): seq<OwnerRef>
    decreases |edits|
  {
    if edits == [] then refs else EditedAll(Edited(refs, edits[0]), edits[1..])
  }

  /** Owners named by an edit resolve, and lists copied in come from well-formed objects. */
  predicate Admissible(e: Edit) {
    match e
    case AddOwner(o) => Resolvable(o)
    case AddController(o) => Resolvable(o)
    case CopyFrom(other) => WellFormed(other)
    case _ => true
  }

  lemma EditKeepsWellFormed(refs: seq<OwnerRef>, e: Edit)
    requires WellFormed(refs) && Admissible(e)
    ensures WellFormed(Edited(refs, e))
  {
    match e {
      case AddOwner(o) =>
        UpsertKeepsNoTwins(refs, RefTo(o, None));
      case AddController(o) =>
        if SetController(refs, o).Ok? {
          SetControllerEffect(refs, o);
        }
      case ReleaseAll =>
        var out := Release(refs);
        forall a, b | 0 <= a < b < |out| ensures !SameObject(out[a], out[b]) {
          assert !SameObject(refs[a], refs[b]);
        }
      case CopyFrom(_) =>
      case Drop(o) =>
        if o.gvk.Some? && IndexOf(refs, RefTo(o, None)) != -1 {
          SwapRemoveKeepsWellFormed(refs, IndexOf(refs, RefTo(o, None)));
        }
    }
  }

  /** References stay pairwise distinct, with at most one controller, under any sequence of edits. */
  lemma {:induction false} EditsKeepWellFormed(refs: seq<OwnerRef>, edits: seq<Edit>)
    requires WellFormed(refs)
    requires forall e :: e in edits ==> Admissible(e)
    ensures WellFormed(EditedAll(refs, edits))
    decreases |edits|
  {
    if edits != [] {
      EditKeepsWellFormed(refs, edits[0]);
      EditsKeepWellFormed(Edited(refs, edits[0]), edits[1..]);
    }
  }

  // ---------------------------------------------------------------- handover of control

  /** What adoption does to a list: drop every controller flag, then claim control. */
  function TakeOver(refs: seq<OwnerRef>, owner: Owner): Result<seq<OwnerRef>, OwnerError> {
    SetController(Release(refs), owner)
  }

  /** Taking over always succeeds, keeps every earlier owner, and leaves a single controller. */
  lemma TakeOverEffect(refs: seq<OwnerRef>, owner: Owner)
    requires Resolvable(owner)
    ensures TakeOver(refs, owner).Ok?
    ensures var out := TakeOver(refs, owner).value;
            && |refs| <= |out| <= |refs| + 1
            && (forall i :: 0 <= i < |refs| && !SameObject(ControllerRef(owner), refs[i])
                  ==> out[i] == refs[i].(controller := None))
            && (forall i :: 0 <= i < |refs| ==> out[i].uid == refs[i].uid && out[i].name == refs[i].name)
            && AtMostOneController(out)
            && GetController(out) == Some(ControllerRef(owner))
  {
    var mid := Release(refs);
    assert RivalOf(mid, RefTo(owner, None)) == -1;
    var out, i := Upsert(mid, ControllerRef(owner)), IndexOf(mid, ControllerRef(owner));
    var at := if i == -1 then |mid| else i;
    assert out[at] == ControllerRef(owner);
    OnlyControllerIsFound(out, at);
  }

  /** The two ways of asking who controls the object agree when there is at most one controller. */
  lemma ControllerQueriesAgree(refs: seq<OwnerRef>, owner: Owner)
    requires owner.gvk.Some? && AtMostOneController(refs)
    ensures IsControlledBy(refs, owner) <==>
            GetController(refs).Some? && SameObject(RefTo(owner, None), GetController(refs).value)
  {
    if IsControlledBy(refs, owner) {
      var i :| 0 <= i < |refs| && SameObject(RefTo(owner, None), refs[i]) && refs[i].IsController();
      OnlyControllerIsFound(refs, i);
    } else if GetController(refs).Some? {
      var k :| 0 <= k < |refs| && refs[k] == GetController(refs).value;
    }
  }

  /** Removing an owner really removes it, and only it. */
  lemma RemoveOwnerEffect(refs: seq<OwnerRef>, owner: Owner)
    requires Resolvable(owner) && WellFormed(refs)
    ensures !IsOwner(RemoveOwner(refs, owner), owner)
    ensures !IsOwner(refs, owner) ==> RemoveOwner(refs, owner) == refs
    ensures IsOwner(refs, owner) ==>
              exists r :: r in refs && SameObject(RefTo(owner, None), r)
                       && multiset(RemoveOwner(refs, owner)) == multiset(refs) - multiset{r}
  {
    var me := RefTo(owner, None);
    var i := IndexOf(refs, me);
    if i != -1 {
      var out := SwapRemove(refs, i);
      SwapRemoveTakesOne(refs, i);
      assert refs[i] in refs;
      forall k | 0 <= k < |out| ensures !SameObject(me, out[k]) {
        var k' := if k == i then |refs| - 1 else k;
        assert out[k] == refs[k'];
        DistinctEntriesDiffer(refs, i, k');
      }
    }
  }

  /** Adding an owner that was not there and removing it again restores the list, up to order. */
  lemma AddThenRemove(refs: seq<OwnerRef>, owner: Owner)
    requires Resolvable(owner) && !IsOwner(refs, owner)
    ensures SetOwner(refs, owner).Ok?
    ensures multiset(RemoveOwner(SetOwner(refs, owner).value, owner)) == multiset(refs)
  {
    var me := RefTo(owner, None);
    var added := SetOwner(refs, owner).value;
    assert added == refs + [me];
    assert forall j :: 0 <= j < |refs| ==> added[j] == refs[j];
    assert SameObject(me, added[|refs|]);
    var i := IndexOf(added, me);
    assert i == |refs|;
    SwapRemoveTakesOne(added, i);
  }

  // ---------------------------------------------------------------- the operations in place

  /** The slice removal helper: overwrites slot i with the last element; the caller drops the last slot. */
  method Remove<T>(s: array<T>, i: nat)
    requires i < s.Length
    modifies s
    ensures s[..s.Length - 1] == SwapRemove(old(s[..]), i)
  {
    s[i] := s[s.Length - 1];
    assert s[..] == old(s[..])[i := old(s[s.Length - 1])];
    assert s[..s.Length - 1] == s[..][..s.Length - 1];
  }

  /** An object whose owner list is stored in one of its annotations. */
  class AnnotatedObject {
    var refs: seq<OwnerRef>

    constructor (refs: seq<OwnerRef>)
      ensures this.refs == refs
    {
      this.refs := refs;
    }

    method FindIndex(ref: OwnerRef) returns (i: int)
      ensures i == IndexOf(refs, ref)
    {
      i := 0;
      while i < |refs|
        invariant 0 <= i <= |refs|
        invariant forall j :: 0 <= j < i ==> !SameObject(ref, refs[j])
      {
        if SameObject(ref, refs[i]) {
          return;
        }
        i := i + 1;
      }
      i := -1;
    }

    method SetOwnerReference(owner: Owner) returns (ok: bool)
      modifies this
      ensures ok <==> SetOwner(old(refs), owner).Ok?
      ensures refs == Edited(old(refs), AddOwner(owner))
    {
      if owner.gvk.None? {
        return false;
      }
      var ref := RefTo(owner, None);
      var i := FindIndex(ref);
      if i != -1 {
        refs := refs[i := ref];
      } else {
        refs := refs + [ref];
      }
      ok := true;
    }

    method SetControllerReference(owner: Owner) returns (err: Option<OwnerError>)
      modifies this
      ensures err == (var r := SetController(old(refs), owner); if r.Ok? then None else Some(r.error))
      ensures refs == Edited(old(refs), AddController(owner))
    {
      if owner.gvk.None? {
        return Some(UnresolvableOwner);
      }
      var comp := RefTo(owner, None);
      for k := 0 to |refs|
        invariant forall j :: 0 <= j < k ==> refs[j].IsController() ==> SameObject(comp, refs[j])
      {
        if !SameObject(comp, refs[k]) && refs[k].IsController() {
          return Some(AlreadyOwned(refs[k]));
        }
      }
      var ref := ControllerRef(owner);
      var i := FindIndex(ref);
      if i != -1 {
        refs := refs[i := ref];
      } else {
        refs := refs + [ref];
      }
      err := None;
    }

    method ReleaseController()
      modifies this
      ensures refs == Release(old(refs))
    {
      for k := 0 to |refs|
        invariant |refs| == |old(refs)|
        invariant forall j :: 0 <= j < |refs| ==>
                    refs[j] == if j < k then old(refs)[j].(controller := None) else old(refs)[j]
      {
        refs := refs[k := refs[k].(controller := None)];
      }
    }

    method CopyOwnerReferences(from: AnnotatedObject)
      modifies this
      ensures refs == old(from.refs)
    {
      refs := from.refs;
    }

    method RemoveOwnerReference(owner: Owner)
      modifies this
      ensures refs == RemoveOwner(old(refs), owner)
    {
      if owner.gvk.Some? {
        var i := FindIndex(RefTo(owner, None));
        if i != -1 {
          var slice := new OwnerRef[|refs|](k requires 0 <= k < |refs| reads this => refs[k]);
          assert slice[..] == refs;
          Remove(slice, i);
          refs := slice[..slice.Length - 1];
        }
      }
    }
  }
}
