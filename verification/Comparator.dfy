/**
 The divergence check of machinery/comparator.go, from the desired field set onward.

 An object's content is a map from field path to value. Schema lookup and parsing are not part
 of the model: what remains is the set algebra over field paths and managed field entries.
 */
module Comparator {
  import opened Basics
  import opened OwnerRefs

  type Path = seq<string>

  /** The revision annotation of an object; Garbled stands for text that is not a number. */
  datatype Note = Missing | Blank | Garbled | Number(n: int)

  /** Field values; the revision note and the owner references are fields like any other to the comparator. */
  datatype Value =
    | Text(text: string)
    | NoteValue(note: Note)
    | Reference(ref: OwnerRef)
    | References(refs: seq<OwnerRef>)

  type Content = map<Path, Value>

  datatype Operation = ApplyOp | UpdateOp

  datatype ManagedEntry = ManagedEntry(manager: string, operation: Operation, subresource: string, fields: set<Path>)

  /** A manager together with the fields it is reported for. */
  datatype Claim = Claim(manager: string, fields: set<Path>)

  /** Fields only in actual, in both but different, and only in desired. */
  datatype Comparison = Comparison(added: set<Path>, modified: set<Path>, removed: set<Path>)

  datatype CompareResult = CompareResult(
    conflicting: seq<Claim>,
    others: seq<Claim>,
    desiredFields: set<Path>,
    comparison: Option<Comparison>)
  {
    predicate IsConflict() {
      |conflicting| > 0
    }

    /** Whether the reconciler considers desired fields changed or missing on the cluster. */
    predicate NeedsUpdate() {
      comparison.Some? && (comparison.value.modified != {} || comparison.value.removed != {})
    }
  }

  // ---------------------------------------------------------------- path sets

  /** Members without a proper descendant in the set. */
  function Leaves(s: set<Path>): set<Path> {
    set p | p in s && !exists q :: q in s && p < q
  }

  predicate Stripped(p: Path, strip: set<Path>) {
    exists q :: q in strip && q <= p
  }

  /** Removes the stripped items with everything below them. */
  function RemoveItems(c: Content, strip: set<Path>): Content {
    map p | p in c && !Stripped(p, strip) :: c[p]
  }

  function CompareContent(desired: Content, actual: Content): Comparison {
    Comparison(
      actual.Keys - desired.Keys,
      (set p | p in desired && p in actual && desired[p] != actual[p]),
      desired.Keys - actual.Keys)
  }

  // ---------------------------------------------------------------- managed fields

  predicate IsOurs(e: ManagedEntry, fieldOwner: string) {
    e.manager == fieldOwner && e.operation == ApplyOp && e.subresource == ""
  }

  /** The first entry our manager holds through server-side apply on the main resource. */
  function FindManaged(managed: seq<ManagedEntry>, fieldOwner: string): (r: Option<ManagedEntry>)
    ensures r.Some? ==> r.value in managed && IsOurs(r.value, fieldOwner)
    ensures r.None? ==> forall i :: 0 <= i < |managed| ==> !IsOurs(managed[i], fieldOwner)
  {
    if managed == [] then None
    else if IsOurs(managed[0], fieldOwner) then Some(managed[0])
    else
      assert forall j :: 1 <= j < |managed| ==> managed[j] == managed[1..][j - 1];
      FindManaged(managed[1..], fieldOwner)
  }

  /** Non-empty intersections of every entry with `fields`, in order. */
  function Overlaps(managed: seq<ManagedEntry>, fields: set<Path>): seq<Claim> {
    if managed == [] then []
    else
      var rest := Overlaps(managed[..|managed| - 1], fields);
      var e := managed[|managed| - 1];
      if fields * e.fields == {} then rest else rest + [Claim(e.manager, fields * e.fields)]
  }

  /** As Overlaps, leaving out every entry of the field owner itself. */
  function ForeignOverlaps(managed: seq<ManagedEntry>, fieldOwner: string, fields: set<Path>): seq<Claim> {
    if managed == [] then []
    else
      var rest := ForeignOverlaps(managed[..|managed| - 1], fieldOwner, fields);
      var e := managed[|managed| - 1];
      if e.manager == fieldOwner || e.fields * fields == {} then rest
      else rest + [Claim(e.manager, e.fields * fields)]
  }

  /** What other managers hold outside of `fields`. */
  function ForeignRemainders(managed: seq<ManagedEntry>, fieldOwner: string, fields: set<Path>): seq<Claim> {
    if managed == [] then []
    else
      var rest := ForeignRemainders(managed[..|managed| - 1], fieldOwner, fields);
      var e := managed[|managed| - 1];
      if e.manager == fieldOwner || e.fields - fields == {} then rest
      else rest + [Claim(e.manager, e.fields - fields)]
  }

  function Comparing(fieldOwner: string, strip: set<Path>, desired: Content, actual: Content,
                     managed: seq<ManagedEntry>): CompareResult
  {
    var fields := desired.Keys - strip;
    var ours := FindManaged(managed, fieldOwner);
    if ours.None? then
      CompareResult(Overlaps(managed, fields), [], fields, None)
    else
      var diff := Leaves(fields - ours.value.fields);
      CompareResult(
        ForeignOverlaps(managed, fieldOwner, diff),
        ForeignRemainders(managed, fieldOwner, diff),
        fields,
        Some(CompareContent(RemoveItems(desired, strip), RemoveItems(actual, strip))))
  }

  /** The check as the code runs it: two scans of the managed field entries. */
  method Compare(fieldOwner: string, strip: set<Path>, desired: Content, actual: Content,
                 managed: seq<ManagedEntry>) returns (res: CompareResult)
    ensures res == Comparing(fieldOwner, strip, desired, actual, managed)
  {
    var fields := desired.Keys - strip;
    var conflicting, others := [], [];
    var ours := FindManaged(managed, fieldOwner);
    if ours.None? {
      for i := 0 to |managed|
        invariant conflicting == Overlaps(managed[..i], fields)
      {
        assert managed[..i + 1][..i] == managed[..i];
        var fs := fields * managed[i].fields;
        if fs != {} {
          conflicting := conflicting + [Claim(managed[i].manager, fs)];
        }
      }
      assert managed[..|managed|] == managed;
      return CompareResult(conflicting, others, fields, None);
    }

    var diff := Leaves(fields - ours.value.fields);
    for i := 0 to |managed|
      invariant conflicting == ForeignOverlaps(managed[..i], fieldOwner, diff)
      invariant others == ForeignRemainders(managed[..i], fieldOwner, diff)
    {
      assert managed[..i + 1][..i] == managed[..i];
      var e := managed[i];
      if e.manager != fieldOwner {
        if e.fields * diff != {} {
          conflicting := conflicting + [Claim(e.manager, e.fields * diff)];
        }
        if e.fields - diff != {} {
          others := others + [Claim(e.manager, e.fields - diff)];
        }
      }
    }
    assert managed[..|managed|] == managed;
    return CompareResult(conflicting, others, fields,
                         Some(CompareContent(RemoveItems(desired, strip), RemoveItems(actual, strip))));
  }

  // ---------------------------------------------------------------- what the answers mean

  lemma {:induction false} OverlapsExact(managed: seq<ManagedEntry>, fields: set<Path>)
    ensures Overlaps(managed, fields) != [] <==>
            exists i :: 0 <= i < |managed| && fields * managed[i].fields != {}
  {
    if managed != [] {
      var n := |managed| - 1;
      OverlapsExact(managed[..n], fields);
      assert forall i :: 0 <= i < n ==> managed[..n][i] == managed[i];
    }
  }

  lemma {:induction false} ForeignOverlapsExact(managed: seq<ManagedEntry>, fieldOwner: string, fields: set<Path>)
    ensures ForeignOverlaps(managed, fieldOwner, fields) != [] <==>
            exists i :: 0 <= i < |managed| && managed[i].manager != fieldOwner && managed[i].fields * fields != {}
  {
    if managed != [] {
      var n := |managed| - 1;
      ForeignOverlapsExact(managed[..n], fieldOwner, fields);
      assert forall i :: 0 <= i < n ==> managed[..n][i] == managed[i];
    }
  }

  // ---------------------------------------------------------------- who conflicts, and over what

  /** A desired field, not ignored by the comparison, that our entry does not hold. */
  predicate NotOurs(p: Path, strip: set<Path>, desired: Content, ours: ManagedEntry) {
    p in desired && p !in strip && p !in ours.fields
  }

  /** Such a field without a further one below it: the fields a conflict can be about. */
  predicate Disputable(p: Path, strip: set<Path>, desired: Content, ours: ManagedEntry) {
    NotOurs(p, strip, desired, ours) && !exists q :: q in desired && NotOurs(q, strip, desired, ours) && p < q
  }

  /** The claims are, entry by entry in order, what the entries of other managers hold of the chosen fields. */
  ghost predicate ListsClaims(claims: seq<Claim>, managed: seq<ManagedEntry>, at: seq<nat>,
                              chosen: (ManagedEntry, Path) -> bool)
  {
    && |at| == |claims|
    && (forall k, l :: 0 <= k < l < |at| ==> at[k] < at[l])
    && (forall k :: 0 <= k < |at| ==> at[k] < |managed|)
    && (forall k :: 0 <= k < |at| ==> claims[k].manager == managed[at[k]].manager && claims[k].fields != {})
    && (forall k, p :: 0 <= k < |at| ==>
          (p in claims[k].fields <==> p in managed[at[k]].fields && chosen(managed[at[k]], p)))
    && (forall i, p :: 0 <= i < |managed| && p in managed[i].fields && chosen(managed[i], p) ==> i in at)
  }

  /** One more entry, which adds its claim or none. */
  lemma ClaimsOneMore(claims: seq<Claim>, managed: seq<ManagedEntry>, at: seq<nat>,
                      chosen: (ManagedEntry, Path) -> bool, e: ManagedEntry, fields: set<Path>)
    requires ListsClaims(claims, managed, at, chosen)
    requires forall p :: p in fields <==> p in e.fields && chosen(e, p)
    ensures if fields == {} then ListsClaims(claims, managed + [e], at, chosen)
            else ListsClaims(claims + [Claim(e.manager, fields)], managed + [e], at + [|managed|], chosen)
  {
    var more, n := managed + [e], |managed|;
    assert more[n] == e && forall i :: 0 <= i < n ==> more[i] == managed[i];
    if fields != {} {
      ClaimAdded(claims, managed, at, chosen, e, fields);
    }
  }

  lemma ClaimAdded(claims: seq<Claim>, managed: seq<ManagedEntry>, at: seq<nat>,
                   chosen: (ManagedEntry, Path) -> bool, e: ManagedEntry, fields: set<Path>)
    requires ListsClaims(claims, managed, at, chosen) && fields != {}
    requires forall p :: p in fields <==> p in e.fields && chosen(e, p)
    ensures ListsClaims(claims + [Claim(e.manager, fields)], managed + [e], at + [|managed|], chosen)
  {
    var more, n := managed + [e], |managed|;
    var claims', at' := claims + [Claim(e.manager, fields)], at + [n];
    assert more[n] == e && forall i :: 0 <= i < n ==> more[i] == managed[i];
    assert forall k :: 0 <= k < |at| ==> claims'[k] == claims[k] && at'[k] == at[k];
    forall k, p | 0 <= k < |at'|
      ensures p in claims'[k].fields <==> p in more[at'[k]].fields && chosen(more[at'[k]], p)
    {
      assert k < |at| ==> (p in claims[k].fields <==> p in managed[at[k]].fields && chosen(managed[at[k]], p));
    }
    assert forall i: nat :: i in at' <==> i in at || i == n;
  }

  lemma {:induction false} OverlapsListed(managed: seq<ManagedEntry>, fields: set<Path>) returns (at: seq<nat>)
    ensures ListsClaims(Overlaps(managed, fields), managed, at, (e, p) => p in fields)
  {
    if managed == [] {
      at := [];
    } else {
      var n := |managed| - 1;
      at := OverlapsListed(managed[..n], fields);
      assert managed[..n] + [managed[n]] == managed;
      var here := fields * managed[n].fields;
      ClaimsOneMore(Overlaps(managed[..n], fields), managed[..n], at, (e, p) => p in fields, managed[n], here);
      at := if here == {} then at else at + [n];
    }
  }

  lemma {:induction false} ForeignOverlapsListed(managed: seq<ManagedEntry>, fieldOwner: string, fields: set<Path>)
    returns (at: seq<nat>)
    ensures ListsClaims(ForeignOverlaps(managed, fieldOwner, fields), managed, at,
                        (e: ManagedEntry, p) => e.manager != fieldOwner && p in fields)
  {
    if managed == [] {
      at := [];
    } else {
      var n := |managed| - 1;
      at := ForeignOverlapsListed(managed[..n], fieldOwner, fields);
      assert managed[..n] + [managed[n]] == managed;
      var here := if managed[n].manager == fieldOwner then {} else managed[n].fields * fields;
      ClaimsOneMore(ForeignOverlaps(managed[..n], fieldOwner, fields), managed[..n], at,
                    (e: ManagedEntry, p) => e.manager != fieldOwner && p in fields, managed[n], here);
      at := if here == {} then at else at + [n];
    }
  }

  lemma {:induction false} ForeignRemaindersListed(managed: seq<ManagedEntry>, fieldOwner: string, fields: set<Path>)
    returns (at: seq<nat>)
    ensures ListsClaims(ForeignRemainders(managed, fieldOwner, fields), managed, at,
                        (e: ManagedEntry, p) => e.manager != fieldOwner && p !in fields)
  {
    if managed == [] {
      at := [];
    } else {
      var n := |managed| - 1;
      at := ForeignRemaindersListed(managed[..n], fieldOwner, fields);
      assert managed[..n] + [managed[n]] == managed;
      var here := if managed[n].manager == fieldOwner then {} else managed[n].fields - fields;
      ClaimsOneMore(ForeignRemainders(managed[..n], fieldOwner, fields), managed[..n], at,
                    (e: ManagedEntry, p) => e.manager != fieldOwner && p !in fields, managed[n], here);
      at := if here == {} then at else at + [n];
    }
  }

  lemma DisputableLeaves(strip: set<Path>, desired: Content, ours: ManagedEntry, p: Path)
    ensures p in Leaves(desired.Keys - strip - ours.fields) <==> Disputable(p, strip, desired, ours)
  {
    var s := desired.Keys - strip - ours.fields;
    assert forall q :: q in s <==> NotOurs(q, strip, desired, ours);
  }

  /**
   With an entry of ours: the conflicts list, entry by entry, the disputable fields other managers hold,
   and the others list what else they hold. Without one: the conflicts list the desired fields anybody
   holds, and there is nothing else.
   */
  lemma ClaimsAreExact(fieldOwner: string, strip: set<Path>, desired: Content, actual: Content,
                       managed: seq<ManagedEntry>)
    returns (conflicts: seq<nat>, others: seq<nat>)
    ensures var r, ours := Comparing(fieldOwner, strip, desired, actual, managed), FindManaged(managed, fieldOwner);
            if ours.None? then
              && ListsClaims(r.conflicting, managed, conflicts, (e, p) => p in desired && p !in strip)
              && r.others == [] && r.comparison.None?
            else
              && ListsClaims(r.conflicting, managed, conflicts,
                             (e: ManagedEntry, p) => e.manager != fieldOwner &&
                             Disputable(p, strip, desired, ours.value))
              && ListsClaims(r.others, managed, others,
                             (e: ManagedEntry, p) => e.manager != fieldOwner &&
                             !Disputable(p, strip, desired, ours.value))
              && r.comparison.Some?
  {
    var ours := FindManaged(managed, fieldOwner);
    conflicts, others := [], [];
    if ours.None? {
      conflicts := OverlapsListed(managed, desired.Keys - strip);
      SameClaims(Overlaps(managed, desired.Keys - strip), managed, conflicts, (e, p) => p in desired.Keys - strip,
                 (e, p) => p in desired && p !in strip);
    } else {
      var diff := Leaves(desired.Keys - strip - ours.value.fields);
      forall p ensures p in diff <==> Disputable(p, strip, desired, ours.value) {
        DisputableLeaves(strip, desired, ours.value, p);
      }
      conflicts := ForeignOverlapsListed(managed, fieldOwner, diff);
      SameClaims(ForeignOverlaps(managed, fieldOwner, diff), managed, conflicts,
                 (e: ManagedEntry, p) => e.manager != fieldOwner && p in diff,
                 (e: ManagedEntry, p) => e.manager != fieldOwner && Disputable(p, strip, desired, ours.value));
      others := ForeignRemaindersListed(managed, fieldOwner, diff);
      SameClaims(ForeignRemainders(managed, fieldOwner, diff), managed, others,
                 (e: ManagedEntry, p) => e.manager != fieldOwner && p !in diff,
                 (e: ManagedEntry, p) => e.manager != fieldOwner && !Disputable(p, strip, desired, ours.value));
    }
  }

  lemma SameClaims(claims: seq<Claim>, managed: seq<ManagedEntry>, at: seq<nat>, chosen: (ManagedEntry, Path) -> bool,
                   chosen': (ManagedEntry, Path) -> bool)
    requires ListsClaims(claims, managed, at, chosen)
    requires forall e, p :: chosen(e, p) == chosen'(e, p)
    ensures ListsClaims(claims, managed, at, chosen')
  {
    forall k, p | 0 <= k < |at| ensures p in claims[k].fields <==>
      p in managed[at[k]].fields && chosen'(managed[at[k]], p) {
      assert chosen(managed[at[k]], p) == chosen'(managed[at[k]], p);
    }
  }

  /** With an entry of ours there is a conflict exactly if some other manager holds a disputable field. */
  lemma ConflictExactly(fieldOwner: string, strip: set<Path>, desired: Content, actual: Content,
                        managed: seq<ManagedEntry>)
    requires FindManaged(managed, fieldOwner).Some?
    ensures Comparing(fieldOwner, strip, desired, actual, managed).IsConflict() <==>
            exists i, p :: 0 <= i < |managed| && managed[i].manager != fieldOwner && p in managed[i].fields
                        && Disputable(p, strip, desired, FindManaged(managed, fieldOwner).value)
  {
    var at, _ := ClaimsAreExact(fieldOwner, strip, desired, actual, managed);
    var claims := Comparing(fieldOwner, strip, desired, actual, managed).conflicting;
    if claims != [] {
      var p :| p in claims[0].fields;
      assert p in managed[at[0]].fields;
    }
  }

  /**
   The first entry counts that our manager applied to the object itself, not by an update and not to a
   subresource.
   */
  lemma {:induction false} FirstEntryCounts(managed: seq<ManagedEntry>, fieldOwner: string, i: nat)
    requires i < |managed|
    requires managed[i].manager == fieldOwner && managed[i].operation == ApplyOp && managed[i].subresource == ""
    requires forall j :: 0 <= j < i ==>
               managed[j].manager != fieldOwner || managed[j].operation == UpdateOp || managed[j].subresource != ""
    ensures FindManaged(managed, fieldOwner) == Some(managed[i])
  {
    if i > 0 {
      assert forall j :: 1 <= j < |managed| ==> managed[1..][j - 1] == managed[j];
      FirstEntryCounts(managed[1..], fieldOwner, i - 1);
    }
  }

  /** The live content holds every desired field outside the stripped ones at its desired value. */
  predicate Holds(desired: Content, actual: Content, strip: set<Path>) {
    forall p :: p in desired && !Stripped(p, strip) ==> p in actual && actual[p] == desired[p]
  }

  lemma NoUpdateMeansHolds(desired: Content, actual: Content, strip: set<Path>)
    ensures var c := CompareContent(RemoveItems(desired, strip), RemoveItems(actual, strip));
            c.modified == {} && c.removed == {} <==> Holds(desired, actual, strip)
  {
    var d, a := RemoveItems(desired, strip), RemoveItems(actual, strip);
    var c := CompareContent(d, a);
    if c.modified == {} && c.removed == {} {
      forall p | p in desired && !Stripped(p, strip) ensures p in actual && actual[p] == desired[p] {
        assert p in d;
        assert p !in c.removed;
        assert p in a;
        assert p !in c.modified;
      }
    } else if p :| p in c.modified {
      assert p in desired && !Stripped(p, strip) && desired[p] != actual[p];
    } else {
      var p :| p in c.removed;
      assert p in desired && !Stripped(p, strip);
      assert p !in a;
    }
  }

  /** Every field present on the object is held by some manager. */
  predicate FullyManaged(actual: Content, managed: seq<ManagedEntry>) {
    forall p :: p in actual ==> exists i :: 0 <= i < |managed| && p in managed[i].fields
  }

  /**
   No conflict and nothing to update is a sound verdict, also when our own entry is missing,
   provided some unstripped desired field is present on the object and every present field is managed.
   */
  lemma QuietIsSound(fieldOwner: string, strip: set<Path>, desired: Content, actual: Content,
                     managed: seq<ManagedEntry>, anchor: Path)
    requires FullyManaged(actual, managed)
    requires anchor in desired && anchor in actual && anchor !in strip
    ensures var r := Comparing(fieldOwner, strip, desired, actual, managed);
            !r.IsConflict() && !r.NeedsUpdate() ==> Holds(desired, actual, strip)
  {
    var fields := desired.Keys - strip;
    if FindManaged(managed, fieldOwner).None? {
      OverlapsExact(managed, fields);
      var i :| 0 <= i < |managed| && anchor in managed[i].fields;
      assert anchor in fields * managed[i].fields;
    } else {
      NoUpdateMeansHolds(desired, actual, strip);
    }
  }

  /** The comparison reports nothing to do. */
  predicate Quiet(fieldOwner: string, strip: set<Path>, desired: Content, actual: Content, managed: seq<ManagedEntry>) {
    var r := Comparing(fieldOwner, strip, desired, actual, managed);
    !r.IsConflict() && !r.NeedsUpdate()
  }

  /**
   Whatever the live values are, the verdict can be trusted exactly when we manage a field, or somebody
   manages a desired one, or nothing is desired. Otherwise nobody claims the fields, so nobody conflicts,
   and values are not looked at.
   */
  lemma QuietExactly(fieldOwner: string, strip: set<Path>, desired: Content, managed: seq<ManagedEntry>)
    ensures (forall actual :: Quiet(fieldOwner, strip, desired, actual, managed) ==> Holds(desired, actual, strip)) <==>
            || FindManaged(managed, fieldOwner).Some?
            || Overlaps(managed, desired.Keys - strip) != []
            || forall p :: p in desired ==> Stripped(p, strip)
  {
    if FindManaged(managed, fieldOwner).Some? {
      forall actual | Quiet(fieldOwner, strip, desired, actual, managed) ensures Holds(desired, actual, strip) {
        NoUpdateMeansHolds(desired, actual, strip);
      }
    } else if Overlaps(managed, desired.Keys - strip) == [] {
      var nothing: Content := map[];
      assert Quiet(fieldOwner, strip, desired, nothing, managed);
      assert Holds(desired, nothing, strip) <==> forall p :: p in desired ==> Stripped(p, strip);
    }
  }

  /** When our entry covers every desired field and the values agree, the check reports nothing to do. */
  lemma CoveredIsQuiet(fieldOwner: string, strip: set<Path>, desired: Content, actual: Content,
                       managed: seq<ManagedEntry>)
    requires FindManaged(managed, fieldOwner).Some?
    requires desired.Keys - strip <= FindManaged(managed, fieldOwner).value.fields
    ensures var r := Comparing(fieldOwner, strip, desired, actual, managed);
            !r.IsConflict() && (r.NeedsUpdate() <==> !Holds(desired, actual, strip))
  {
    var diff := Leaves(desired.Keys - strip - FindManaged(managed, fieldOwner).value.fields);
    assert diff == {};
    ForeignOverlapsExact(managed, fieldOwner, diff);
    NoUpdateMeansHolds(desired, actual, strip);
  }
}
