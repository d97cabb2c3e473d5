/**
 What one reconcile call promises: when an idle verdict can be trusted, that a successful write
 settles the object, and when the next call has nothing left to do.
 */
module Reconciliation {
  import opened Basics
  import opened OwnerRefs
  import opened Comparator
  import opened ObjectEngine

  predicate OwnerResolves(opts: Options) {
    opts.owner.Some? ==> Resolvable(opts.owner.value)
  }

  /** References the prepared object carries: the owner as controller, or none without an owner. */
  function OwnRefs(opts: Options): seq<OwnerRef>
    requires OwnerResolves(opts)
  {
    if opts.owner.Some? then [ControllerRef(opts.owner.value)] else []
  }

  lemma PrepareEffect(e: Engine, revision: int, m: Manifest, opts: Options)
    requires OwnerResolves(opts) && revision != 0
    ensures Prepare(e, revision, m, opts) ==
            Ok(Desired(m.key, m.data[MANAGED_BY_PATH := Text(e.managedBy)], Number(revision), OwnRefs(opts)))
  {
    if opts.owner.Some? {
      assert SetController([], opts.owner.value) == Ok([] + OwnRefs(opts));
      assert [] + OwnRefs(opts) == OwnRefs(opts);
    }
  }

  /** Claiming control again on the prepared object changes nothing. */
  lemma CompareWithEffect(e: Engine, d: Desired, v: Live, opts: Options)
    requires OwnerResolves(opts) && d.refs == OwnRefs(opts)
    ensures CompareWith(e, d, v, opts) ==
            Ok(Comparing(e.fieldOwner, StripSet(e.hasStatus), DesiredContent(e.encoding, d),
                         LiveContent(e.encoding, v), v.managed))
  {
    if opts.owner.Some? {
      assert SameObject(ControllerRef(opts.owner.value), d.refs[0]);
      assert SameObject(RefTo(opts.owner.value, None), d.refs[0]);
      assert d.refs[0 := d.refs[0]] == d.refs;
      assert SetController(d.refs, opts.owner.value) == Ok(d.refs);
    }
    assert d.(refs := d.refs) == d;
  }

  // ---------------------------------------------------------------- owner references as content

  lemma {:induction false} RefMapKeys(refs: seq<OwnerRef>)
    ensures forall r :: r in refs ==> RefPath(r.uid) in RefMap(refs)
    ensures forall p :: p in RefMap(refs) ==> exists r :: r in refs && p == RefPath(r.uid)
  {
    if refs != [] {
      RefMapKeys(refs[1..]);
      forall p | p in RefMap(refs) ensures exists r :: r in refs && p == RefPath(r.uid) {
        if p == RefPath(refs[0].uid) {
          assert refs[0] in refs;
        } else {
          var r :| r in refs[1..] && p == RefPath(r.uid);
          assert r in refs;
        }
      }
    }
  }

  lemma {:induction false} RefMapAt(refs: seq<OwnerRef>, i: nat)
    requires i < |refs| && DistinctUids(refs)
    ensures RefPath(refs[i].uid) in RefMap(refs) && RefMap(refs)[RefPath(refs[i].uid)] == Reference(refs[i])
  {
    if i > 0 {
      RefMapAt(refs[1..], i - 1);
      assert refs[0].uid != refs[i].uid;
      assert RefPath(refs[0].uid)[2] != RefPath(refs[i].uid)[2];
    }
  }

  lemma ReservedPaths(hasStatus: bool, uid: Uid)
    ensures NOTE_PATH !in StripSet(hasStatus) && OWNERS_PATH !in StripSet(hasStatus)
    ensures RefPath(uid) !in StripSet(hasStatus)
    ensures NOTE_PATH != OWNERS_PATH && RefPath(uid) != NOTE_PATH && RefPath(uid) != OWNERS_PATH
    ensures !Reserved(MANAGED_BY_PATH)
  {
    var owners := RefPath(uid);
    assert |NOTE_PATH| == 3 && |OWNERS_PATH| == 3 && |owners| == 3;
    assert NOTE_PATH[2] != OWNERS_PATH[2] && owners[1] != NOTE_PATH[1];
    assert MANAGED_BY_PATH[1] != NOTE_PATH[1] && MANAGED_BY_PATH[1] != owners[1];
    assert |MANAGED_BY_PATH| == 3 && RefPath(MANAGED_BY_PATH[2])[1] != MANAGED_BY_PATH[1];
  }

  // ---------------------------------------------------------------- an idle verdict is true

  lemma SomeFieldIsShared(e: Engine, d: Desired, v: Live, opts: Options) returns (anchor: Path)
    requires OwnerResolves(opts) && d.refs == OwnRefs(opts) && d.note.Number?
    requires CheckSituation(opts, v) == IsController
    ensures anchor in DesiredContent(e.encoding, d) && anchor in LiveContent(e.encoding, v)
    ensures anchor !in StripSet(e.hasStatus)
  {
    if opts.owner.None? {
      anchor := NOTE_PATH;
      ReservedPaths(e.hasStatus, "");
    } else {
      var me := opts.owner.value;
      ReservedPaths(e.hasStatus, me.uid);
      var i :| 0 <= i < |v.refs| && SameObject(RefTo(me, None), v.refs[i]) && v.refs[i].IsController();
      if e.encoding == NativeList {
        anchor := RefPath(me.uid);
        assert v.refs[i] in v.refs && d.refs[0] in d.refs;
        RefMapKeys(v.refs);
        RefMapKeys(d.refs);
      } else {
        anchor := OWNERS_PATH;
      }
    }
  }

  lemma IdleMeansControl(e: Engine, revision: int, d: Desired, v: Live, opts: Options)
    requires DecideUpdate(e, revision, d, v, opts) == Report(Idle)
    ensures CheckSituation(opts, v) == IsController
  {
  }

  /**
   If every field present on the object has some manager, Idle is reported only when the object
   holds every desired field at its desired value.
   */
  lemma IdleIsSound(e: Engine, revision: int, d: Desired, v: Live, opts: Options)
    requires OwnerResolves(opts) && d.refs == OwnRefs(opts) && d.note.Number?
    requires FullyManaged(LiveContent(e.encoding, v), v.managed)
    requires DecideUpdate(e, revision, d, v, opts) == Report(Idle)
    ensures Holds(DesiredContent(e.encoding, d), LiveContent(e.encoding, v), StripSet(e.hasStatus))
  {
    IdleIsQuiet(e, revision, d, v, opts);
    IdleMeansControl(e, revision, d, v, opts);
    var anchor := SomeFieldIsShared(e, d, v, opts);
    QuietIsSound(e.fieldOwner, StripSet(e.hasStatus), DesiredContent(e.encoding, d),
                 LiveContent(e.encoding, v), v.managed, anchor);
  }

  // ---------------------------------------------------------------- when an idle verdict can be trusted

  /** The label every prepared object carries is compared. */
  lemma LabelIsCompared(hasStatus: bool)
    ensures !Stripped(MANAGED_BY_PATH, StripSet(hasStatus))
  {
    forall q | q in StripSet(hasStatus) ensures !(q <= MANAGED_BY_PATH) {
      assert |q| > 0 && (|q| == 1 ==> q[0] != MANAGED_BY_PATH[0]) && (|q| == 2 ==> q[1] != MANAGED_BY_PATH[1]) by {
        StrippedPaths(hasStatus, q);
      }
    }
  }

  lemma StrippedPaths(hasStatus: bool, q: Path)
    requires q in StripSet(hasStatus)
    ensures 1 <= |q| <= 2 && (|q| == 1 ==> q[0] != "metadata") && (|q| == 2 ==> q[1] != "labels")
  {
  }

  /** An object we control, stripped of everything else: no data, no managers. */
  function Bare(revision: int, opts: Options, managed: seq<ManagedEntry>): Live
    requires OwnerResolves(opts)
  {
    Live(0, 0, map[], Number(revision), OwnRefs(opts), managed)
  }

  lemma BareIsOurs(revision: int, opts: Options, managed: seq<ManagedEntry>)
    requires OwnerResolves(opts)
    ensures CheckSituation(opts, Bare(revision, opts, managed)) == IsController
  {
    if opts.owner.Some? {
      ControllerIsDetected(OwnRefs(opts), opts.owner.value, opts.siblings);
    }
  }

  /** A bare object lacks the label, whatever was desired of it. */
  lemma BareDiffers(e: Engine, revision: int, m: Manifest, opts: Options, managed: seq<ManagedEntry>)
    requires OwnerResolves(opts) && Prepare(e, revision, m, opts).Ok?
    ensures !Holds(DesiredContent(e.encoding, Prepare(e, revision, m, opts).value),
                   LiveContent(e.encoding, Bare(revision, opts, managed)), StripSet(e.hasStatus))
  {
    var d, v := Prepare(e, revision, m, opts).value, Bare(revision, opts, managed);
    LabelIsCompared(e.hasStatus);
    ReservedPaths(e.hasStatus, "");
    DataIsNoReference(e.encoding, v.refs, v.note, MANAGED_BY_PATH);
    assert MANAGED_BY_PATH in d.data && MANAGED_BY_PATH in DesiredContent(e.encoding, d);
    assert MANAGED_BY_PATH !in LiveContent(e.encoding, v);
  }

  /**
   For every manifest and every list of managers on the live object: Idle is decided only when all
   desired values are there, exactly if we manage a field of it or somebody manages a desired one.
   */
  lemma IdleSoundExactly(e: Engine, revision: int, m: Manifest, opts: Options, managed: seq<ManagedEntry>)
    requires OwnerResolves(opts) && revision != 0
    ensures Prepare(e, revision, m, opts).Ok?
    ensures var d := Prepare(e, revision, m, opts).value;
            (forall v: Live :: v.managed == managed && DecideUpdate(e, revision, d, v, opts) == Report(Idle) ==>
               Holds(DesiredContent(e.encoding, d), LiveContent(e.encoding, v), StripSet(e.hasStatus))) <==>
            FindManaged(managed, e.fieldOwner).Some? || Overlaps(managed, Fields(e, d)) != []
  {
    PrepareEffect(e, revision, m, opts);
    var d := Prepare(e, revision, m, opts).value;
    if FindManaged(managed, e.fieldOwner).Some? || Overlaps(managed, Fields(e, d)) != [] {
      forall v: Live | v.managed == managed && DecideUpdate(e, revision, d, v, opts) == Report(Idle)
        ensures Holds(DesiredContent(e.encoding, d), LiveContent(e.encoding, v), StripSet(e.hasStatus))
      {
        IdleIsQuiet(e, revision, d, v, opts);
        NoUpdateMeansHolds(DesiredContent(e.encoding, d), LiveContent(e.encoding, v), StripSet(e.hasStatus));
      }
    } else {
      var v := UnmanagedIsIdle(e, revision, m, opts, managed);
    }
  }

  lemma IdleIsQuiet(e: Engine, revision: int, d: Desired, v: Live, opts: Options)
    requires OwnerResolves(opts) && d.refs == OwnRefs(opts)
    requires || (CheckSituation(opts, v) == IsController && NoteRevision(v.note).Some?)
             || DecideUpdate(e, revision, d, v, opts) == Report(Idle)
    ensures DecideUpdate(e, revision, d, v, opts) == Report(Idle) <==>
            Quiet(e.fieldOwner, StripSet(e.hasStatus), DesiredContent(e.encoding, d),
                  LiveContent(e.encoding, v), v.managed)
  {
    CompareWithEffect(e, d, v, opts);
  }

  /**
   The failing input, for every manifest: an object we control that lacks the label, with nobody managing a
   desired field.
   */
  lemma UnmanagedIsIdle(e: Engine, revision: int, m: Manifest, opts: Options, managed: seq<ManagedEntry>)
    returns (v: Live)
    requires OwnerResolves(opts) && revision != 0 && FindManaged(managed, e.fieldOwner).None?
    requires Prepare(e, revision, m, opts).Ok? ==>
               Overlaps(managed, Fields(e, Prepare(e, revision, m, opts).value)) == []
    ensures v.managed == managed && Prepare(e, revision, m, opts).Ok?
    ensures var d := Prepare(e, revision, m, opts).value;
            && DecideUpdate(e, revision, d, v, opts) == Report(Idle)
            && !Holds(DesiredContent(e.encoding, d), LiveContent(e.encoding, v), StripSet(e.hasStatus))
  {
    PrepareEffect(e, revision, m, opts);
    v := Bare(revision, opts, managed);
    BareIsOurs(revision, opts, managed);
    BareDiffers(e, revision, m, opts, managed);
    IdleIsQuiet(e, revision, Prepare(e, revision, m, opts).value, v, opts);
  }

  // ---------------------------------------------------------------- a successful write settles the object

  /** The object is ours, our apply entry covers the prepared object, and its values are stored. */
  predicate Settled(e: Engine, d: Desired, v: Live, opts: Options) {
    && CheckSituation(opts, v) == IsController
    && v.note == d.note
    && (forall p :: p in d.data ==> p in v.data && v.data[p] == d.data[p])
    && FindManaged(v.managed, e.fieldOwner).Some?
    && Fields(e, d) <= FindManaged(v.managed, e.fieldOwner).value.fields
    && (e.encoding == NativeList ==> DistinctUids(v.refs) && forall r :: r in d.refs ==> r in v.refs)
  }

  lemma NoteIsNoReference(enc: Encoding, refs: seq<OwnerRef>)
    ensures NOTE_PATH !in RefContent(enc, refs)
  {
    RefMapKeys(refs);
    forall r | r in refs ensures RefPath(r.uid) != NOTE_PATH {
      ReservedPaths(false, r.uid);
    }
    ReservedPaths(false, "");
  }

  lemma DataIsNoReference(enc: Encoding, refs: seq<OwnerRef>, note: Note, p: Path)
    requires !Reserved(p)
    ensures p !in RefContent(enc, refs) && p !in NoteContent(note)
  {
    RefMapKeys(refs);
    forall r | r in refs ensures RefPath(r.uid) != p {
      assert Reserved(RefPath(r.uid));
    }
  }

  /** Outside of an owner list stored as one text, a settled object holds what was desired. */
  lemma SettledField(e: Engine, d: Desired, v: Live, opts: Options, p: Path)
    requires OwnerResolves(opts) && d.refs == OwnRefs(opts) && d.note.Number?
    requires forall q :: q in d.data ==> !Reserved(q)
    requires Settled(e, d, v, opts)
    requires p in DesiredContent(e.encoding, d) && p != OWNERS_PATH
    ensures p in LiveContent(e.encoding, v) && LiveContent(e.encoding, v)[p] == DesiredContent(e.encoding, d)[p]
  {
    if p in RefContent(e.encoding, d.refs) {
      RefMapKeys(d.refs);
      assert d.refs[0] in v.refs;
      var i :| 0 <= i < |v.refs| && v.refs[i] == d.refs[0];
      RefMapAt(v.refs, i);
      RefMapAt(d.refs, 0);
    } else if p == NOTE_PATH {
      NoteIsNoReference(e.encoding, v.refs);
    } else {
      DataIsNoReference(e.encoding, v.refs, v.note, p);
    }
  }

  lemma SettledContent(e: Engine, d: Desired, v: Live, opts: Options)
    requires OwnerResolves(opts) && d.refs == OwnRefs(opts) && d.note.Number?
    requires forall p :: p in d.data ==> !Reserved(p)
    requires Settled(e, d, v, opts)
    ensures Holds(DesiredContent(e.encoding, d), LiveContent(e.encoding, v), StripSet(e.hasStatus)) <==>
            (e.encoding == NativeList || d.refs == [] || v.refs == d.refs)
  {
    var want, have := DesiredContent(e.encoding, d), LiveContent(e.encoding, v);
    forall p | p in want && p != OWNERS_PATH ensures p in have && have[p] == want[p] {
      SettledField(e, d, v, opts, p);
    }
    ReservedPaths(e.hasStatus, "");
    OwnersAreNotStripped(e.hasStatus);
    if e.encoding == AnnotationText && d.refs != [] {
      assert want[OWNERS_PATH] == References(d.refs);
      var i :| 0 <= i < |v.refs| && v.refs[i].IsController();
      assert have[OWNERS_PATH] == References(v.refs);
    } else {
      RefMapKeys(d.refs);
      assert OWNERS_PATH !in d.data;
      forall r | r in d.refs ensures RefPath(r.uid) != OWNERS_PATH {
        ReservedPaths(e.hasStatus, r.uid);
      }
      assert OWNERS_PATH !in want;
    }
  }

  lemma OwnersAreNotStripped(hasStatus: bool)
    ensures !Stripped(OWNERS_PATH, StripSet(hasStatus))
  {
    forall q | q in StripSet(hasStatus) ensures !(q <= OWNERS_PATH) {
      assert |OWNERS_PATH| == 3 && OWNERS_PATH[0] == "metadata" && OWNERS_PATH[1] == "annotations";
      if |q| == 1 {
        assert q[0] != "metadata";
      } else {
        assert |q| == 2 && q[1] != "annotations";
      }
    }
  }

  /** Nothing distinguishes the stored owner list from the one this owner would write alone. */
  predicate NoFurtherOwners(e: Engine, v: Live, opts: Options)
    requires OwnerResolves(opts)
  {
    e.encoding == NativeList || opts.owner.None? || v.refs == OwnRefs(opts)
  }

  /**
   A settled object is left alone by the next reconcile, except that an owner list stored as one
   text and naming further owners is rewritten to name only this one.
   */
  lemma SettledIsIdle(e: Engine, revision: int, d: Desired, v: Live, opts: Options)
    requires OwnerResolves(opts) && d.refs == OwnRefs(opts) && d.note.Number?
    requires forall p :: p in d.data ==> !Reserved(p)
    requires Settled(e, d, v, opts)
    ensures DecideUpdate(e, revision, d, v, opts) ==
            if NoFurtherOwners(e, v, opts) then Report(Idle) else Write(d, false, Updated)
  {
    var strip, want, have := StripSet(e.hasStatus), DesiredContent(e.encoding, d), LiveContent(e.encoding, v);
    CompareWithEffect(e, d, v, opts);
    assert Holds(want, have, strip) <==> NoFurtherOwners(e, v, opts) by {
      SettledContent(e, d, v, opts);
    }
    assert want.Keys - strip <= FindManaged(v.managed, e.fieldOwner).value.fields;
    CoveredIsQuiet(e.fieldOwner, strip, want, have, v.managed);
  }

  /** The server's apply stores our entry where the comparator looks for it. */
  lemma OurEntryIsFound(before: seq<ManagedEntry>, ours: ManagedEntry, fieldOwner: string)
    requires IsOurs(ours, fieldOwner)
    requires forall x :: x in before ==> !IsOurs(x, fieldOwner)
    ensures FindManaged(before + [ours], fieldOwner) == Some(ours)
  {
    var all := before + [ours];
    assert all[|before|] == ours;
    var found := FindManaged(all, fieldOwner).value;
    var k :| 0 <= k < |all| && all[k] == found;
    assert k < |before| ==> found in before;
  }

  lemma {:induction false} WithoutOwnDropsOurs(managed: seq<ManagedEntry>, fieldOwner: string)
    ensures forall x :: x in WithoutOwn(managed, fieldOwner) ==> !IsOurs(x, fieldOwner)
  {
    if managed != [] {
      WithoutOwnDropsOurs(managed[1..], fieldOwner);
    }
  }

  /** A reference in the merged list that controls makes its owner the controller. */
  lemma ControllerIsDetected(refs: seq<OwnerRef>, owner: Owner, siblings: set<Uid>)
    requires Resolvable(owner) && ControllerRef(owner) in refs
    ensures DetectOwner(refs, owner, siblings) == IsController
  {
    var i :| 0 <= i < |refs| && refs[i] == ControllerRef(owner);
    assert SameObject(RefTo(owner, None), refs[i]) && refs[i].IsController();
  }

  /** Applying a desired object that claims control settles the object. */
  lemma ApplySettles(e: Engine, v: Live, applied: Desired, d: Desired, opts: Options, keep: set<Uid>)
    requires OwnerResolves(opts) && d.refs == OwnRefs(opts) && d.note.Number?
    requires applied.data == d.data && applied.note == d.note
    requires forall r :: r in d.refs ==> r in applied.refs
    requires e.encoding == AnnotationText && d.refs == [] ==> applied.refs == []
    requires Acceptable(e.encoding, MergedRefs(e.encoding, v.refs, applied.refs, keep))
    ensures Settled(e, d, AppliedTo(e, v, applied, keep), opts)
  {
    var out := AppliedTo(e, v, applied, keep);
    assert forall r :: r in d.refs ==> r in out.refs;
    if opts.owner.Some? {
      assert d.refs[0] in out.refs;
      ControllerIsDetected(out.refs, opts.owner.value, opts.siblings);
    }
    var content := DesiredContent(e.encoding, applied);
    OurEntryIsFound(Yielding(v.managed, e.fieldOwner, Contested(content, LiveContent(e.encoding, v))),
                    ManagedEntry(e.fieldOwner, ApplyOp, "", Fields(e, applied)), e.fieldOwner);
    MoreRefsMoreFields(e, d, applied);
  }

  lemma MoreRefsMoreFields(e: Engine, d: Desired, applied: Desired)
    requires applied.data == d.data && applied.note == d.note
    requires forall r :: r in d.refs ==> r in applied.refs
    ensures Fields(e, d) <= Fields(e, applied)
  {
    RefMapKeys(d.refs);
    RefMapKeys(applied.refs);
    if d.refs != [] {
      assert d.refs[0] in applied.refs;
    }
    assert RefContent(e.encoding, d.refs).Keys <= RefContent(e.encoding, applied.refs).Keys;
  }

  /** What the engine writes always claims control for its owner on top of the prepared object. */
  lemma WritesClaimControl(e: Engine, revision: int, d: Desired, v: Live, opts: Options)
    requires OwnerResolves(opts) && d.refs == OwnRefs(opts) && d.note == Number(revision)
    requires DecideUpdate(e, revision, d, v, opts).Write?
    ensures var out := DecideUpdate(e, revision, d, v, opts).d;
            && out.key == d.key && out.data == d.data && out.note == d.note
            && (forall r :: r in d.refs ==> r in out.refs)
            && (d.refs == [] ==> out.refs == [])
  {
    WritesByBranch(CompareWith(e, d, v, opts).value, revision, d, v, opts);
    AdoptionClaimsControl(revision, d, v, opts);
  }

  lemma AdoptionClaimsControl(revision: int, d: Desired, v: Live, opts: Options)
    requires OwnerResolves(opts) && d.refs == OwnRefs(opts) && d.note == Number(revision)
    ensures Adopt(d, v, revision, opts).Write? ==>
              var out := Adopt(d, v, revision, opts).d;
              && out.key == d.key && out.data == d.data && out.note == d.note
              && (forall r :: r in d.refs ==> r in out.refs)
              && (d.refs == [] ==> out.refs == [])
  {
    if opts.owner.Some? {
      TakeOverEffect(v.refs, opts.owner.value);
    }
  }

  lemma WrittenSettles(e: Engine, w: World, applied: Desired, d: Desired, v: Live, force: bool, opts: Options,
                       keep: set<Uid>)
    requires OwnerResolves(opts) && d.refs == OwnRefs(opts) && d.note.Number?
    requires applied.data == d.data && applied.note == d.note
    requires forall r :: r in d.refs ==> r in applied.refs
    requires d.refs == [] ==> applied.refs == []
    requires Written(e, w, applied, v, force, keep).1 == None
    ensures var w' := Written(e, w, applied, v, force, keep).0;
            applied.key in w'.objects && Settled(e, d, w'.objects[applied.key], opts)
  {
    var base := if NeedsMigration(v.managed, e.fieldOwner) then MigrateObject(e, w, applied.key, v.rv).value else w;
    ApplySettles(e, base.objects[applied.key], applied, d, opts, keep);
  }

  lemma CreateSettles(e: Engine, w: World, d: Desired, opts: Options)
    requires OwnerResolves(opts) && d.refs == OwnRefs(opts) && d.note.Number?
    requires d.key !in w.objects && !opts.paused
    ensures Creating(e, w, d, opts).1 == Done(Created)
    ensures Settled(e, d, Creating(e, w, d, opts).0.objects[d.key], opts)
  {
    var created := CreateObject(e, w, d).value.objects[d.key];
    if opts.owner.Some? {
      assert d.refs[0] in d.refs;
      ControllerIsDetected(d.refs, opts.owner.value, opts.siblings);
    }
    WithoutOwnDropsOurs(created.managed, e.fieldOwner);
    OurEntryIsFound(WithoutOwn(created.managed, e.fieldOwner),
                    ManagedEntry(e.fieldOwner, ApplyOp, "",
                                 AppliedFields(created.managed, e.fieldOwner) +
                                 ClientSideFields(created.managed, e.fieldOwner)),
                    e.fieldOwner);
    assert IsClientSide(created.managed[0], e.fieldOwner);
    assert Fields(e, d) <= ClientSideFields(created.managed, e.fieldOwner);
  }

  /** The list names nobody, or the owner alone. */
  predicate NoStrangers(refs: seq<OwnerRef>, me: Owner)
    requires me.gvk.Some?
  {
    |refs| == 0 || (|refs| == 1 && SameObject(ControllerRef(me), refs[0]))
  }

  lemma TakeOverLeavesOne(refs: seq<OwnerRef>, me: Owner)
    requires Resolvable(me)
    ensures TakeOver(refs, me) == Ok([ControllerRef(me)]) <==> NoStrangers(refs, me)
  {
    TakeOverEffect(refs, me);
    var out := TakeOver(refs, me).value;
    if |refs| == 0 {
      assert Release(refs) == [];
      assert out == [] + [ControllerRef(me)] == [ControllerRef(me)];
    } else if |refs| == 1 {
      assert Release(refs)[0] == refs[0].(controller := None);
      if SameObject(ControllerRef(me), refs[0]) {
        assert IndexOf(Release(refs), ControllerRef(me)) == 0;
        assert out == [ControllerRef(me)];
      } else {
        assert out[0] == refs[0].(controller := None) && out[0] != ControllerRef(me);
      }
    }
  }

  /** What the call reads: the cached object, or what an uncached read finds after a create collided. */
  function WhatIsRead(w: World, key: Key, cached: Option<Live>): Option<Live> {
    if cached.Some? then cached else if key in w.objects then Some(w.objects[key]) else None
  }

  /**
   Known before the call: owners are not stored as one text, or there is no owner, or the object is
   created, or it is controlled by us already, or its owner list names nobody else.
   */
  predicate SettlesAtOnce(e: Engine, opts: Options, read: Option<Live>)
    requires OwnerResolves(opts)
  {
    || e.encoding == NativeList
    || opts.owner.None?
    || read.None?
    || CheckSituation(opts, read.value) == IsController
    || NoStrangers(read.value.refs, opts.owner.value)
  }

  lemma WrittenRefs(e: Engine, w: World, applied: Desired, v: Live, force: bool, keep: set<Uid>)
    requires e.encoding == AnnotationText && applied.refs != [] && Written(e, w, applied, v, force, keep).1 == None
    ensures var w' := Written(e, w, applied, v, force, keep).0;
            applied.key in w'.objects && w'.objects[applied.key].refs == applied.refs
  {
  }

  /** The owner list an update stores as text: ours alone if we are controller, else the one taken over. */
  lemma UpdateStoresRefs(e: Engine, w: World, revision: int, d: Desired, v: Live, opts: Options, keep: set<Uid>)
    requires OwnerResolves(opts) && opts.owner.Some? && d.refs == OwnRefs(opts) && d.note == Number(revision)
    requires e.encoding == AnnotationText && !opts.paused
    requires Updating(e, w, revision, d, v, opts, keep).1 in {Done(Updated), Done(Recovered)}
    ensures var w' := Updating(e, w, revision, d, v, opts, keep).0;
            d.key in w'.objects &&
            if CheckSituation(opts, v) == IsController then w'.objects[d.key].refs == d.refs
            else TakeOver(v.refs, opts.owner.value) == Ok(w'.objects[d.key].refs)
  {
    var write := DecideUpdate(e, revision, d, v, opts);
    assert write.Write? by {
      OnlyWritesChange(e, revision, d, v, opts);
    }
    WritesByBranch(CompareWith(e, d, v, opts).value, revision, d, v, opts);
    WritesClaimControl(e, revision, d, v, opts);
    assert d.refs[0] in d.refs && d.refs[0] in write.d.refs;
    WrittenRefs(e, w, write.d, v, write.force, keep);
  }

  lemma SettlesAtOnceExactly(e: Engine, w: World, revision: int, m: Manifest, d: Desired, opts: Options,
                             cached: Option<Live>, keep: set<Uid>)
    requires OwnerResolves(opts) && !opts.paused && Prepare(e, revision, m, opts) == Ok(d) && d.refs == OwnRefs(opts)
    requires d.note == Number(revision) && d.key == m.key
    requires Reconciled(e, w, revision, m, opts, cached, keep).1 in {Done(Created), Done(Updated), Done(Recovered)}
    ensures var w' := Reconciled(e, w, revision, m, opts, cached, keep).0;
            && m.key in w'.objects
            && (NoFurtherOwners(e, w'.objects[m.key], opts) <==> SettlesAtOnce(e, opts, WhatIsRead(w, m.key, cached)))
  {
    WriteSettles(e, w, revision, m, d, opts, cached, keep);
    var read := WhatIsRead(w, m.key, cached);
    if read.Some? && opts.owner.Some? && e.encoding == AnnotationText {
      assert Updating(e, w, revision, d, read.value, opts, keep).1 != Done(Created) by {
        UpdatesDoNotCreate(e, w, revision, d, read.value, opts, keep);
      }
      UpdateStoresRefs(e, w, revision, d, read.value, opts, keep);
      TakeOverLeavesOne(read.value.refs, opts.owner.value);
    }
  }

  lemma UpdatesDoNotCreate(e: Engine, w: World, revision: int, d: Desired, v: Live, opts: Options, keep: set<Uid>)
    ensures Updating(e, w, revision, d, v, opts, keep).1 != Done(Created)
  {
  }

  /**
   After an unpaused reconcile ends in Created, Updated or Recovered, the object is settled, and
   reconciling the same manifest against it is Idle and writes nothing, exactly when what the first
   call read allows it to settle at once; otherwise the next call writes again.
   */
  lemma ReconcileIsIdempotent(e: Engine, w: World, revision: int, m: Manifest, opts: Options,
                              cached: Option<Live>, keep: set<Uid>, again: set<Uid>)
    requires OwnerResolves(opts) && Plain(m) && !opts.paused
    requires Reconciled(e, w, revision, m, opts, cached, keep).1 in {Done(Created), Done(Updated), Done(Recovered)}
    ensures var w' := Reconciled(e, w, revision, m, opts, cached, keep).0;
            && m.key in w'.objects
            && Settled(e, Prepare(e, revision, m, opts).value, w'.objects[m.key], opts)
            && (SettlesAtOnce(e, opts, WhatIsRead(w, m.key, cached)) <==>
                Reconciled(e, w', revision, m, opts, Some(w'.objects[m.key]), again) == (w', Done(Idle)))
  {
    PrepareEffect(e, revision, m, opts);
    var d := Prepare(e, revision, m, opts).value;
    var w' := Reconciled(e, w, revision, m, opts, cached, keep).0;
    WriteSettles(e, w, revision, m, d, opts, cached, keep);
    ManifestPathsArePlain(m, Text(e.managedBy));
    SettledAgain(e, w', revision, m, d, w'.objects[m.key], opts, again);
    SettlesAtOnceExactly(e, w, revision, m, d, opts, cached, keep);
  }

  /** So with owners stored as one text, taking an object over from anybody is never idempotent. */
  lemma TakingOverIsNeverIdempotent(e: Engine, w: World, revision: int, m: Manifest, opts: Options,
                                    cached: Option<Live>, keep: set<Uid>, again: set<Uid>)
    requires OwnerResolves(opts) && Plain(m) && !opts.paused && opts.owner.Some? && e.encoding == AnnotationText
    requires WhatIsRead(w, m.key, cached).Some?
    requires CheckSituation(opts, WhatIsRead(w, m.key, cached).value) in {SiblingIsController, UnknownController}
    requires Reconciled(e, w, revision, m, opts, cached, keep).1 in {Done(Created), Done(Updated), Done(Recovered)}
    ensures var w' := Reconciled(e, w, revision, m, opts, cached, keep).0;
            && m.key in w'.objects
            && Reconciled(e, w', revision, m, opts, Some(w'.objects[m.key]), again) != (w', Done(Idle))
  {
    ReconcileIsIdempotent(e, w, revision, m, opts, cached, keep, again);
    var v, me := WhatIsRead(w, m.key, cached).value, opts.owner.value;
    if NoStrangers(v.refs, me) {
      assert !IsControlledBy(v.refs, me);
      assert SameObject(RefTo(me, None), v.refs[0]);
    }
  }

  lemma SettledAgain(e: Engine, w: World, revision: int, m: Manifest, d: Desired, v: Live, opts: Options,
                     keep: set<Uid>)
    requires OwnerResolves(opts) && d.refs == OwnRefs(opts) && d.note.Number? && !opts.paused
    requires Prepare(e, revision, m, opts) == Ok(d) && forall p :: p in d.data ==> !Reserved(p)
    requires Settled(e, d, v, opts)
    ensures NoFurtherOwners(e, v, opts) <==> Reconciled(e, w, revision, m, opts, Some(v), keep) == (w, Done(Idle))
  {
    SettledIsIdle(e, revision, d, v, opts);
    UpdateFollowsDecision(e, w, revision, d, v, opts, keep);
  }

  lemma UpdateFollowsDecision(e: Engine, w: World, revision: int, d: Desired, v: Live, opts: Options, keep: set<Uid>)
    ensures var decision := DecideUpdate(e, revision, d, v, opts);
            && (decision == Report(Idle) ==> Updating(e, w, revision, d, v, opts, keep) == (w, Done(Idle)))
            && (decision.Write? && decision.action != Idle ==>
                  Updating(e, w, revision, d, v, opts, keep).1 != Done(Idle))
  {
  }

  lemma ManifestPathsArePlain(m: Manifest, managedBy: Value)
    requires Plain(m)
    ensures forall p :: p in m.data[MANAGED_BY_PATH := managedBy] ==> !Reserved(p)
  {
    ReservedPaths(false, "");
  }

  lemma WriteSettles(e: Engine, w: World, revision: int, m: Manifest, d: Desired, opts: Options,
                     cached: Option<Live>, keep: set<Uid>)
    requires OwnerResolves(opts) && !opts.paused && Prepare(e, revision, m, opts) == Ok(d) && d.refs == OwnRefs(opts)
    requires d.note == Number(revision) && d.key == m.key
    requires Reconciled(e, w, revision, m, opts, cached, keep).1 in {Done(Created), Done(Updated), Done(Recovered)}
    ensures var w' := Reconciled(e, w, revision, m, opts, cached, keep).0;
            m.key in w'.objects && Settled(e, d, w'.objects[m.key], opts)
  {
    if cached.None? && d.key !in w.objects {
      CreateSettles(e, w, d, opts);
    } else {
      var v := if cached.Some? then cached.value else w.objects[d.key];
      var write := DecideUpdate(e, revision, d, v, opts);
      assert write.Write? by {
        OnlyWritesChange(e, revision, d, v, opts);
      }
      WritesClaimControl(e, revision, d, v, opts);
      WrittenSettles(e, w, write.d, d, v, write.force, opts, keep);
    }
  }

  lemma OnlyWritesChange(e: Engine, revision: int, d: Desired, v: Live, opts: Options)
    ensures DecideUpdate(e, revision, d, v, opts).Report? ==>
              DecideUpdate(e, revision, d, v, opts).action in {Idle, Progressed, Collision}
  {
  }

  /** Adopting an object that another owner keeps a share in is the case where a text-encoded list is rewritten. */
  lemma AdoptionKeepsOtherOwners(e: Engine, w: World, revision: int, d: Desired, v: Live, opts: Options, keep: set<Uid>,
                                 other: OwnerRef)
    requires opts.owner.Some? && Resolvable(opts.owner.value) && e.encoding == AnnotationText
    requires other in v.refs && !SameObject(ControllerRef(opts.owner.value), other)
    requires Adopt(d, v, revision, opts).Write?
    ensures other.(controller := None) in AppliedTo(e, v, Adopt(d, v, revision, opts).d, keep).refs
    ensures AppliedTo(e, v, Adopt(d, v, revision, opts).d, keep).refs != OwnRefs(opts)
  {
    var me := opts.owner.value;
    TakeOverEffect(v.refs, me);
    var i :| 0 <= i < |v.refs| && v.refs[i] == other;
    var out := TakeOver(v.refs, me).value;
    assert out[i] == other.(controller := None);
    assert out != [ControllerRef(me)] by {
      assert out[i] != ControllerRef(me);
    }
  }
}
