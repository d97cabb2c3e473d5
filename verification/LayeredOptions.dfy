/**
 Options in layers (machinery/types/options.go): options for a revision hold options for its phases,
 which hold options for their objects. Reconciliation resolves one layer at a time
 (machinery/revision.go, machinery/phases.go).
 */
module LayeredOptions {
  import opened Basics
  import opened Preflight

  type Probe = nat
  type Classifier = nat

  // ---------------------------------------------------------------- options and settings

  /** Options for one object. The owner comes with its strategy, which may be missing. */
  datatype ObjectOption =
    | WithCollisionProtection(protection: string)
    | WithSiblingOwnerClassifier(classifier: Classifier)
    | WithPaused
    | WithProbe(kind: string, probe: Probe)
    | WithOwner(owner: string, strategy: Option<string>)

  /** Options for a phase: one for all of its objects, a list for one object, or the handling of errors. */
  datatype PhaseOption =
    | ForAll(opt: ObjectOption)
    | ForOne(ref: Ref, opts: seq<ObjectOption>)
    | AggregateErrors

  /** Options for a revision: one for all of its phases, or a list for one phase. */
  datatype RevisionOption =
    | ForAllPhases(opt: PhaseOption)
    | ForOnePhase(name: string, opts: seq<PhaseOption>)

  datatype Settings = Settings(protection: string, classifier: Option<Classifier>, paused: bool,
                               probes: map<string, Probe>,
                               owner: Option<string>, strategy: Option<string>)

  const UNSET: Settings := Settings("", None, false, map[], None, None)

  const PREVENT: string := "Prevent"

  datatype RevisionOptions = RevisionOptions(defaults: seq<PhaseOption>, phases: map<string, seq<PhaseOption>>)

  datatype PhaseOptions = PhaseOptions(defaults: seq<ObjectOption>, objects: map<Ref, seq<ObjectOption>>,
                                       aggregate: bool)

  // ---------------------------------------------------------------- applying options, one layer at a time

  function ApplyToObject(s: Settings, o: ObjectOption): Settings {
    match o
    case WithCollisionProtection(p) => s.(protection := p)
    case WithSiblingOwnerClassifier(c) => s.(classifier := Some(c))
    case WithPaused => s.(paused := true)
    case WithProbe(t, p) => s.(probes := s.probes[t := p])
    case WithOwner(owner, strategy) => s.(owner := Some(owner), strategy := strategy)
  }

  function ApplyToPhase(p: PhaseOptions, o: PhaseOption): PhaseOptions {
    match o
    case ForAll(opt) => p.(defaults := p.defaults + [opt])
    case ForOne(ref, opts) => p.(objects := p.objects[ref := opts])
    case AggregateErrors => p.(aggregate := true)
  }

  function ApplyToRevision(r: RevisionOptions, o: RevisionOption): RevisionOptions {
    match o
    case ForAllPhases(opt) => r.(defaults := r.defaults + [opt])
    case ForOnePhase(name, opts) => r.(phases := r.phases[name := opts])
  }

  function ForPhase(r: RevisionOptions, name: string): seq<PhaseOption> {
    r.defaults + if name in r.phases then r.phases[name] else []
  }

  function ForObject(p: PhaseOptions, ref: Ref): seq<ObjectOption> {
    p.defaults + if ref in p.objects then p.objects[ref] else []
  }

  /** An owner without a strategy panics; collision protection defaults to prevention. */
  function Defaulted(s: Settings): Result<Settings, string> {
    if s.owner.Some? && s.strategy.None? then Err("Owner without ownerStrategy set")
    else Ok(if s.protection == "" then s.(protection := PREVENT) else s)
  }

  // ---------------------------------------------------------------- the flat reading

  /** Options given for all, in order. */
  function General(os: seq<PhaseOption>): seq<ObjectOption> {
    if os == [] then []
    else
      var rest, last := General(os[..|os| - 1]), os[|os| - 1];
      if last.ForAll? then rest + [last.opt] else rest
  }

  /** The list given last for this object. */
  function Specific(os: seq<PhaseOption>, ref: Ref): seq<ObjectOption> {
    if os == [] then []
    else
      var last := os[|os| - 1];
      if last.ForOne? && last.ref == ref then last.opts else Specific(os[..|os| - 1], ref)
  }

  function GeneralPhases(os: seq<RevisionOption>): seq<PhaseOption> {
    if os == [] then []
    else
      var rest, last := GeneralPhases(os[..|os| - 1]), os[|os| - 1];
      if last.ForAllPhases? then rest + [last.opt] else rest
  }

  function SpecificPhases(os: seq<RevisionOption>, name: string): seq<PhaseOption> {
    if os == [] then []
    else
      var last := os[|os| - 1];
      if last.ForOnePhase? && last.name == name then last.opts else SpecificPhases(os[..|os| - 1], name)
  }

  /** Everything that concerns a phase: call and revision, then phase-specific, then the phase's own. */
  function PhaseLayer(call: seq<RevisionOption>, revision: seq<RevisionOption>, name: string,
                      own: seq<PhaseOption>): seq<PhaseOption> {
    GeneralPhases(call + revision) + SpecificPhases(call + revision, name) + own
  }

  /** One flat list per object: what is given for all, then what is given for this object. */
  function Flat(call: seq<RevisionOption>, revision: seq<RevisionOption>, name: string, own: seq<PhaseOption>,
                ref: Ref): seq<ObjectOption> {
    var os := PhaseLayer(call, revision, name, own);
    General(os) + Specific(os, ref)
  }

  /** Which setting an option writes. */
  datatype Slot = Protection | ClassifierSlot | Paused | ProbeOf(kind: string) | Owner

  function SlotOf(o: ObjectOption): Slot {
    match o
    case WithCollisionProtection(_) => Protection
    case WithSiblingOwnerClassifier(_) => ClassifierSlot
    case WithPaused => Paused
    case WithProbe(t, _) => ProbeOf(t)
    case WithOwner(_, _) => Owner
  }

  /** The last option of a list that writes the slot. */
  function LastWriter(os: seq<ObjectOption>, slot: Slot): (r: Option<ObjectOption>)
    ensures r.Some? ==> r.value in os && SlotOf(r.value) == slot
    ensures r.None? ==> forall o :: o in os ==> SlotOf(o) != slot
  {
    if os == [] then None
    else if SlotOf(os[|os| - 1]) == slot then Some(os[|os| - 1])
    else LastWriter(os[..|os| - 1], slot)
  }

  /** The settings say, slot by slot, what the last writer says, and nothing where nobody writes. */
  ghost predicate LastWriterWins(s: Settings, os: seq<ObjectOption>) {
    && s.protection == (match LastWriter(os, Protection) case Some(o) => o.protection case None => "")
    && s.classifier == (match LastWriter(os, ClassifierSlot) case Some(o) => Some(o.classifier) case None => None)
    && (s.paused <==> LastWriter(os, Paused).Some?)
    && (forall t :: t in s.probes <==> LastWriter(os, ProbeOf(t)).Some?)
    && (forall t :: t in s.probes ==> s.probes[t] == LastWriter(os, ProbeOf(t)).value.probe)
    && s.owner == (match LastWriter(os, Owner) case Some(o) => Some(o.owner) case None => None)
    && s.strategy == (match LastWriter(os, Owner) case Some(o) => o.strategy case None => None)
  }

  /** Settings are determined by what the last writers say. */
  lemma LastWritersDetermine(a: Settings, b: Settings, os: seq<ObjectOption>)
    requires LastWriterWins(a, os) && LastWriterWins(b, os)
    ensures a == b
  {
    assert a.probes.Keys == b.probes.Keys;
    assert forall t :: t in a.probes ==> a.probes[t] == b.probes[t];
    assert a.probes == b.probes;
  }

  lemma WriterSnoc(os: seq<ObjectOption>, o: ObjectOption, slot: Slot)
    ensures LastWriter(os + [o], slot) == if SlotOf(o) == slot then Some(o) else LastWriter(os, slot)
  {
    var more := os + [o];
    assert more[..|os|] == os && more[|more| - 1] == o;
  }

  lemma OneMoreProbe(s: Settings, os: seq<ObjectOption>, o: ObjectOption, t: string)
    requires LastWriterWins(s, os)
    ensures var s', w := ApplyToObject(s, o), LastWriter(os + [o], ProbeOf(t));
            (t in s'.probes <==> w.Some?) && (t in s'.probes ==> s'.probes[t] == w.value.probe)
  {
    WriterSnoc(os, o, ProbeOf(t));
    assert t in s.probes <==> LastWriter(os, ProbeOf(t)).Some?;
    assert SlotOf(o) == ProbeOf(t) <==> o.WithProbe? && o.kind == t;
  }

  lemma OneMoreWriter(s: Settings, os: seq<ObjectOption>, o: ObjectOption)
    requires LastWriterWins(s, os)
    ensures LastWriterWins(ApplyToObject(s, o), os + [o])
  {
    WriterSnoc(os, o, Protection);
    WriterSnoc(os, o, ClassifierSlot);
    WriterSnoc(os, o, Paused);
    WriterSnoc(os, o, Owner);
    var s' := ApplyToObject(s, o);
    forall t ensures var w := LastWriter(os + [o], ProbeOf(t));
                     (t in s'.probes <==> w.Some?) && (t in s'.probes ==> s'.probes[t] == w.value.probe)
    {
      OneMoreProbe(s, os, o, t);
    }
  }

  /**
   Defaults refuse exactly an owner without a strategy, fill in prevention exactly where nothing is set,
   and change nothing else.
   */
  lemma DefaultsExactly(s: Settings)
    ensures Defaulted(s).Err? <==> s.owner.Some? && s.strategy.None?
    ensures Defaulted(s).Ok? ==>
              && Defaulted(s).value.protection != ""
              && (s.protection == "" <==> Defaulted(s).value != s)
              && Defaulted(s).value == s.(protection := Defaulted(s).value.protection)
              && (s.protection == "" ==> Defaulted(s).value.protection == "Prevent")
  {
  }

  // ---------------------------------------------------------------- the layers as loops

  method ApplyObjectOptions(os: seq<ObjectOption>) returns (s: Settings)
    ensures LastWriterWins(s, os)
  {
    s := UNSET;
    for i := 0 to |os|
      invariant LastWriterWins(s, os[..i])
    {
      OneMoreWriter(s, os[..i], os[i]);
      s := ApplyToObject(s, os[i]);
      assert os[..i + 1] == os[..i] + [os[i]];
    }
    assert os[..|os|] == os;
  }

  /** What a phase's options hold after a list of them. */
  ghost predicate HoldsPhase(p: PhaseOptions, os: seq<PhaseOption>) {
    && p.defaults == General(os)
    && (forall ref :: (if ref in p.objects then p.objects[ref] else []) == Specific(os, ref))
    && (p.aggregate <==> AggregateErrors in os)
  }

  method ApplyPhaseOptions(os: seq<PhaseOption>) returns (p: PhaseOptions)
    ensures HoldsPhase(p, os)
  {
    p := PhaseOptions([], map[], false);
    for i := 0 to |os|
      invariant HoldsPhase(p, os[..i])
    {
      assert os[..i + 1][..i] == os[..i] && os[..i + 1][i] == os[i];
      assert AggregateErrors in os[..i + 1] <==> AggregateErrors in os[..i] || AggregateErrors == os[i];
      p := ApplyToPhase(p, os[i]);
    }
    assert os[..|os|] == os;
  }

  ghost predicate HoldsRevision(r: RevisionOptions, os: seq<RevisionOption>) {
    && r.defaults == GeneralPhases(os)
    && (forall name :: (if name in r.phases then r.phases[name] else []) == SpecificPhases(os, name))
  }

  method ApplyRevisionOptions(os: seq<RevisionOption>) returns (r: RevisionOptions)
    ensures HoldsRevision(r, os)
  {
    r := RevisionOptions([], map[]);
    for i := 0 to |os|
      invariant HoldsRevision(r, os[..i])
    {
      assert os[..i + 1][..i] == os[..i] && os[..i + 1][i] == os[i];
      r := ApplyToRevision(r, os[i]);
    }
    assert os[..|os|] == os;
  }

  /** The phase validator resolves the options it is given in a loop of its own. */
  method ValidatorOptions(opts: seq<PhaseOption>, ref: Ref) returns (forObject: seq<ObjectOption>)
    ensures forObject == General(opts) + Specific(opts, ref)
  {
    var p := ApplyPhaseOptions(opts);
    forObject := ForObject(p, ref);
  }

  /**
   The phase engine adds the phase's own options to those of the call before it hands them to the
   validator, which adds none. So both see the same options for every object, the phase's own included.
   */
  method PhaseEngineOptions(opts: seq<PhaseOption>, own: seq<PhaseOption>, ref: Ref)
    returns (engine: seq<ObjectOption>, validator: seq<ObjectOption>, aggregate: bool)
    ensures engine == validator == General(opts + own) + Specific(opts + own, ref)
    ensures aggregate <==> AggregateErrors in opts + own
  {
    var all := opts + own;
    var p := ApplyPhaseOptions(all);
    validator := ValidatorOptions(all, ref);
    engine, aggregate := ForObject(p, ref), p.aggregate;
  }

  /** Resolving layer by layer gives each object the last-writer-wins settings of its flat list, then the defaults. */
  method ResolveSettings(call: seq<RevisionOption>, revision: seq<RevisionOption>, name: string, own: seq<PhaseOption>,
                         ref: Ref)
    returns (s: Settings, r: Result<Settings, string>)
    ensures LastWriterWins(s, Flat(call, revision, name, own, ref))
    ensures r == Defaulted(s)
  {
    var ropts := ApplyRevisionOptions(call + revision);
    var forPhase := ForPhase(ropts, name);
    var engine, _, _ := PhaseEngineOptions(forPhase, own, ref);
    assert forPhase + own == PhaseLayer(call, revision, name, own);
    s := ApplyObjectOptions(engine);
    r := Defaulted(s);
  }

  // ---------------------------------------------------------------- lists replace lists

  lemma {:induction false} GeneralSkips(before: seq<RevisionOption>, o: RevisionOption, later: seq<RevisionOption>)
    requires o.ForOnePhase?
    ensures GeneralPhases(before + [o] + later) == GeneralPhases(before + later)
    decreases |later|
  {
    if later == [] {
      assert before + [o] + [] == before + [o] && before + [] == before && (before + [o])[..|before|] == before;
    } else {
      var n := |later| - 1;
      var long, short := before + [o] + later, before + later;
      assert long[..|long| - 1] == before + [o] + later[..n] && short[..|short| - 1] == before + later[..n];
      assert long[|long| - 1] == later[n] && short[|short| - 1] == later[n];
      GeneralSkips(before, o, later[..n]);
    }
  }

  lemma {:induction false} SpecificSkips(before: seq<RevisionOption>, o: RevisionOption, later: seq<RevisionOption>,
                                         name: string)
    requires o.ForOnePhase?
    requires o.name != name || exists i :: 0 <= i < |later| && later[i].ForOnePhase? && later[i].name == name
    ensures SpecificPhases(before + [o] + later, name) == SpecificPhases(before + later, name)
    decreases |later|
  {
    if later == [] {
      assert before + [o] + [] == before + [o] && before + [] == before && (before + [o])[..|before|] == before;
    } else {
      var n := |later| - 1;
      var long, short := before + [o] + later, before + later;
      assert long[..|long| - 1] == before + [o] + later[..n] && short[..|short| - 1] == before + later[..n];
      assert long[|long| - 1] == later[n] && short[|short| - 1] == later[n];
      if !(later[n].ForOnePhase? && later[n].name == name) {
        assert forall i :: 0 <= i < n ==> later[..n][i] == later[i];
        SpecificSkips(before, o, later[..n], name);
      }
    }
  }

  /**
   A list given for a phase has no effect on any object if a later list is given for the same phase: lists
   do not add up.
   */
  lemma LaterListReplaces(before: seq<RevisionOption>, o: RevisionOption, later: seq<RevisionOption>,
                          name: string, own: seq<PhaseOption>, ref: Ref)
    requires o.ForOnePhase?
    requires exists i :: 0 <= i < |later| && later[i].ForOnePhase? && later[i].name == o.name
    ensures Flat(before + [o] + later, [], name, own, ref) == Flat(before + later, [], name, own, ref)
  {
    GeneralSkips(before, o, later);
    SpecificSkips(before, o, later, name);
    assert before + [o] + later + [] == before + [o] + later && before + later + [] == before + later;
  }
}
