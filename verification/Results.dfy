/** Results of object, phase and revision reconciliation (machinery/results.go, phases.go, revision.go). */
module Results {
  import opened Basics
  import opened ObjectEngine

  datatype ProbeStatus = ProbeTrue | ProbeFalse | ProbeUnknown

  /** `progress` is the verdict of the progress probe, absent when no such probe is configured. */
  datatype ObjectResult = ObjectResult(action: Action, paused: bool, progress: Option<ProbeStatus>)
  {
    predicate IsComplete() {
      if action == Collision then false
      else if paused && action != Idle && action != Progressed then false
      else progress.None? || progress.value == ProbeTrue
    }
  }

  datatype PhaseResult = PhaseResult(name: string, invalid: bool, objects: seq<ObjectResult>)
  {
    predicate IsComplete() {
      !invalid && forall i :: 0 <= i < |objects| ==> objects[i].IsComplete()
    }

    predicate HasProgressed() {
      !invalid && forall i :: 0 <= i < |objects| ==> objects[i].action == Progressed
    }

    predicate InTransition() {
      && !invalid
      && !HasProgressed()
      && exists i :: 0 <= i < |objects| && objects[i].action in {Collision, Progressed}
    }
  }

  /** `phases` are the names of all phases; there is one result per phase acted on, in order. */
  datatype RevisionResult = RevisionResult(phases: seq<string>, results: seq<PhaseResult>, invalid: bool)
  {
    predicate IsComplete() {
      |results| >= |phases| && forall i :: 0 <= i < |results| ==> results[i].IsComplete()
    }

    /** As many phases have progressed as there are phases. */
    predicate HasProgressed() {
      ProgressedCount(results) == |phases|
    }

    predicate InTransition() {
      || (exists i :: 0 <= i < |results| && results[i].InTransition())
      || (!invalid && |results| < |phases|)
    }
  }

  function ProgressedCount(results: seq<PhaseResult>): (n: nat)
    ensures n <= |results|
    ensures n == |results| <==> forall i :: 0 <= i < |results| ==> results[i].HasProgressed()
  {
    if results == [] then 0
    else ProgressedCount(results[..|results| - 1]) + if results[|results| - 1].HasProgressed() then 1 else 0
  }

  /** With at most one result per phase, counting means that every phase was acted on and has progressed. */
  lemma HasProgressedExactly(r: RevisionResult)
    requires |r.results| <= |r.phases|
    ensures r.HasProgressed() <==>
            |r.results| == |r.phases| && forall i :: 0 <= i < |r.results| ==> r.results[i].HasProgressed()
  {
    assert ProgressedCount(r.results) <= |r.results|;
  }

  // ---------------------------------------------------------------- the predicates as loops

  method PhaseIsComplete(r: PhaseResult) returns (b: bool)
    ensures b <==> r.IsComplete()
  {
    if r.invalid {
      return false;
    }
    for i := 0 to |r.objects|
      invariant forall j :: 0 <= j < i ==> r.objects[j].IsComplete()
    {
      if !r.objects[i].IsComplete() {
        return false;
      }
    }
    b := true;
  }

  /** Counts the progressed objects and compares the count with the number of objects. */
  method PhaseHasProgressed(r: PhaseResult) returns (b: bool)
    ensures b <==> r.HasProgressed()
  {
    if r.invalid {
      return false;
    }
    var count := 0;
    for i := 0 to |r.objects|
      invariant 0 <= count <= i
      invariant count == i <==> forall j :: 0 <= j < i ==> r.objects[j].action == Progressed
    {
      if r.objects[i].action == Progressed {
        count := count + 1;
      }
    }
    b := count == |r.objects|;
  }

  method PhaseInTransition(r: PhaseResult) returns (b: bool)
    ensures b <==> r.InTransition()
  {
    if r.invalid {
      return false;
    }
    var progressed := PhaseHasProgressed(r);
    if progressed {
      return false;
    }
    for i := 0 to |r.objects|
      invariant forall j :: 0 <= j < i ==> r.objects[j].action !in {Collision, Progressed}
    {
      if r.objects[i].action in {Collision, Progressed} {
        return true;
      }
    }
    b := false;
  }

  method RevisionIsComplete(r: RevisionResult) returns (b: bool)
    ensures b <==> r.IsComplete()
  {
    if |r.results| < |r.phases| {
      return false;
    }
    for i := 0 to |r.results|
      invariant forall j :: 0 <= j < i ==> r.results[j].IsComplete()
    {
      var complete := PhaseIsComplete(r.results[i]);
      if !complete {
        return false;
      }
    }
    b := true;
  }

  /** The count over the phases acted on is compared with the number of all phases. */
  method RevisionHasProgressed(r: RevisionResult) returns (b: bool)
    ensures b <==> r.HasProgressed()
  {
    var count := 0;
    for i := 0 to |r.results|
      invariant count == ProgressedCount(r.results[..i])
    {
      assert r.results[..i + 1][..i] == r.results[..i];
      var progressed := PhaseHasProgressed(r.results[i]);
      if progressed {
        count := count + 1;
      }
    }
    assert r.results[..|r.results|] == r.results;
    b := count == |r.phases|;
  }

  method RevisionInTransition(r: RevisionResult) returns (b: bool)
    ensures b <==> r.InTransition()
  {
    for i := 0 to |r.results|
      invariant forall j :: 0 <= j < i ==> !r.results[j].InTransition()
    {
      var moving := PhaseInTransition(r.results[i]);
      if moving {
        return true;
      }
    }
    if r.invalid {
      return false;
    }
    b := |r.results| < |r.phases|;
  }
}
