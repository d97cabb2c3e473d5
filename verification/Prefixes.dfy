/** Statements about the moments of a run, given as the prefixes of its steps. */
module Prefixes {

  /** Some step happens at a moment where it has the property. */
  ghost predicate SomeStep<T(!new)>(q: (seq<T>, T) -> bool, steps: seq<T>) {
    exists i :: 0 <= i < |steps| && q(steps[..i], steps[i])
  }

  /** Some moment, the first and the last included, has the property. */
  ghost predicate SomeMoment<T(!new)>(k: seq<T> -> bool, steps: seq<T>) {
    exists i :: 0 <= i <= |steps| && k(steps[..i])
  }

  /** Every moment after step i has the property. */
  ghost predicate Since<T(!new)>(k: seq<T> -> bool, steps: seq<T>, i: nat) {
    forall j :: i < j <= |steps| ==> k(steps[..j])
  }

  /** Some step has the one property, and every moment after it the other. */
  ghost predicate SomeStepSince<T(!new)>(q: (seq<T>, T) -> bool, k: seq<T> -> bool, steps: seq<T>) {
    exists i :: 0 <= i < |steps| && q(steps[..i], steps[i]) && Since(k, steps, i)
  }

  lemma PrefixOfInit<T>(steps: seq<T>, i: nat)
    requires i < |steps|
    ensures steps[..|steps| - 1][..i] == steps[..i]
  {
  }

  lemma SomeStepSnoc<T(!new)>(q: (seq<T>, T) -> bool, steps: seq<T>)
    requires steps != []
    ensures var n := |steps| - 1; SomeStep(q, steps) <==> SomeStep(q, steps[..n]) || q(steps[..n], steps[n])
  {
    var n := |steps| - 1;
    var init := steps[..n];
    if i :| 0 <= i < n && q(init[..i], init[i]) {
      PrefixOfInit(steps, i);
      assert q(steps[..i], steps[i]);
    }
    if i :| 0 <= i < n && q(steps[..i], steps[i]) {
      PrefixOfInit(steps, i);
      assert q(init[..i], init[i]);
    }
  }

  lemma SomeMomentSnoc<T(!new)>(k: seq<T> -> bool, steps: seq<T>)
    requires steps != []
    ensures var n := |steps| - 1; SomeMoment(k, steps) <==> SomeMoment(k, steps[..n]) || k(steps)
  {
    var n := |steps| - 1;
    var init := steps[..n];
    assert steps[..n + 1] == steps;
    if i :| 0 <= i <= n && k(init[..i]) {
      PrefixOfInit(steps, i);
      assert k(steps[..i]);
    }
    if i :| 0 <= i <= n && k(steps[..i]) {
      PrefixOfInit(steps, i);
      assert k(init[..i]);
    }
  }

  lemma SinceSnoc<T(!new)>(k: seq<T> -> bool, steps: seq<T>, i: nat)
    requires i < |steps|
    ensures Since(k, steps, i) <==> Since(k, steps[..|steps| - 1], i) && k(steps)
  {
    var n := |steps| - 1;
    var init := steps[..n];
    assert steps[..n + 1] == steps;
    forall j | i < j <= n ensures k(init[..j]) == k(steps[..j]) {
      PrefixOfInit(steps, j);
    }
    if Since(k, init, i) && k(steps) {
      forall j | i < j <= |steps| ensures k(steps[..j]) {
        assert j <= n ==> k(init[..j]);
      }
    }
  }

  lemma SomeStepSinceSnoc<T(!new)>(q: (seq<T>, T) -> bool, k: seq<T> -> bool, steps: seq<T>)
    requires steps != []
    ensures var n := |steps| - 1;
            SomeStepSince(q, k, steps) <==> k(steps) && (SomeStepSince(q, k, steps[..n]) || q(steps[..n], steps[n]))
  {
    var n := |steps| - 1;
    var init := steps[..n];
    if i :| 0 <= i < n && q(init[..i], init[i]) && Since(k, init, i) {
      PrefixOfInit(steps, i);
      SinceSnoc(k, steps, i);
      assert q(steps[..i], steps[i]);
    }
    if i :| 0 <= i < |steps| && q(steps[..i], steps[i]) && Since(k, steps, i) {
      SinceSnoc(k, steps, i);
      if i < n {
        PrefixOfInit(steps, i);
        assert q(init[..i], init[i]);
      }
    }
    if q(init, steps[n]) {
      SinceSnoc(k, steps, n);
      assert Since(k, init, n);
    }
  }
}
