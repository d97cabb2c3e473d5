/** Conjunction of probes (probing/probe.go). */
module Probes {

  /** Probers are free to report any status text; And only knows the first three. */
  datatype Status = StatusTrue | StatusFalse | StatusUnknown | StatusOther(text: string)

  datatype Verdict = Verdict(status: Status, messages: seq<string>)

  /** A prober: something that reports on an object, or a conjunction of probers, to any depth. */
  datatype Prober = Single(verdict: Verdict) | And(probers: seq<Prober>)

  // ---------------------------------------------------------------- what the conjunction means

  predicate Any(vs: seq<Verdict>, status: Status) {
    exists i :: 0 <= i < |vs| && vs[i].status == status
  }

  /** The messages of all verdicts of one status, in order. */
  function MessagesOf(vs: seq<Verdict>, status: Status): seq<string> {
    if vs == [] then []
    else
      var rest, last := MessagesOf(vs[..|vs| - 1], status), vs[|vs| - 1];
      if last.status == status then rest + last.messages else rest
  }

  function StatusOf(vs: seq<Verdict>): Status {
    if Any(vs, StatusUnknown) then StatusUnknown else if Any(vs, StatusFalse) then StatusFalse else StatusTrue
  }

  /** The status documented for And, with the messages of the verdicts that have that status. */
  function Conjunction(vs: seq<Verdict>): Verdict {
    Verdict(StatusOf(vs), MessagesOf(vs, StatusOf(vs)))
  }

  /** What each prober of a conjunction reports, nested conjunctions evaluated first. */
  function Evaluated(p: Prober): Verdict
    decreases p, 0
  {
    match p
    case Single(v) => v
    case And(ps) => Conjunction(AllEvaluated(ps))
  }

  function AllEvaluated(ps: seq<Prober>): (vs: seq<Verdict>)
    ensures |vs| == |ps|
    decreases ps, |ps|
  {
    if ps == [] then [] else AllEvaluated(ps[..|ps| - 1]) + [Evaluated(ps[|ps| - 1])]
  }

  /** The single verdicts below a prober, from left to right. */
  function Leaves(p: Prober): seq<Verdict>
    decreases p, 0
  {
    match p
    case Single(v) => [v]
    case And(ps) => AllLeaves(ps)
  }

  function AllLeaves(ps: seq<Prober>): seq<Verdict>
    decreases ps, |ps|
  {
    if ps == [] then [] else AllLeaves(ps[..|ps| - 1]) + Leaves(ps[|ps| - 1])
  }

  // ---------------------------------------------------------------- the loop

  /** And.Probe: flags and message lists are accumulated over the probers. */
  method ProbeAll(vs: seq<Verdict>) returns (r: Verdict)
    ensures r == Conjunction(vs)
  {
    var unknownMsgs: seq<string>, trueMsgs: seq<string>, falseMsgs: seq<string> := [], [], [];
    var statusUnknown, statusFalse := false, false;
    for i := 0 to |vs|
      invariant unknownMsgs == MessagesOf(vs[..i], StatusUnknown)
      invariant falseMsgs == MessagesOf(vs[..i], StatusFalse)
      invariant trueMsgs == MessagesOf(vs[..i], StatusTrue)
      invariant statusUnknown == Any(vs[..i], StatusUnknown) && statusFalse == Any(vs[..i], StatusFalse)
    {
      assert vs[..i + 1] == vs[..i] + [vs[i]];
      AnyAppend(vs[..i], [vs[i]], StatusUnknown);
      AnyAppend(vs[..i], [vs[i]], StatusFalse);
      assert vs[..i + 1][..i] == vs[..i];
      assert forall status :: Any([vs[i]], status) <==> vs[i].status == status by {
        assert [vs[i]][0] == vs[i];
      }
      match vs[i].status {
        case StatusTrue =>
          trueMsgs := trueMsgs + vs[i].messages;
        case StatusFalse =>
          statusFalse := true;
          falseMsgs := falseMsgs + vs[i].messages;
        case StatusUnknown =>
          statusUnknown := true;
          unknownMsgs := unknownMsgs + vs[i].messages;
        case StatusOther(_) =>
      }
    }
    assert vs[..|vs|] == vs;
    if statusUnknown {
      return Verdict(StatusUnknown, unknownMsgs);
    }
    if statusFalse {
      return Verdict(StatusFalse, falseMsgs);
    }
    r := Verdict(StatusTrue, trueMsgs);
  }

  // ---------------------------------------------------------------- flattening

  lemma AnyAppend(a: seq<Verdict>, b: seq<Verdict>, status: Status)
    ensures Any(a + b, status) <==> Any(a, status) || Any(b, status)
  {
    var ab := a + b;
    assert forall i :: 0 <= i < |a| ==> ab[i] == a[i];
    assert forall i :: 0 <= i < |b| ==> ab[|a| + i] == b[i];
  }

  lemma {:induction false} MessagesAppend(a: seq<Verdict>, b: seq<Verdict>, status: Status)
    ensures MessagesOf(a + b, status) == MessagesOf(a, status) + MessagesOf(b, status)
    decreases |b|
  {
    if b == [] {
      assert a + b == a;
    } else {
      var n := |b| - 1;
      var ab := a + b;
      assert ab[..|ab| - 1] == a + b[..n] && ab[|ab| - 1] == b[n];
      MessagesAppend(a, b[..n], status);
    }
  }

  lemma {:induction false} NoMessages(vs: seq<Verdict>, status: Status)
    requires !Any(vs, status)
    ensures MessagesOf(vs, status) == []
  {
    if vs != [] {
      var n := |vs| - 1;
      assert forall i :: 0 <= i < n ==> vs[..n][i] == vs[i];
      assert vs[n].status != status;
      NoMessages(vs[..n], status);
    }
  }

  /** Two verdicts of conjunctions, taken together. */
  function Both(a: Verdict, b: Verdict): Verdict {
    if a.status == b.status then Verdict(a.status, a.messages + b.messages)
    else if a.status == StatusUnknown || (a.status == StatusFalse && b.status == StatusTrue) then a
    else b
  }

  lemma ConjunctionAppend(a: seq<Verdict>, b: seq<Verdict>)
    ensures Conjunction(a + b) == Both(Conjunction(a), Conjunction(b))
  {
    AnyAppend(a, b, StatusUnknown);
    AnyAppend(a, b, StatusFalse);
    MessagesAppend(a, b, StatusOf(a + b));
    if StatusOf(a) != StatusOf(b) {
      if StatusOf(a + b) == StatusOf(a) {
        NoMessages(b, StatusOf(a));
      } else {
        NoMessages(a, StatusOf(b));
      }
    }
  }

  /** A conjunction of a conjunction alone is that conjunction. */
  lemma ConjunctionOfOne(vs: seq<Verdict>)
    ensures Conjunction([Conjunction(vs)]) == Conjunction(vs)
  {
    var v := Conjunction(vs);
    assert [v][0] == v && [v][..0] == [];
    assert forall status :: Any([v], status) <==> v.status == status;
    assert MessagesOf([v], v.status) == MessagesOf([], v.status) + v.messages;
  }

  /** And of Ands is the And of all leaves, in status and in messages, however deep the nesting. */
  lemma {:induction false} FlatteningKeepsVerdict(p: Prober)
    ensures Conjunction([Evaluated(p)]) == Conjunction(Leaves(p))
    ensures p.And? ==> Evaluated(p) == Conjunction(Leaves(p))
    decreases p, 0
  {
    if p.And? {
      AllFlattened(p.probers);
      ConjunctionOfOne(AllEvaluated(p.probers));
    }
  }

  lemma {:induction false} AllFlattened(ps: seq<Prober>)
    ensures Conjunction(AllEvaluated(ps)) == Conjunction(AllLeaves(ps))
    decreases ps, |ps|
  {
    if ps != [] {
      var n := |ps| - 1;
      AllFlattened(ps[..n]);
      FlatteningKeepsVerdict(ps[n]);
      ConjunctionAppend(AllEvaluated(ps[..n]), [Evaluated(ps[n])]);
      ConjunctionAppend(AllLeaves(ps[..n]), Leaves(ps[n]));
    }
  }
}
