/**
 Wiring of event handlers to informers (managedcache/cache_source.go): handlers and informers come in
 any order, and every handler is to hear from every informer once.

 Attaching may fail: `wired` says how many attachments of a call succeed before one fails.
 */
module Wiring {

  /** Handlers are numbered in the order they start. */
  type Handler = nat

  type Informer = nat

  /** `seen` are the informers handed in so far, `attached` the attachments made. */
  datatype Source = Source(handlers: nat, informers: seq<Informer>, attached: multiset<(Handler, Informer)>,
                           seen: set<Informer>)

  const NO_SOURCE: Source := Source(0, [], multiset{}, {})

  // ---------------------------------------------------------------- the calls

  function Pairs(h: Handler, informers: seq<Informer>): multiset<(Handler, Informer)> {
    if informers == [] then multiset{}
    else Pairs(h, informers[..|informers| - 1]) + multiset{(h, informers[|informers| - 1])}
  }

  function PairsTo(handlers: nat, i: Informer): multiset<(Handler, Informer)> {
    if handlers == 0 then multiset{} else PairsTo(handlers - 1, i) + multiset{(handlers - 1, i)}
  }

  function Running(informers: seq<Informer>, stopped: set<Informer>): seq<Informer> {
    if informers == [] then []
    else
      var rest, last := Running(informers[..|informers| - 1], stopped), informers[|informers| - 1];
      if last in stopped then rest else rest + [last]
  }

  function Min(a: nat, b: nat): nat {
    if a < b then a else b
  }

  /** A handler starts, and is attached to the informers there are. */
  function OnHandler(s: Source, wired: nat): Source {
    s.(handlers := s.handlers + 1,
       attached := s.attached + Pairs(s.handlers, s.informers[..Min(wired, |s.informers|)]))
  }

  /** An informer comes in: stopped ones are forgotten, and the handlers there are get attached. */
  function OnInformer(s: Source, i: Informer, stopped: set<Informer>, wired: nat): Source {
    s.(informers := Running(s.informers, stopped) + [i],
       attached := s.attached + PairsTo(Min(wired, s.handlers), i),
       seen := s.seen + {i})
  }

  datatype Call = HandlerStarts(wired: nat) | InformerComes(i: Informer, stopped: set<Informer>, wired: nat)

  function After(s: Source, c: Call): Source {
    match c
    case HandlerStarts(wired) => OnHandler(s, wired)
    case InformerComes(i, stopped, wired) => OnInformer(s, i, stopped, wired)
  }

  function Run(s: Source, calls: seq<Call>): Source
    decreases |calls|
  {
    if calls == [] then s else Run(After(s, calls[0]), calls[1..])
  }

  predicate Succeeds(s: Source, c: Call) {
    match c
    case HandlerStarts(wired) => wired >= |s.informers|
    case InformerComes(_, _, wired) => wired >= s.handlers
  }

  predicate Fresh(s: Source, c: Call) {
    c.InformerComes? ==> c.i !in s.seen
  }

  /** No call fails, and no informer is handed in twice. */
  predicate Clean(s: Source, calls: seq<Call>)
    decreases |calls|
  {
    calls == [] || (Succeeds(s, calls[0]) && Fresh(s, calls[0]) && Clean(After(s, calls[0]), calls[1..]))
  }

  // ---------------------------------------------------------------- every handler hears every informer once

  ghost predicate Wired(s: Source) {
    && (forall a, b :: 0 <= a < b < |s.informers| ==> s.informers[a] != s.informers[b])
    && (forall i :: i in s.informers ==> i in s.seen)
    && (forall h: Handler, i: Informer :: h < s.handlers && i in s.informers ==> s.attached[(h, i)] == 1)
    && (forall h: Handler, i: Informer :: s.attached[(h, i)] > 0 ==> h < s.handlers && i in s.seen)
  }

  lemma {:induction false} PairsCount(h: Handler, informers: seq<Informer>, g: Handler, i: Informer)
    requires forall a, b :: 0 <= a < b < |informers| ==> informers[a] != informers[b]
    ensures Pairs(h, informers)[(g, i)] == if g == h && i in informers then 1 else 0
  {
    if informers != [] {
      var n := |informers| - 1;
      PairsCount(h, informers[..n], g, i);
      assert informers == informers[..n] + [informers[n]];
      assert informers[n] !in informers[..n];
    }
  }

  lemma {:induction false} PairsToCount(handlers: nat, i: Informer, g: Handler, j: Informer)
    ensures PairsTo(handlers, i)[(g, j)] == if g < handlers && j == i then 1 else 0
  {
    if handlers > 0 {
      PairsToCount(handlers - 1, i, g, j);
    }
  }

  lemma {:induction false} RunningExactly(informers: seq<Informer>, stopped: set<Informer>)
    requires forall a, b :: 0 <= a < b < |informers| ==> informers[a] != informers[b]
    ensures var r := Running(informers, stopped);
            && (forall a, b :: 0 <= a < b < |r| ==> r[a] != r[b])
            && (forall i :: i in r <==> i in informers && i !in stopped)
  {
    if informers != [] {
      var n := |informers| - 1;
      RunningExactly(informers[..n], stopped);
      assert informers == informers[..n] + [informers[n]];
      assert informers[n] !in informers[..n];
    }
  }

  lemma HandlerKeepsWired(s: Source, wired: nat)
    requires Wired(s) && wired >= |s.informers|
    ensures Wired(OnHandler(s, wired))
  {
    var s' := OnHandler(s, wired);
    assert s.informers[..|s.informers|] == s.informers;
    forall h: Handler, i: Informer
      ensures s'.attached[(h, i)] == s.attached[(h, i)] + if h == s.handlers && i in s.informers then 1 else 0
    {
      PairsCount(s.handlers, s.informers, h, i);
    }
  }

  lemma InformerKeepsWired(s: Source, i: Informer, stopped: set<Informer>, wired: nat)
    requires Wired(s) && wired >= s.handlers && i !in s.seen
    ensures Wired(OnInformer(s, i, stopped, wired))
  {
    var s' := OnInformer(s, i, stopped, wired);
    RunningExactly(s.informers, stopped);
    forall h: Handler, j: Informer
      ensures s'.attached[(h, j)] == s.attached[(h, j)] + if h < s.handlers && j == i then 1 else 0
    {
      PairsToCount(s.handlers, i, h, j);
    }
    assert s.attached[(0, i)] == 0;
    assert forall h: Handler :: s.attached[(h, i)] == 0;
  }

  /** Informers that came in and have not been found stopped when a later one came in. */
  function Retained(calls: seq<Call>): set<Informer> {
    if calls == [] then {}
    else
      var before, last := Retained(calls[..|calls| - 1]), calls[|calls| - 1];
      if last.InformerComes? then (before - last.stopped) + {last.i} else before
  }

  lemma {:induction false} RunSnoc(s: Source, calls: seq<Call>, c: Call)
    ensures Run(s, calls + [c]) == After(Run(s, calls), c)
    ensures Clean(s, calls + [c]) <==> Clean(s, calls) && Succeeds(Run(s, calls), c) && Fresh(Run(s, calls), c)
    decreases |calls|
  {
    var more := calls + [c];
    if calls == [] {
      assert more[1..] == [];
    } else {
      assert more[1..] == calls[1..] + [c];
      RunSnoc(After(s, calls[0]), calls[1..], c);
    }
  }

  /**
   However handlers and informers come in, every handler started so far is attached exactly once to
   every informer retained, and the informers retained are those not found stopped.
   */
  lemma {:induction false} EveryHandlerHearsEveryInformer(calls: seq<Call>)
    requires Clean(NO_SOURCE, calls)
    ensures var s := Run(NO_SOURCE, calls);
            Wired(s) && (set i | i in s.informers) == Retained(calls)
    decreases |calls|
  {
    if calls != [] {
      var n := |calls| - 1;
      var c := calls[n];
      assert calls == calls[..n] + [c];
      RunSnoc(NO_SOURCE, calls[..n], c);
      EveryHandlerHearsEveryInformer(calls[..n]);
      var s := Run(NO_SOURCE, calls[..n]);
      match c {
        case HandlerStarts(wired) => HandlerKeepsWired(s, wired);
        case InformerComes(i, stopped, wired) =>
          InformerKeepsWired(s, i, stopped, wired);
          RunningExactly(s.informers, stopped);
      }
    }
  }

  // ---------------------------------------------------------------- the calls in place

  class CacheSource {
    var handlers: nat
    var informers: seq<Informer>

    // What has been attached, and which informers have been handed in.
    var attached: multiset<(Handler, Informer)>
    ghost var seen: set<Informer>

    ghost function View(): Source
      reads this
    {
      Source(handlers, informers, attached, seen)
    }

    constructor ()
      ensures View() == NO_SOURCE
    {
      handlers, informers, attached, seen := 0, [], multiset{}, {};
    }

    method HandleNewEventHandlerStart(wired: nat) returns (ok: bool)
      modifies this`handlers, this`attached
      ensures View() == OnHandler(old(View()), wired)
      ensures ok <==> Succeeds(old(View()), HandlerStarts(wired))
    {
      var h := handlers;
      handlers := handlers + 1;
      ok := ConnectInformers(h, wired);
    }

    /** Connects the handler with the informers, in order, up to the first failure. */
    method ConnectInformers(h: Handler, wired: nat) returns (ok: bool)
      modifies this`attached
      ensures attached == old(attached) + Pairs(h, informers[..Min(wired, |informers|)])
      ensures ok <==> wired >= |informers|
    {
      for k := 0 to |informers|
        invariant k <= wired
        invariant attached == old(attached) + Pairs(h, informers[..k])
      {
        if k == wired {
          return false;
        }
        PairsSnoc(h, informers, k);
        attached := attached + multiset{(h, informers[k])};
      }
      ok := true;
    }

    method HandleNewInformer(newInformer: Informer, stopped: set<Informer>, wired: nat) returns (ok: bool)
      modifies this`informers, this`seen, this`attached
      ensures View() == OnInformer(old(View()), newInformer, stopped, wired)
      ensures ok <==> Succeeds(old(View()), InformerComes(newInformer, stopped, wired))
    {
      var newInformers := [];
      for k := 0 to |informers|
        invariant newInformers == Running(informers[..k], stopped)
      {
        assert informers[..k + 1][..k] == informers[..k];
        if informers[k] in stopped {
          continue;
        }
        newInformers := newInformers + [informers[k]];
      }
      assert informers[..|informers|] == informers;
      informers := newInformers + [newInformer];
      seen := seen + {newInformer};
      ok := ConnectHandlers(newInformer, wired);
    }

    /** Connects the informer with the handlers, in order, up to the first failure. */
    method ConnectHandlers(i: Informer, wired: nat) returns (ok: bool)
      modifies this`attached
      ensures attached == old(attached) + PairsTo(Min(wired, handlers), i)
      ensures ok <==> wired >= handlers
    {
      for h := 0 to handlers
        invariant h <= wired
        invariant attached == old(attached) + PairsTo(h, i)
      {
        if h == wired {
          return false;
        }
        attached := attached + multiset{(h, i)};
      }
      ok := true;
    }
  }

  lemma PairsSnoc(h: Handler, informers: seq<Informer>, k: nat)
    requires k < |informers|
    ensures Pairs(h, informers[..k + 1]) == Pairs(h, informers[..k]) + multiset{(h, informers[k])}
  {
    assert informers[..k + 1][..k] == informers[..k];
  }
}
