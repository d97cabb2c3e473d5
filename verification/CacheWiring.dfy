/**
 Whether a known kind has its event handlers (managedcache/trackingcache.go:282-292). A kind counts as
 known before its handlers are wired, and handlers are wired for unknown kinds only.
 */
module CacheWiring {
  import opened Basics
  import opened TrackingCache
  import opened CacheProtocol
  import opened CacheWaits
  import opened Prefixes

  /** The kind is known, so nobody will wire its handlers, and they are not wired. */
  predicate Unwired(s: Sys, g: Gvk) {
    g in s.loop.known && g !in s.loop.wired
  }

  /** The step answers a request for the kind with the error of wiring its handlers. */
  predicate AnswersWiringError(s: Sys, t: Step, g: Gvk) {
    && t.LoopTakesRequest? && Enabled(s, t) && s.callers[t.c].gvk == g
    && exists i :: 0 <= i < |SentTo(Next(s, t).loop, t.c)| && SentTo(Next(s, t).loop, t.c)[i].cause == WiringFailed
  }

  /** The step is the informer cache giving up the informer of the kind, on the first of the two questions. */
  predicate LosesInformer(s: Sys, t: Step, g: Gvk) {
    t.LoopLosesInformer? && Enabled(s, t) && s.control.order[0] == g
  }

  /** The step leaves the kind without handlers, if it leaves it known. */
  predicate Unwires(s: Sys, t: Step, g: Gvk) {
    AnswersWiringError(s, t, g) || LosesInformer(s, t, g)
  }

  /** Only the request that makes a kind known gets that answer, and then it is the only one it gets. */
  lemma AnswersWiringErrorExactly(s: Sys, t: Step, g: Gvk)
    requires Inv(s)
    ensures AnswersWiringError(s, t, g) <==>
            && t.LoopTakesRequest? && Enabled(s, t) && s.callers[t.c].gvk == g
            && g !in s.loop.known && t.informer.Obtained? && t.informer.wiring.Some?
    ensures AnswersWiringError(s, t, g) ==> SentTo(Next(s, t).loop, t.c) == [Reply(t.informer.wiring, WiringFailed)]
  {
    if t.LoopTakesRequest? && Enabled(s, t) && s.callers[t.c].gvk == g {
      assert ChannelOk(s, t.c) && SentTo(s.loop, t.c) == [];
      RequestWires(s.loop, t.c, g, t.informer);
      if g !in s.loop.known && t.informer.Obtained? && t.informer.wiring.Some? {
        assert SentTo(Next(s, t).loop, t.c)[0].cause == WiringFailed;
      }
    }
  }

  /** What a request does to the kind, and what it is sent. */
  lemma RequestWires(l: Loop, c: Chan, g: Gvk, informer: Informer)
    requires SentTo(l, c) == [] && (g in l.waiting ==> g in l.known)
    ensures var l' := OnRequest(l, c, g, informer);
            if g !in l.known && informer.Obtained? then
              && l'.known == l.known + {g} && l'.wired == (if informer.wiring.None? then l.wired + {g} else l.wired)
              && (informer.wiring.Some? <==> SentTo(l', c) == [Reply(informer.wiring, WiringFailed)])
              && (informer.wiring.None? ==> forall i :: 0 <= i < |SentTo(l', c)| ==>
                    SentTo(l', c)[i].cause != WiringFailed)
            else
              && l'.known == l.known && l'.wired == l.wired
              && forall i :: 0 <= i < |SentTo(l', c)| ==> SentTo(l', c)[i].cause != WiringFailed
  {
    var l' := OnRequest(l, c, g, informer);
    assert g in l.known ==> l.known + {g} == l.known;
    if g in l.waiting {
      assert SentTo(l', c) == [];
    } else if informer.Unavailable? {
      assert SentTo(l', c) == [Reply(Some(informer.err), SetupFailed)];
    } else if g !in l.known && informer.wiring.Some? {
      assert SentTo(l', c) == [Reply(informer.wiring, WiringFailed)];
    } else if informer.synced {
      assert SentTo(l', c) == [Reply(None, AlreadySynced)];
    } else {
      assert SentTo(l', c) == [];
    }
  }

  /** Kinds that are not known have no handlers. */
  lemma StepKeepsWired(s: Sys, t: Step)
    requires Inv(s) && s.loop.wired <= s.loop.known
    ensures Next(s, t).loop.wired <= Next(s, t).loop.known
  {
    if Enabled(s, t) {
      match t {
        case LoopTakesRequest(c, informer) =>
          assert ChannelOk(s, c);
          RequestWires(s.loop, c, s.callers[c].gvk, informer);
        case LoopTakesReport(w) =>
          SendAllFrame(s.loop, WaitersFor(s.loop, s.loop.started[w]), Reply(s.waiters[w].err, SyncResponse));
        case LoopStops(removed) =>
          if s.control.order != [] {
            StoppingEffect(s.loop, s.control.order[0], removed, s.control.reply);
          }
        case _ =>
      }
    }
  }

  /** A step leaves a known kind unwired exactly when it unwires it, or found it so. */
  lemma StepUnwiredExactly(s: Sys, t: Step, g: Gvk)
    requires Inv(s) && s.loop.wired <= s.loop.known
    ensures Unwired(Next(s, t), g) <==> g in Next(s, t).loop.known && (Unwires(s, t, g) || Unwired(s, g))
  {
    AnswersWiringErrorExactly(s, t, g);
    if Enabled(s, t) {
      match t {
        case LoopTakesRequest(c, informer) =>
          assert ChannelOk(s, c);
          RequestWires(s.loop, c, s.callers[c].gvk, informer);
        case LoopLosesInformer =>
        case _ => OtherStepsDoNotWire(s, t, g);
      }
    }
  }

  lemma OtherStepsDoNotWire(s: Sys, t: Step, g: Gvk)
    requires Enabled(s, t) && !t.LoopTakesRequest? && !t.LoopLosesInformer?
    ensures var l := Next(s, t).loop; g in l.known ==> g in s.loop.known && (g in l.wired <==> g in s.loop.wired)
  {
    match t {
      case LoopTakesReport(w) =>
        SendAllFrame(s.loop, WaitersFor(s.loop, s.loop.started[w]), Reply(s.waiters[w].err, SyncResponse));
      case LoopStops(removed) =>
        if s.control.order != [] {
          StoppingEffect(s.loop, s.control.order[0], removed, s.control.reply);
        }
      case _ =>
    }
  }

  // ---------------------------------------------------------------- whole runs

  /** Some step unwired the kind, which has been known at every moment since. */
  ghost predicate UnwiredSince(steps: seq<Step>, g: Gvk) {
    SomeStepSince((before, t) => Unwires(Run(IDLE, before), t, g), before => g in Run(IDLE, before).loop.known, steps)
  }

  lemma UnwiredSinceSnoc(steps: seq<Step>, g: Gvk)
    requires steps != [] && g in Run(IDLE, steps).loop.known
    ensures var n := |steps| - 1;
            UnwiredSince(steps, g) <==> UnwiredSince(steps[..n], g) || Unwires(Run(IDLE, steps[..n]), steps[n], g)
  {
    SomeStepSinceSnoc((before, t) => Unwires(Run(IDLE, before), t, g),
                      before => g in Run(IDLE, before).loop.known, steps);
  }

  /**
   Over every run: a known kind is without handlers if and only if a request for it was answered with a
   wiring error, or a removal lost its informer without stopping it, and it has not been stopped since.
   */
  lemma {:induction false} UnwiredExactly(steps: seq<Step>, g: Gvk)
    requires g in Run(IDLE, steps).loop.known
    ensures Unwired(Run(IDLE, steps), g) <==> UnwiredSince(steps, g)
    decreases |steps|
  {
    var n := |steps| - 1;
    var init, t := steps[..n], steps[n];
    RunSnoc(IDLE, steps);
    RunKeepsWaits(init);
    WiredAreKnown(init);
    StepUnwiredExactly(Run(IDLE, init), t, g);
    UnwiredSinceSnoc(steps, g);
    if g in Run(IDLE, init).loop.known {
      UnwiredExactly(init, g);
    } else {
      NotKnownNow(init, g);
    }
  }

  lemma NotKnownNow(steps: seq<Step>, g: Gvk)
    requires g !in Run(IDLE, steps).loop.known
    ensures !UnwiredSince(steps, g)
  {
    assert steps[..|steps|] == steps;
  }

  lemma {:induction false} WiredAreKnown(steps: seq<Step>)
    ensures Run(IDLE, steps).loop.wired <= Run(IDLE, steps).loop.known
    decreases |steps|
  {
    if steps != [] {
      var n := |steps| - 1;
      WiredAreKnown(steps[..n]);
      RunSnoc(IDLE, steps);
      RunKeepsWaits(steps[..n]);
      StepKeepsWired(Run(IDLE, steps[..n]), steps[n]);
    }
  }
}
