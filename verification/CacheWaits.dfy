/**
 What the answer to a sync call is worth (managedcache/trackingcache.go:167-173). The report of a
 waiting goroutine answers whoever is queued for its kind, without asking whether they joined its
 wait; a report that comes late answers the callers of a newer wait, and orphans that wait.
 */
module CacheWaits {
  import opened Basics
  import opened TrackingCache
  import opened CacheProtocol
  import opened Prefixes

  // ---------------------------------------------------------------- who waits for what

  /** Queues are not empty, and everybody in them joined the wait in flight for their kind. */
  predicate QueueJoined(s: Sys, g: Gvk)
    requires g in s.loop.waiting
  {
    && s.loop.waiting[g] != [] && g in s.loop.inFlight
    && forall c :: c in s.loop.waiting[g] ==> c in s.history.joined && s.history.joined[c] == s.loop.inFlight[g]
  }

  /** The caller was sent what the goroutine that answered it had seen. */
  predicate AnswerOk(s: Sys, c: Chan)
    requires c in s.history.answeredBy
  {
    var w := s.history.answeredBy[c];
    && c in s.callers && c in s.history.joined
    && w in s.waiters && s.waiters[w].Finished?
    && SentTo(s.loop, c) == [Reply(s.waiters[w].err, SyncResponse)]
  }

  predicate SentBySync(s: Sys, c: Chan) {
    exists i :: 0 <= i < |SentTo(s.loop, c)| && SentTo(s.loop, c)[i].cause == SyncResponse
  }

  predicate WaitsOk(s: Sys) {
    && (forall g :: g in s.loop.waiting ==> QueueJoined(s, g))
    && (forall c :: c in s.history.answeredBy ==> AnswerOk(s, c))
    && (forall c :: c in s.callers && SentBySync(s, c) ==> c in s.history.answeredBy)
    && (forall c :: c in s.history.joined ==> c in s.callers && !s.callers[c].phase.Sending?)
    && (s.control.Stops? ==> s.control.reply.cause in {Removal, WatchError})
  }

  /** The loop takes the report of a wait although another one is in flight for the kind. */
  predicate Stale(s: Sys, t: Step) {
    && t.LoopTakesReport? && Enabled(s, t)
    && s.loop.started[t.w] in s.loop.inFlight && s.loop.inFlight[s.loop.started[t.w]] != t.w
  }

  /** The caller was answered by a wait it had not joined. */
  predicate Misled(s: Sys, c: Chan) {
    c in s.history.answeredBy && c in s.history.joined && s.history.answeredBy[c] != s.history.joined[c]
  }

  predicate AnyMisled(s: Sys) {
    exists c :: c in s.history.answeredBy && Misled(s, c)
  }

  /** A report answers callers of its own wait, all of them or none, exactly when its wait is the one in flight. */
  lemma ReportAnswersOwnExactly(s: Sys, w: Stop)
    requires WaitsOk(s) && Enabled(s, LoopTakesReport(w)) && s.loop.started[w] in s.loop.waiting
    ensures var g := s.loop.started[w];
            && ((forall c :: c in s.loop.waiting[g] ==> s.history.joined[c] == w) <==> s.loop.inFlight[g] == w)
            && ((exists c :: c in s.loop.waiting[g] && s.history.joined[c] == w) <==> s.loop.inFlight[g] == w)
  {
    var queue := s.loop.waiting[s.loop.started[w]];
    assert QueueJoined(s, s.loop.started[w]) && queue[0] in queue;
  }

  // ---------------------------------------------------------------- the steps

  lemma ReportEffect(s: Sys, w: Stop)
    requires Inv(s) && Enabled(s, LoopTakesReport(w))
    ensures var s', g := Take(s, LoopTakesReport(w)), s.loop.started[w];
            && s'.loop.waiting == s.loop.waiting - {g} && s'.loop.inFlight == s.loop.inFlight - {g}
            && forall c :: ReportAnswers(s, s', w, WaitersFor(s.loop, g), c)
  {
    var s', g := Take(s, LoopTakesReport(w)), s.loop.started[w];
    var queue := WaitersFor(s.loop, g);
    SendAllFrame(s.loop, queue, Reply(s.waiters[w].err, SyncResponse));
    assert g in s.loop.waiting ==> QueueOk(s, g);
    forall c ensures ReportAnswers(s, s', w, queue, c) {
      if c in s.callers {
        assert ChannelOk(s, c);
      }
      SendAllEffect(s.loop, queue, Reply(s.waiters[w].err, SyncResponse), c);
    }
  }

  /** What a report does to one channel. */
  predicate ReportAnswers(s: Sys, s': Sys, w: Stop, queue: seq<Chan>, c: Chan)
    requires w in s.waiters && s.waiters[w].Reporting?
  {
    if c in queue then
      && SentTo(s.loop, c) == [] && SentTo(s'.loop, c) == [Reply(s.waiters[w].err, SyncResponse)]
      && c in s'.history.answeredBy && s'.history.answeredBy[c] == w
    else
      && SentTo(s'.loop, c) == SentTo(s.loop, c)
      && (c in s'.history.answeredBy <==> c in s.history.answeredBy)
      && (c in s.history.answeredBy ==> s'.history.answeredBy[c] == s.history.answeredBy[c])
  }

  lemma ReportedAnswer(s: Sys, s': Sys, w: Stop, queue: seq<Chan>, c: Chan)
    requires Inv(s) && WaitsOk(s) && Enabled(s, LoopTakesReport(w)) && c in s'.history.answeredBy
    requires s'.callers == s.callers && s'.waiters == s.waiters[w := Finished(s.waiters[w].err)]
    requires s'.history.joined == s.history.joined && queue == WaitersFor(s.loop, s.loop.started[w])
    requires ReportAnswers(s, s', w, queue, c)
    ensures AnswerOk(s', c)
  {
    if c in queue {
      assert QueueOk(s, s.loop.started[w]) && QueueJoined(s, s.loop.started[w]);
    } else {
      assert AnswerOk(s, c);
    }
  }

  lemma ReportWaits(s: Sys, s': Sys, w: Stop, queue: seq<Chan>)
    requires Inv(s) && WaitsOk(s) && Enabled(s, LoopTakesReport(w)) && s' == Take(s, LoopTakesReport(w))
    requires queue == WaitersFor(s.loop, s.loop.started[w]) && s'.loop.waiting == s.loop.waiting - {s.loop.started[w]}
    requires s'.loop.inFlight == s.loop.inFlight - {s.loop.started[w]}
    requires forall c :: ReportAnswers(s, s', w, queue, c)
    ensures WaitsOk(s')
  {
    forall h | h in s'.loop.waiting ensures QueueJoined(s', h) {
      assert QueueJoined(s, h);
    }
    forall c | c in s'.history.answeredBy ensures AnswerOk(s', c) {
      assert ReportAnswers(s, s', w, queue, c);
      ReportedAnswer(s, s', w, queue, c);
    }
    forall c | c in s'.callers && SentBySync(s', c) ensures c in s'.history.answeredBy {
      assert ReportAnswers(s, s', w, queue, c);
      assert c !in queue ==> SentBySync(s, c);
    }
  }

  lemma ReportMisleads(s: Sys, s': Sys, w: Stop, queue: seq<Chan>)
    requires WaitsOk(s) && Enabled(s, LoopTakesReport(w)) && s' == Take(s, LoopTakesReport(w)) && LoopOk(s)
    requires queue == WaitersFor(s.loop, s.loop.started[w])
    requires forall c :: ReportAnswers(s, s', w, queue, c)
    ensures AnyMisled(s') <==> AnyMisled(s) || Stale(s, LoopTakesReport(w))
  {
    var g := s.loop.started[w];
    assert g in s.loop.inFlight <==> g in s.loop.waiting;
    forall c ensures Misled(s', c) <==> Misled(s, c) || (c in queue && Stale(s, LoopTakesReport(w))) {
      assert ReportAnswers(s, s', w, queue, c);
      if c in queue {
        assert QueueJoined(s, g);
        assert c in s.history.answeredBy ==> AnswerOk(s, c);
      }
    }
    if Stale(s, LoopTakesReport(w)) {
      assert QueueJoined(s, g) && queue[0] in queue;
      assert Misled(s', queue[0]);
    }
  }

  /** What stopping an informer sends, and which queue it drops. */
  lemma StopSends(s: Sys, g: Gvk, r: Reply)
    requires Inv(s)
    ensures var l := Stopping(s.loop, g, true, r);
            && l.waiting == s.loop.waiting - {g} && l.inFlight == s.loop.inFlight - {g}
            && forall c :: SentTo(l, c) == SentTo(s.loop, c) + if c in WaitersFor(s.loop, g) then [r] else []
  {
    var l, queue := Stopping(s.loop, g, true, r), WaitersFor(s.loop, g);
    assert g in s.loop.waiting ==> QueueOk(s, g);
    forall c ensures SentTo(l, c) == SentTo(s.loop, c) + if c in queue then [r] else [] {
      SendAllEffect(s.loop, queue, r, c);
      assert SentTo(l, c) == SentTo(SendAll(s.loop, queue, r), c);
    }
  }

  lemma StopKeepsWaits(s: Sys, removed: bool)
    requires Inv(s) && WaitsOk(s) && s.control.Stops?
    ensures WaitsOk(Take(s, LoopStops(removed)))
  {
    var s' := Take(s, LoopStops(removed));
    if s'.control.Stops? && removed {
      var g, r := s.control.order[0], s.control.reply;
      StopSends(s, g, r);
      StoppedWaits(s, s', g, r);
    } else {
      UnsentWaits(s, s');
    }
  }

  lemma AnsweredIsNotQueued(s: Sys, c: Chan, g: Gvk)
    requires Inv(s) && c in s.history.answeredBy && AnswerOk(s, c)
    ensures c !in WaitersFor(s.loop, g)
  {
    assert ChannelOk(s, c);
    assert g in s.loop.waiting ==> QueueOk(s, g);
  }

  lemma StoppedWaits(s: Sys, s': Sys, g: Gvk, r: Reply)
    requires Inv(s) && WaitsOk(s) && r.cause in {Removal, WatchError}
    requires s'.history == s.history && s'.callers == s.callers && s'.waiters == s.waiters
    requires s'.loop.waiting == s.loop.waiting - {g} && s'.loop.inFlight == s.loop.inFlight - {g}
    requires s'.control.Stops? ==> s'.control.reply.cause in {Removal, WatchError}
    requires forall c :: SentTo(s'.loop, c) == SentTo(s.loop, c) + if c in WaitersFor(s.loop, g) then [r] else []
    ensures WaitsOk(s')
  {
    forall h | h in s'.loop.waiting ensures QueueJoined(s', h) {
      assert QueueJoined(s, h);
    }
    forall c | c in s'.history.answeredBy ensures AnswerOk(s', c) {
      assert AnswerOk(s, c);
      AnsweredIsNotQueued(s, c, g);
    }
    forall c | c in s'.callers && SentBySync(s', c) ensures c in s'.history.answeredBy {
      assert SentBySync(s, c);
    }
  }

  /** Steps that send nothing. */
  lemma UnsentWaits(s: Sys, s': Sys)
    requires WaitsOk(s) && s'.loop == s.loop.(wired := s'.loop.wired) && s'.history == s.history
    requires s'.control.Stops? ==> s'.control.reply.cause in {Removal, WatchError}
    requires forall c :: c in s.callers ==>
               c in s'.callers && (s'.callers[c].phase.Sending? ==> s.callers[c].phase.Sending?)
    requires forall c :: c in s'.callers && c !in s.callers ==> SentTo(s.loop, c) == []
    requires forall w :: w in s.waiters && s.waiters[w].Finished? ==> w in s'.waiters && s'.waiters[w] == s.waiters[w]
    ensures WaitsOk(s')
  {
    assert forall c :: SentTo(s'.loop, c) == SentTo(s.loop, c);
    forall h | h in s'.loop.waiting ensures QueueJoined(s', h) {
      assert QueueJoined(s, h);
    }
    forall c | c in s'.history.answeredBy ensures AnswerOk(s', c) {
      assert AnswerOk(s, c);
    }
    forall c | c in s'.callers && SentBySync(s', c) ensures c in s'.history.answeredBy {
      assert SentBySync(s, c);
    }
  }

  lemma RequestQueues(l: Loop, c: Chan, g: Gvk, informer: Informer)
    requires l.waiting.Keys == l.inFlight.Keys
    ensures QueuesAfter(l, OnRequest(l, c, g, informer), g, c)
  {
    var l' := OnRequest(l, c, g, informer);
    if g in l.waiting {
      assert l'.inFlight == l.inFlight[g := l.inFlight[g]];
    } else if l'.nextStop > l.nextStop {
      assert [] + [c] == [c];
    }
  }

  /** A request is sent at most one result, which is no sync result, and nobody else is sent anything. */
  lemma RequestSends(l: Loop, c: Chan, g: Gvk, informer: Informer)
    ensures var l' := OnRequest(l, c, g, informer);
            && (forall d :: d != c ==> SentTo(l', d) == SentTo(l, d))
            && (SentTo(l', c) == SentTo(l, c) ||
                exists r ::
                  SentTo(l', c) == SentTo(l, c) + [r] && r.cause in {SetupFailed, WiringFailed, AlreadySynced})
  {
    var l' := OnRequest(l, c, g, informer);
    if g !in l.waiting && l'.nextStop == l.nextStop {
      var r := RequestAnswer(l, c, g, informer);
      assert SentTo(l', c) == SentTo(l, c) + [r];
    }
  }

  lemma RequestKeepsWaits(s: Sys, c: Chan, informer: Informer)
    requires Inv(s) && WaitsOk(s) && Enabled(s, LoopTakesRequest(c, informer))
    ensures WaitsOk(Take(s, LoopTakesRequest(c, informer)))
  {
    var s', g := Take(s, LoopTakesRequest(c, informer)), s.callers[c].gvk;
    assert ChannelOk(s, c);
    assert c !in s.history.answeredBy by {
      assert c in s.history.answeredBy ==> AnswerOk(s, c);
    }
    RequestQueues(s.loop, c, g, informer);
    RequestSends(s.loop, c, g, informer);
    assert !SentBySync(s', c);
    RequestedWaits(s, s', c);
  }

  /** Only reports mislead anybody. */
  lemma RequestMisleadsNobody(s: Sys, c: Chan, informer: Informer)
    requires Inv(s) && WaitsOk(s) && Enabled(s, LoopTakesRequest(c, informer))
    ensures AnyMisled(Take(s, LoopTakesRequest(c, informer))) <==> AnyMisled(s)
  {
    var s' := Take(s, LoopTakesRequest(c, informer));
    assert ChannelOk(s, c);
    assert c !in s.history.answeredBy by {
      assert c in s.history.answeredBy ==> AnswerOk(s, c);
    }
    forall d ensures Misled(s', d) <==> Misled(s, d) {
    }
  }

  /** The request leaves the queues alone, or stands at the end of the one for its kind. */
  predicate QueuesAfter(l: Loop, l': Loop, g: Gvk, c: Chan) {
    || (l'.waiting == l.waiting && l'.inFlight == l.inFlight)
    || (&& l'.waiting == l.waiting[g := WaitersFor(l, g) + [c]]
        && g in l'.inFlight && l'.inFlight == l.inFlight[g := l'.inFlight[g]]
        && (g in l.waiting && g in l.inFlight ==> l'.inFlight[g] == l.inFlight[g]))
  }

  lemma RequestedWaits(s: Sys, s': Sys, c: Chan)
    requires Inv(s) && WaitsOk(s) && c in s.callers && s.callers[c].phase.Sending? && c !in s.history.answeredBy
    requires s'.control == s.control && s'.callers == s.callers[c := s.callers[c].(phase := Awaiting)]
    requires s'.history == Requested(s, c, s'.loop) && QueuesAfter(s.loop, s'.loop, s.callers[c].gvk, c)
    requires forall w :: w in s.waiters ==> w in s'.waiters && s'.waiters[w] == s.waiters[w]
    requires forall d :: d != c ==> SentTo(s'.loop, d) == SentTo(s.loop, d)
    requires !SentBySync(s', c)
    ensures WaitsOk(s')
  {
    forall h | h in s'.loop.waiting ensures QueueJoined(s', h) {
      RequestedQueue(s, s', c, h);
    }
    forall d | d in s'.history.answeredBy ensures AnswerOk(s', d) {
      assert AnswerOk(s, d);
    }
    forall d | d in s'.callers && SentBySync(s', d) ensures d in s'.history.answeredBy {
      assert SentBySync(s, d);
    }
  }

  lemma RequestedQueue(s: Sys, s': Sys, c: Chan, h: Gvk)
    requires Inv(s) && WaitsOk(s) && c in s.callers && s.callers[c].phase.Sending? && h in s'.loop.waiting
    requires s'.history == Requested(s, c, s'.loop) && QueuesAfter(s.loop, s'.loop, s.callers[c].gvk, c)
    ensures QueueJoined(s', h)
  {
    assert h in s.loop.waiting ==> QueueJoined(s, h) && QueueOk(s, h);
    assert ChannelOk(s, c) && !Queued(s, c);
  }

  lemma StepKeepsWaits(s: Sys, t: Step)
    requires Inv(s) && WaitsOk(s)
    ensures WaitsOk(Next(s, t))
  {
    if Enabled(s, t) {
      match t {
        case LoopTakesRequest(c, informer) => RequestKeepsWaits(s, c, informer);
        case LoopTakesReport(w) =>
          ReportEffect(s, w);
          ReportWaits(s, Next(s, t), w, WaitersFor(s.loop, s.loop.started[w]));
        case LoopStops(removed) => StopKeepsWaits(s, removed);
        case _ => QuietKeepsWaits(s, t);
      }
    }
  }

  lemma QuietKeepsWaits(s: Sys, t: Step)
    requires Inv(s) && WaitsOk(s) && Enabled(s, t) && !t.LoopTakesRequest? && !t.LoopTakesReport? && !t.LoopStops?
    ensures WaitsOk(Take(s, t))
  {
    assert forall c :: c !in s.callers ==> c !in s.loop.sent;
    UnsentWaits(s, Take(s, t));
  }

  lemma ReportMisleadsExactly(s: Sys, w: Stop)
    requires Inv(s) && WaitsOk(s) && Enabled(s, LoopTakesReport(w))
    ensures AnyMisled(Take(s, LoopTakesReport(w))) <==> AnyMisled(s) || Stale(s, LoopTakesReport(w))
  {
    ReportEffect(s, w);
    ReportMisleads(s, Take(s, LoopTakesReport(w)), w, WaitersFor(s.loop, s.loop.started[w]));
  }

  lemma HistoryKept(s: Sys, t: Step)
    requires !t.LoopTakesRequest? && !t.LoopTakesReport?
    ensures Next(s, t).history == s.history
  {
  }

  lemma StepMisleadsExactly(s: Sys, t: Step)
    requires Inv(s) && WaitsOk(s)
    ensures AnyMisled(Next(s, t)) <==> AnyMisled(s) || Stale(s, t)
  {
    match t {
      case LoopTakesReport(w) =>
        if Enabled(s, t) {
          ReportMisleadsExactly(s, w);
        }
      case LoopTakesRequest(c, informer) =>
        if Enabled(s, t) {
          RequestMisleadsNobody(s, c, informer);
        }
      case _ =>
        HistoryKept(s, t);
        SameMisled(s, Next(s, t));
    }
  }

  lemma SameMisled(s: Sys, s': Sys)
    requires s'.history.joined == s.history.joined && s'.history.answeredBy == s.history.answeredBy
    ensures AnyMisled(s') <==> AnyMisled(s)
  {
    forall c ensures Misled(s', c) <==> Misled(s, c) {
    }
  }

  // ---------------------------------------------------------------- whole runs

  lemma RunSnoc(s: Sys, steps: seq<Step>)
    requires steps != []
    ensures var n := |steps| - 1; Run(s, steps) == Next(Run(s, steps[..n]), steps[n])
  {
    var n := |steps| - 1;
    assert steps == steps[..n] + [steps[n]];
    RunAppend(s, steps[..n], [steps[n]]);
    var t := Run(s, steps[..n]);
    assert [steps[n]][1..] == [];
    assert Run(t, [steps[n]]) == Run(Next(t, steps[n]), []);
  }

  /** Some step of the run takes a stale report. */
  ghost predicate TakesStale(steps: seq<Step>) {
    SomeStep((before, t) => Stale(Run(IDLE, before), t), steps)
  }

  lemma TakesStaleSnoc(steps: seq<Step>)
    requires steps != []
    ensures var n := |steps| - 1; TakesStale(steps) <==>
              TakesStale(steps[..n]) || Stale(Run(IDLE, steps[..n]), steps[n])
  {
    SomeStepSnoc((before, t) => Stale(Run(IDLE, before), t), steps);
  }

  lemma {:induction false} RunKeepsWaits(steps: seq<Step>)
    ensures Inv(Run(IDLE, steps)) && WaitsOk(Run(IDLE, steps))
    ensures AnyMisled(Run(IDLE, steps)) <==> TakesStale(steps)
    decreases |steps|
  {
    IdleIsOk();
    if steps != [] {
      var n := |steps| - 1;
      RunKeepsWaits(steps[..n]);
      RunSnoc(IDLE, steps);
      TakesStaleSnoc(steps);
      StepKeepsInv(Run(IDLE, steps[..n]), steps[n]);
      StepKeepsWaits(Run(IDLE, steps[..n]), steps[n]);
      StepMisleadsExactly(Run(IDLE, steps[..n]), steps[n]);
    }
  }

  /**
   Over every run: somebody has been answered by a wait it had not joined, if and only if the loop has
   taken a report while another wait was in flight for its kind.
   */
  lemma MisledExactly(steps: seq<Step>)
    ensures AnyMisled(Run(IDLE, steps)) <==> TakesStale(steps)
  {
    RunKeepsWaits(steps);
  }

  /**
   Over every run: who was told the result of a sync was told what some goroutine had seen, and what
   the goroutine of its own wait had seen unless it was misled. So without stale reports a nil means
   that the wait the caller joined saw its informer synced.
   */
  lemma NilIsGenuine(steps: seq<Step>, c: Chan, err: Option<Error>)
    requires c in Run(IDLE, steps).callers && Run(IDLE, steps).callers[c].phase == Got(Reply(err, SyncResponse))
    ensures var s := Run(IDLE, steps);
            && c in s.history.joined && c in s.history.answeredBy
            && s.history.answeredBy[c] in s.waiters && s.waiters[s.history.answeredBy[c]] == Finished(err)
            && ((s.history.joined[c] in s.waiters && s.waiters[s.history.joined[c]] == Finished(err)) || Misled(s, c))
            && (Misled(s, c) ==> TakesStale(steps))
  {
    RunKeepsWaits(steps);
    var s := Run(IDLE, steps);
    assert ChannelOk(s, c);
    assert SentTo(s.loop, c)[0].cause == SyncResponse && SentBySync(s, c);
    assert AnswerOk(s, c);
  }

  // ---------------------------------------------------------------- waits nobody can stop

  /** A goroutine still waits, its stop channel is open, and the loop has forgotten it. */
  predicate Abandoned(s: Sys, w: Stop) {
    && w in s.waiters && !s.waiters[w].Finished? && w in s.loop.started && w !in s.loop.closed
    && !(s.loop.started[w] in s.loop.inFlight && s.loop.inFlight[s.loop.started[w]] == w)
  }

  /** The loop has forgotten the wait: nothing will close its stop channel. */
  predicate Forgotten(l: Loop, w: Stop) {
    w in l.started && w !in l.closed && !(l.started[w] in l.inFlight && l.inFlight[l.started[w]] == w)
  }

  /** What a step does to the waits the loop keeps: a request may start one, a report or a stop drops one. */
  predicate WaitsAfter(l: Loop, l': Loop, g: Gvk, stopped: bool) {
    || (l'.inFlight == l.inFlight && l'.closed == l.closed && l'.started == l.started)
    || (&& l'.inFlight == l.inFlight[g := l.nextStop] && l'.closed == l.closed &&
        l'.started == l.started[l.nextStop := g]
        && g !in l.inFlight)
    || (&& l'.inFlight == l.inFlight - {g} && l'.started == l.started
        && l'.closed == if stopped && g in l.inFlight then l.closed + multiset{l.inFlight[g]} else l.closed)
  }

  lemma RequestWaits(l: Loop, c: Chan, g: Gvk, informer: Informer)
    requires l.waiting.Keys == l.inFlight.Keys
    ensures WaitsAfter(l, OnRequest(l, c, g, informer), g, true)
  {
  }

  lemma StopWaits(l: Loop, g: Gvk, removed: bool, r: Reply)
    ensures WaitsAfter(l, Stopping(l, g, removed, r), g, true)
  {
    SendAllFrame(l, WaitersFor(l, g), r);
  }

  lemma ReportDropsWait(l: Loop, g: Gvk, err: Option<Error>)
    ensures OnSync(l, g, err).inFlight == l.inFlight - {g} && WaitsAfter(l, OnSync(l, g, err), g, false)
  {
    SendAllFrame(l, WaitersFor(l, g), Reply(err, SyncResponse));
  }

  lemma StepWaits(s: Sys, t: Step) returns (g: Gvk)
    requires Inv(s) && Enabled(s, t)
    ensures WaitsAfter(s.loop, Next(s, t).loop, g, !t.LoopTakesReport?)
    ensures t.LoopTakesReport? ==> g == s.loop.started[t.w] && Next(s, t).loop.inFlight == s.loop.inFlight - {g}
  {
    g := "";
    match t {
      case LoopTakesReport(w) =>
        g := s.loop.started[w];
        ReportDropsWait(s.loop, g, s.waiters[w].err);
      case LoopTakesRequest(c, informer) =>
        g := s.callers[c].gvk;
        RequestWaits(s.loop, c, g, informer);
      case LoopStops(removed) =>
        if s.control.order != [] {
          g := s.control.order[0];
          StopWaits(s.loop, g, removed, s.control.reply);
        }
      case _ =>
    }
  }

  lemma ForgottenAfter(s: Sys, s': Sys, g: Gvk, stopped: bool, w: Stop)
    requires LoopOk(s) && WaitsAfter(s.loop, s'.loop, g, stopped)
    ensures Forgotten(s.loop, w) ==> Forgotten(s'.loop, w)
    ensures Forgotten(s'.loop, w) && !Forgotten(s.loop, w) ==>
              !stopped && g in s.loop.inFlight && w == s.loop.inFlight[g]
    ensures !stopped && g in s.loop.inFlight && w == s.loop.inFlight[g] && s'.loop.inFlight == s.loop.inFlight - {g} ==>
              Forgotten(s'.loop, w)
  {
  }

  /** Goroutines come with a wait the loop keeps, and finish once, when their own report is taken. */
  lemma WaitersAfter(s: Sys, t: Step, w: Stop)
    requires Inv(s) && w in s.waiters
    ensures var s' := Next(s, t);
            w in s'.waiters && (s'.waiters[w].Finished? <==>
                                  s.waiters[w].Finished? || (t == LoopTakesReport(w) && Enabled(s, t)))
  {
  }

  /** A step abandons a wait exactly when it takes a stale report, and then it abandons the one in flight. */
  lemma StepAbandonsExactly(s: Sys, t: Step, w: Stop)
    requires Inv(s) && !Abandoned(s, w)
    ensures Abandoned(Next(s, t), w) <==> Stale(s, t) && w == s.loop.inFlight[s.loop.started[t.w]]
  {
    if Enabled(s, t) {
      var g := StepWaits(s, t);
      ForgottenAfter(s, Next(s, t), g, !t.LoopTakesReport?, w);
      if w in s.waiters {
        WaitersAfter(s, t, w);
      }
    }
  }

  /** An abandoned wait is never stopped: its stop channel stays open for the rest of the run. */
  lemma {:induction false} AbandonedForEver(s: Sys, steps: seq<Step>, w: Stop)
    requires Inv(s) && Forgotten(s.loop, w)
    ensures Forgotten(Run(s, steps).loop, w) && Run(s, steps).loop.closed[w] == 0
    decreases |steps|
  {
    if steps != [] {
      StepKeepsInv(s, steps[0]);
      if Enabled(s, steps[0]) {
        var g := StepWaits(s, steps[0]);
        ForgottenAfter(s, Next(s, steps[0]), g, !steps[0].LoopTakesReport?, w);
      }
      AbandonedForEver(Next(s, steps[0]), steps[1..], w);
    }
  }

  ghost predicate AnyAbandoned(s: Sys) {
    exists w :: Abandoned(s, w)
  }

  /** At some moment of the run, a wait is abandoned. */
  ghost predicate EverAbandons(steps: seq<Step>) {
    SomeMoment(before => AnyAbandoned(Run(IDLE, before)), steps)
  }

  lemma EverAbandonsSnoc(steps: seq<Step>)
    requires steps != []
    ensures EverAbandons(steps) <==> EverAbandons(steps[..|steps| - 1]) || AnyAbandoned(Run(IDLE, steps))
  {
    SomeMomentSnoc(before => AnyAbandoned(Run(IDLE, before)), steps);
  }

  lemma StepAbandonsAny(s: Sys, t: Step)
    requires Inv(s) && !AnyAbandoned(s)
    ensures AnyAbandoned(Next(s, t)) <==> Stale(s, t)
  {
    if AnyAbandoned(Next(s, t)) {
      var w :| Abandoned(Next(s, t), w);
      StepAbandonsExactly(s, t, w);
    }
    if Stale(s, t) {
      StepAbandonsExactly(s, t, s.loop.inFlight[s.loop.started[t.w]]);
    }
  }

  /**
   Over every run: every goroutine that still waits can be stopped, at every moment, if and only if no
   stale report was taken.
   */
  lemma {:induction false} AbandonedExactly(steps: seq<Step>)
    ensures EverAbandons(steps) <==> TakesStale(steps)
    decreases |steps|
  {
    if steps == [] {
      assert forall i :: 0 <= i <= 0 ==> steps[..i] == [];
    } else {
      var n := |steps| - 1;
      AbandonedExactly(steps[..n]);
      EverAbandonsSnoc(steps);
      TakesStaleSnoc(steps);
      RunSnoc(IDLE, steps);
      RunKeepsWaits(steps[..n]);
      MomentIsPast(steps[..n]);
      if !AnyAbandoned(Run(IDLE, steps[..n])) {
        StepAbandonsAny(Run(IDLE, steps[..n]), steps[n]);
      }
    }
  }

  lemma MomentIsPast(steps: seq<Step>)
    ensures AnyAbandoned(Run(IDLE, steps)) ==> EverAbandons(steps)
  {
    var k := before => AnyAbandoned(Run(IDLE, before));
    assert steps[..|steps|] == steps;
    assert k(steps[..|steps|]) ==> SomeMoment(k, steps);
  }
}
