/**
 The tracking cache with everything around its loop (managedcache/trackingcache.go): callers that
 hold the read lock while they wait for a sync, goroutines that wait for informers, and removals
 that hold the write lock. Every interleaving of their steps is a run.
 */
module CacheProtocol {
  import opened Basics
  import opened TrackingCache

  // ---------------------------------------------------------------- the system

  type Holder = nat

  /** A sync call: handing its request to the loop, waiting for the answer, answered, or cancelled. */
  datatype Phase = Sending | Awaiting | Got(reply: Reply) | GaveUp

  datatype Caller = Caller(gvk: Gvk, phase: Phase, holder: Holder)

  /** A goroutine that waits for an informer, then blocks until the loop takes its report. */
  datatype Waiter = Waiting | Reporting(err: Option<Error>) | Finished(err: Option<Error>)

  /** What a removal asks the loop to stop: one kind, or every known kind but some. */
  datatype Wanted = One(gvk: Gvk) | Others(keep: set<Gvk>)

  /** The holder of the write lock: before, during and after handing its removal to the loop. */
  datatype Writer = Preparing | Requesting(wanted: Wanted) | Handed

  /**
   What the loop is doing: ready for its next event, stopping informers one after the other, or
   returned because an informer could not be stopped after a watch error.
   */
  datatype Control = Ready | Stops(order: seq<Gvk>, reply: Reply) | Ended

  /**
   What happened, for stating theorems only: which wait a queued caller joined, and whose report
   answered it.
   */
  datatype History = History(joined: map<Chan, Stop>, answeredBy: map<Chan, Stop>)

  /** `readers` hold the access lock for reading, `writer` for writing. */
  datatype Sys = Sys(loop: Loop, control: Control, callers: map<Chan, Caller>, readers: set<Holder>,
                     writer: Option<Writer>,
                     waiters: map<Stop, Waiter>, history: History)

  const IDLE: Sys := Sys(EMPTY, Ready, map[], {}, None, map[], History(map[], map[]))

  datatype Step =
    | ReaderEnters(h: Holder)
    | CallStarts(h: Holder, c: Chan, gvk: Gvk)
    | LoopTakesRequest(c: Chan, informer: Informer)
    | CallerReceives(c: Chan)
    | CallerCancels(c: Chan)
    | ReaderLeaves(h: Holder)
    | WaiterReports(w: Stop, synced: bool)
    | LoopTakesReport(w: Stop)
    | WriterEnters
    | WriterRequests(wanted: Wanted)
    | LoopTakesRemoval(order: seq<Gvk>)
    | WriterLeaves
    | LoopTakesWatchError(gvks: seq<Gvk>, err: Error)
    | LoopLosesInformer
    | LoopStops(removed: bool)

  predicate Unfinished(p: Phase) {
    p.Sending? || p.Awaiting?
  }

  /** The loop is carrying out a removal. */
  predicate Removing(s: Sys) {
    s.control.Stops? && s.control.reply.cause == Removal
  }

  /** The order in which the loop visits what a removal wants stopped. */
  predicate Visits(known: set<Gvk>, wanted: Wanted, order: seq<Gvk>) {
    match wanted
    case One(g) => order == [g]
    case Others(keep) => Lists(order, known - keep)
  }

  /**
   Whether a step can happen; steps that cannot leave the system as it is. The request channel has no
   buffer: a sender blocks, whatever happens to its context, until the loop is ready to receive.
   */
  predicate Enabled(s: Sys, t: Step) {
    match t
    case ReaderEnters(h) => s.writer.None? && h !in s.readers
    case CallStarts(h, c, gvk) => h in s.readers && c !in s.callers
    case LoopTakesRequest(c, _) => s.control.Ready? && c in s.callers && s.callers[c].phase.Sending?
    case CallerReceives(c) => c in s.callers && s.callers[c].phase.Awaiting? && SentTo(s.loop, c) != []
    case CallerCancels(c) => c in s.callers && s.callers[c].phase.Awaiting?
    case ReaderLeaves(h) =>
      h in s.readers && forall c :: c in s.callers && s.callers[c].holder == h ==> !Unfinished(s.callers[c].phase)
    case WaiterReports(w, synced) => w in s.waiters && s.waiters[w].Waiting? && (synced || w in s.loop.closed)
    case LoopTakesReport(w) => s.control.Ready? && w in s.waiters && s.waiters[w].Reporting? && w in s.loop.started
    case WriterEnters => s.writer.None? && s.readers == {}
    case WriterRequests(_) => s.writer == Some(Preparing)
    case LoopTakesRemoval(order) =>
      s.control.Ready? && s.writer.Some? && s.writer.value.Requesting? &&
      Visits(s.loop.known, s.writer.value.wanted, order)
    case WriterLeaves => s.writer == Some(Preparing) || s.writer == Some(Handed)
    case LoopTakesWatchError(_, _) => s.control.Ready?
    case LoopLosesInformer => Removing(s) && s.control.order != []
    case LoopStops(_) => s.control.Stops?
  }

  function SetPhase(s: Sys, c: Chan, p: Phase): Sys
    requires c in s.callers
  {
    s.(callers := s.callers[c := s.callers[c].(phase := p)])
  }

  /** A request joins the wait in flight for its kind if it is queued. */
  function Requested(s: Sys, c: Chan, after: Loop): History
    requires c in s.callers
  {
    var g := s.callers[c].gvk;
    if g in after.inFlight && c in WaitersFor(after, g) then
      s.history.(joined := s.history.joined[c := after.inFlight[g]])
    else s.history
  }

  /** A report answers everybody in the queue. */
  function Answered(h: History, queue: seq<Chan>, w: Stop): History {
    h.(answeredBy := h.answeredBy + map c | c in queue :: w)
  }

  function Take(s: Sys, t: Step): Sys
    requires Enabled(s, t)
  {
    match t
    case ReaderEnters(h) => s.(readers := s.readers + {h})
    case CallStarts(h, c, gvk) => s.(callers := s.callers[c := Caller(gvk, Sending, h)])
    case LoopTakesRequest(c, informer) =>
      var l := OnRequest(s.loop, c, s.callers[c].gvk, informer);
      var waiters := if l.nextStop > s.loop.nextStop then s.waiters[s.loop.nextStop := Waiting] else s.waiters;
      SetPhase(s, c, Awaiting).(loop := l, waiters := waiters, history := Requested(s, c, l))
    case CallerReceives(c) => SetPhase(s, c, Got(SentTo(s.loop, c)[0]))
    case CallerCancels(c) => SetPhase(s, c, GaveUp)
    case ReaderLeaves(h) => s.(readers := s.readers - {h})
    case WaiterReports(w, synced) =>
      // The goroutine sees its informer synced, or its stop channel closed.
      s.(waiters := s.waiters[w := Reporting(if synced then None else Some("context canceled"))])
    case LoopTakesReport(w) =>
      s.(loop := OnSync(s.loop, s.loop.started[w], s.waiters[w].err),
         waiters := s.waiters[w := Finished(s.waiters[w].err)],
         history := Answered(s.history, WaitersFor(s.loop, s.loop.started[w]), w))
    case WriterEnters => s.(writer := Some(Preparing))
    case WriterRequests(wanted) => s.(writer := Some(Requesting(wanted)))
    case LoopTakesRemoval(order) => s.(control := Stops(order, Reply(None, Removal)), writer := Some(Handed))
    case WriterLeaves => s.(writer := None)
    case LoopTakesWatchError(gvks, err) => s.(control := Stops(gvks, Reply(Some(err), WatchError)))
    case LoopLosesInformer => s.(loop := Losing(s.loop, s.control.order[0]))
    case LoopStops(removed) =>
      if s.control.order == [] then s.(control := Ready)
      else if !removed && s.control.reply.cause == WatchError then s.(control := Ended)
      else s.(loop := Stopping(s.loop, s.control.order[0], removed, s.control.reply),
              control := Stops(s.control.order[1..], s.control.reply))
  }

  function Next(s: Sys, t: Step): Sys {
    if Enabled(s, t) then Take(s, t) else s
  }

  function Run(s: Sys, steps: seq<Step>): Sys
    decreases |steps|
  {
    if steps == [] then s else Run(Next(s, steps[0]), steps[1..])
  }

  // ---------------------------------------------------------------- the invariant

  /** Kinds waited for are known, and each has an open stop channel of a goroutine that has yet to report. */
  predicate LoopOk(s: Sys) {
    var l := s.loop;
    && l.waiting.Keys == l.inFlight.Keys
    && l.waiting.Keys <= l.known
    && (forall g :: g in l.inFlight ==>
          && l.inFlight[g] in l.started && l.started[l.inFlight[g]] == g
          && l.inFlight[g] !in l.closed
          && l.inFlight[g] in s.waiters && !s.waiters[l.inFlight[g]].Finished?)
    && s.waiters.Keys == l.started.Keys
    && (forall w :: w in l.started ==> w < l.nextStop)
    && (forall w :: w in l.closed ==> w in l.started)
    && (forall w :: w in l.closed ==> l.closed[w] == 1)
  }

  /** The channel is queued for its own kind. */
  predicate Queued(s: Sys, c: Chan) {
    c in s.callers && s.callers[c].gvk in s.loop.waiting && c in s.loop.waiting[s.callers[c].gvk]
  }

  /** A queue holds distinct channels of callers that asked for its kind. */
  predicate QueueOk(s: Sys, g: Gvk)
    requires g in s.loop.waiting
  {
    && NoRepeats(s.loop.waiting[g])
    && forall c :: c in s.loop.waiting[g] ==> c in s.callers && s.callers[c].gvk == g
  }

  /**
   A request the loop has taken is either queued, exactly once and nowhere else, or has been sent
   exactly one result; one it has not taken is neither.
   */
  predicate ChannelOk(s: Sys, c: Chan)
    requires c in s.callers
  {
    var sent := SentTo(s.loop, c);
    match s.callers[c].phase
    case Sending => !Queued(s, c) && sent == []
    case Got(r) => !Queued(s, c) && sent == [r] && r.cause != Removal
    case Awaiting => if Queued(s, c) then sent == [] else |sent| == 1 && sent[0].cause != Removal
    case GaveUp => if Queued(s, c) then sent == [] else |sent| == 1
  }

  /** Nobody waits for an answer: calls are over, or their requests have not been received. */
  predicate NobodyAwaits(s: Sys) {
    forall c :: c in s.callers ==> !s.callers[c].phase.Awaiting?
  }

  /**
   Unfinished calls hold the read lock, the write lock excludes readers, and while the loop removes
   informers nobody awaits an answer, even if the remover has given up and released its lock.
   */
  predicate LockOk(s: Sys) {
    && (forall c :: c in s.callers && Unfinished(s.callers[c].phase) ==> s.callers[c].holder in s.readers)
    && (s.writer.Some? ==> s.readers == {})
    && (Removing(s) ==> NobodyAwaits(s))
  }

  predicate Inv(s: Sys) {
    && LoopOk(s)
    && LockOk(s)
    && (forall g :: g in s.loop.waiting ==> QueueOk(s, g))
    && (forall c :: c in s.callers ==> ChannelOk(s, c))
    && (forall c :: c in s.loop.sent ==> c in s.callers)
  }

  lemma IdleIsOk()
    ensures Inv(IDLE)
  {
  }

  // ---------------------------------------------------------------- steps of the loop

  /** What answering a queue does to one channel, which had been sent nothing if it stands in that queue. */
  lemma AnswerChannel(s: Sys, g: Gvk, r: Reply, s': Sys, c: Chan)
    requires c in s.callers && ChannelOk(s, c) && (g in s.loop.waiting ==> QueueOk(s, g))
    requires s'.callers == s.callers && s'.loop.waiting == s.loop.waiting - {g}
    requires SentTo(s'.loop, c) == SentTo(s.loop, c) + if c in WaitersFor(s.loop, g) then [r] else []
    requires r.cause == Removal ==> !s.callers[c].phase.Awaiting?
    ensures ChannelOk(s', c)
  {
    assert c in WaitersFor(s.loop, g) <==> Queued(s, c) && s.callers[c].gvk == g;
    assert Queued(s', c) <==> Queued(s, c) && s.callers[c].gvk != g;
  }

  /** Answering a whole queue and dropping it. */
  lemma AnswerQueue(s: Sys, g: Gvk, r: Reply, s': Sys)
    requires Inv(s)
    requires s'.callers == s.callers && LockOk(s') && LoopOk(s')
    requires s'.loop.waiting == s.loop.waiting - {g}
    requires s'.loop.sent == SendAll(s.loop, WaitersFor(s.loop, g), r).sent
    requires r.cause == Removal ==> NobodyAwaits(s)
    ensures Inv(s')
  {
    var cs := WaitersFor(s.loop, g);
    assert g in s.loop.waiting ==> QueueOk(s, g);
    var done := SendAll(s.loop, cs, r);
    forall c | c in s'.callers ensures ChannelOk(s', c) {
      SendAllEffect(s.loop, cs, r, c);
      assert SentTo(s'.loop, c) == SentTo(done, c);
      AnswerChannel(s, g, r, s', c);
    }
    forall h | h in s'.loop.waiting ensures QueueOk(s', h) {
      assert QueueOk(s, h);
    }
    forall c | c in s'.loop.sent ensures c in s'.callers {
      SendAllEffect(s.loop, cs, r, c);
    }
  }

  /** A state with the same loop up to wiring, and the same calls and waiters. */
  lemma SameCalls(s: Sys, s': Sys)
    requires Inv(s) && s'.loop == s.loop.(wired := s'.loop.wired) && LockOk(s')
    requires s'.callers == s.callers && s'.waiters == s.waiters
    ensures Inv(s')
  {
    forall c | c in s'.callers ensures ChannelOk(s', c) {
      assert ChannelOk(s, c) && (Queued(s', c) <==> Queued(s, c));
    }
    forall g | g in s'.loop.waiting ensures QueueOk(s', g) {
      assert QueueOk(s, g);
    }
  }

  /** The stop channel closed was open, and its goroutine's queue is gone. */
  lemma StoppingKeepsLoop(s: Sys, g: Gvk, r: Reply, s': Sys)
    requires LoopOk(s) && s'.loop == Stopping(s.loop, g, true, r) && s'.waiters == s.waiters
    ensures LoopOk(s') && s'.loop.waiting == s.loop.waiting - {g}
    ensures s'.loop.sent == SendAll(s.loop, WaitersFor(s.loop, g), r).sent
  {
    StoppingEffect(s.loop, g, true, r);
    SendAllFrame(s.loop, WaitersFor(s.loop, g), r);
  }

  lemma StopKeepsInv(s: Sys, removed: bool)
    requires Inv(s) && s.control.Stops?
    ensures Inv(Take(s, LoopStops(removed)))
  {
    var s' := Take(s, LoopStops(removed));
    if s'.control.Stops? && removed {
      var g, r := s.control.order[0], s.control.reply;
      StoppingKeepsLoop(s, g, r, s');
      assert LockOk(s');
      AnswerQueue(s, g, r, s');
    } else {
      SameCalls(s, s');
    }
  }

  lemma ReportKeepsInv(s: Sys, w: Stop)
    requires Inv(s) && Enabled(s, LoopTakesReport(w))
    ensures Inv(Take(s, LoopTakesReport(w)))
  {
    var s' := Take(s, LoopTakesReport(w));
    var g := s.loop.started[w];
    SendAllFrame(s.loop, WaitersFor(s.loop, g), Reply(s.waiters[w].err, SyncResponse));
    assert LoopOk(s');
    AnswerQueue(s, g, Reply(s.waiters[w].err, SyncResponse), s');
  }

  /** Other requests stay where they are. */
  lemma OtherChannel(s: Sys, s': Sys, d: Chan)
    requires d in s.callers && d in s'.callers && s'.callers[d] == s.callers[d] && ChannelOk(s, d)
    requires SentTo(s'.loop, d) == SentTo(s.loop, d)
    requires d in WaitersFor(s'.loop, s.callers[d].gvk) <==> d in WaitersFor(s.loop, s.callers[d].gvk)
    ensures ChannelOk(s', d)
  {
    assert Queued(s', d) <==> Queued(s, d);
  }

  /** The request is answered at once. */
  lemma AnsweredKeepsInv(s: Sys, c: Chan, r: Reply, after: Loop)
    requires Inv(s) && c in s.callers && s.callers[c].phase.Sending? && s.control.Ready?
    requires r.cause != Removal && s.loop.known <= after.known
    requires after == Send(s.loop, c, r).(known := after.known, wired := after.wired)
    ensures Inv(SetPhase(s, c, Awaiting).(loop := after))
  {
    var s' := SetPhase(s, c, Awaiting).(loop := after);
    forall h | h in s'.loop.waiting ensures QueueOk(s', h) {
      assert QueueOk(s, h);
    }
    forall d | d in s.callers ensures ChannelOk(s', d) {
      assert ChannelOk(s, d);
      if d != c {
        OtherChannel(s, s', d);
      } else {
        assert !Queued(s', d);
      }
    }
  }

  lemma QueueGrows(s: Sys, c: Chan, s': Sys)
    requires (forall h :: h in s.loop.waiting ==> QueueOk(s, h)) && c in s.callers && !Queued(s, c)
    requires s'.callers == SetPhase(s, c, Awaiting).callers
    requires s'.loop.waiting == s.loop.waiting[s.callers[c].gvk := WaitersFor(s.loop, s.callers[c].gvk) + [c]]
    ensures forall h :: h in s'.loop.waiting ==> QueueOk(s', h)
  {
    forall h | h in s'.loop.waiting ensures QueueOk(s', h) {
      assert h in s.loop.waiting ==> QueueOk(s, h);
    }
  }

  /** The request joins the queue for its kind, or opens it. */
  lemma QueuedKeepsInv(s: Sys, c: Chan, s': Sys)
    requires Inv(s) && c in s.callers && s.callers[c].phase.Sending? && s.control.Ready?
    requires s' == SetPhase(s, c, Awaiting).(loop := s'.loop, waiters := s'.waiters, history := s'.history)
    requires LoopOk(s')
    requires s'.loop.sent == s.loop.sent
    requires s'.loop.waiting == s.loop.waiting[s.callers[c].gvk := WaitersFor(s.loop, s.callers[c].gvk) + [c]]
    ensures Inv(s')
  {
    var g := s.callers[c].gvk;
    assert ChannelOk(s, c) && c !in WaitersFor(s.loop, g);
    QueueGrows(s, c, s');
    forall d | d in s.callers ensures ChannelOk(s', d) {
      assert ChannelOk(s, d);
      if d != c {
        OtherChannel(s, s', d);
      } else {
        assert Queued(s', d);
      }
    }
  }

  /** The request opens a queue, and a goroutine starts to wait. */
  lemma StartedKeepsInv(s: Sys, c: Chan, s': Sys)
    requires Inv(s) && c in s.callers && s.callers[c].phase.Sending? && s.control.Ready?
    requires var l, g := s.loop, s.callers[c].gvk;
             && g !in l.waiting
             && s' == SetPhase(s, c, Awaiting).(loop := s'.loop, waiters := s.waiters[l.nextStop := Waiting],
                                                history := s'.history)
             && s'.loop == l.(known := l.known + {g}, wired := s'.loop.wired, waiting := l.waiting[g := [c]],
                              inFlight := l.inFlight[g := l.nextStop],
                              started := l.started[l.nextStop := g], nextStop := l.nextStop + 1)
    ensures Inv(s')
  {
    assert LoopOk(s');
    assert [] + [c] == [c];
    QueuedKeepsInv(s, c, s');
  }

  lemma RequestKeepsInv(s: Sys, c: Chan, informer: Informer)
    requires Inv(s) && Enabled(s, LoopTakesRequest(c, informer))
    ensures Inv(Take(s, LoopTakesRequest(c, informer)))
  {
    var s' := Take(s, LoopTakesRequest(c, informer));
    var g, l, l' := s.callers[c].gvk, s.loop, s'.loop;
    if l'.nextStop > l.nextStop {
      assert l' == l.(known := l.known + {g}, wired := l'.wired, waiting := l.waiting[g := [c]],
                      inFlight := l.inFlight[g := l.nextStop],
                      started := l.started[l.nextStop := g], nextStop := l.nextStop + 1);
      StartedKeepsInv(s, c, s');
    } else if g in l.waiting {
      assert l' == l.(waiting := l.waiting[g := l.waiting[g] + [c]]);
      QueuedKeepsInv(s, c, s');
    } else {
      AnsweringKeepsInv(s, c, informer);
    }
  }

  lemma AnsweringKeepsInv(s: Sys, c: Chan, informer: Informer)
    requires Inv(s) && Enabled(s, LoopTakesRequest(c, informer)) && s.callers[c].gvk !in s.loop.waiting
    requires OnRequest(s.loop, c, s.callers[c].gvk, informer).nextStop == s.loop.nextStop
    ensures Inv(Take(s, LoopTakesRequest(c, informer)))
  {
    var s', g := Take(s, LoopTakesRequest(c, informer)), s.callers[c].gvk;
    var r := RequestAnswer(s.loop, c, g, informer);
    AnsweredKeepsInv(s, c, r, s'.loop);
    SameCalls(SetPhase(s, c, Awaiting).(loop := s'.loop), s');
  }

  /** A request that is neither queued nor made to wait is sent one result. */
  lemma RequestAnswer(l: Loop, c: Chan, g: Gvk, informer: Informer) returns (r: Reply)
    requires g !in l.waiting && OnRequest(l, c, g, informer).nextStop == l.nextStop
    ensures r.cause in {SetupFailed, WiringFailed, AlreadySynced}
    ensures r.cause == AlreadySynced <==> informer.Obtained? && informer.synced && r.err.None?
    ensures r.cause != AlreadySynced ==> r.err.Some?
    ensures var l' := OnRequest(l, c, g, informer);
            l.known <= l'.known && l' == Send(l, c, r).(known := l'.known, wired := l'.wired)
  {
    r := if informer.Unavailable? then Reply(Some(informer.err), SetupFailed)
         else if g !in l.known && informer.wiring.Some? then Reply(informer.wiring, WiringFailed)
         else Reply(None, AlreadySynced);
  }

  /** Steps of callers. */
  lemma CallKeepsInv(s: Sys, t: Step)
    requires Inv(s) && Enabled(s, t) && (t.CallStarts? || t.CallerReceives? || t.CallerCancels?)
    ensures Inv(Take(s, t))
  {
    var s' := Take(s, t);
    forall g | g in s'.loop.waiting ensures QueueOk(s', g) {
      assert QueueOk(s, g);
    }
    forall c | c in s'.callers ensures ChannelOk(s', c) {
      if c in s.callers {
        CallKeepsChannel(s, t, c);
      } else {
        assert c !in s.loop.sent;
        assert s'.callers[c].gvk in s.loop.waiting ==> QueueOk(s, s'.callers[c].gvk);
      }
    }
  }

  lemma CallKeepsChannel(s: Sys, t: Step, c: Chan)
    requires Enabled(s, t) && (t.CallStarts? || t.CallerReceives? || t.CallerCancels?)
    requires c in s.callers && ChannelOk(s, c)
    ensures ChannelOk(Take(s, t), c)
  {
    assert Queued(Take(s, t), c) <==> Queued(s, c);
  }

  lemma WaiterKeepsInv(s: Sys, w: Stop, synced: bool)
    requires Inv(s) && Enabled(s, WaiterReports(w, synced))
    ensures Inv(Take(s, WaiterReports(w, synced)))
  {
    var s' := Take(s, WaiterReports(w, synced));
    forall g | g in s'.loop.waiting ensures QueueOk(s', g) {
      assert QueueOk(s, g);
    }
    forall c | c in s'.callers ensures ChannelOk(s', c) {
      assert ChannelOk(s, c) && (Queued(s', c) <==> Queued(s, c));
    }
  }

  lemma StepKeepsInv(s: Sys, t: Step)
    requires Inv(s)
    ensures Inv(Next(s, t))
  {
    if Enabled(s, t) {
      match t {
        case LoopTakesRequest(c, informer) => RequestKeepsInv(s, c, informer);
        case LoopTakesReport(w) => ReportKeepsInv(s, w);
        case LoopStops(removed) => StopKeepsInv(s, removed);
        case WaiterReports(w, synced) => WaiterKeepsInv(s, w, synced);
        case CallStarts(_, _, _) => CallKeepsInv(s, t);
        case CallerReceives(_) => CallKeepsInv(s, t);
        case CallerCancels(_) => CallKeepsInv(s, t);
        case _ => SameCalls(s, Next(s, t));
      }
    }
  }

  // ---------------------------------------------------------------- whole runs

  lemma {:induction false} RunKeepsInv(s: Sys, steps: seq<Step>)
    requires Inv(s)
    ensures Inv(Run(s, steps))
    decreases |steps|
  {
    if steps != [] {
      StepKeepsInv(s, steps[0]);
      RunKeepsInv(Next(s, steps[0]), steps[1..]);
    }
  }

  /**
   In every reachable state the kinds waited for are the kinds with a wait in flight, they are known,
   each stored stop channel is open and its goroutine has yet to report, and none was closed twice.
   */
  lemma LoopMapsAgree(steps: seq<Step>)
    ensures var s := Run(IDLE, steps);
            && s.loop.waiting.Keys == s.loop.inFlight.Keys <= s.loop.known
            && (forall g :: g in s.loop.inFlight ==>
                  && s.loop.closed[s.loop.inFlight[g]] == 0
                  && s.loop.inFlight[g] in s.waiters && !s.waiters[s.loop.inFlight[g]].Finished?)
            && forall w :: s.loop.closed[w] <= 1
  {
    IdleIsOk();
    RunKeepsInv(IDLE, steps);
  }

  /** The queues a channel stands in. */
  function QueuesOf(l: Loop, c: Chan): set<Gvk> {
    set g | g in l.waiting && c in l.waiting[g]
  }

  /**
   Every request the loop has taken stands in exactly one queue, once, or has been sent exactly one
   result; requests it has not taken are neither. So no channel of one slot is ever sent a second result.
   */
  lemma WaitersAreConserved(steps: seq<Step>, c: Chan)
    ensures var s := Run(IDLE, steps);
            && |SentTo(s.loop, c)| <= 1
            && (forall g :: g in s.loop.waiting ==> multiset(s.loop.waiting[g])[c] <= 1)
            && (if c !in s.callers || s.callers[c].phase.Sending? then
                  SentTo(s.loop, c) == [] && QueuesOf(s.loop, c) == {}
                else SentTo(s.loop, c) == [] <==> QueuesOf(s.loop, c) == {s.callers[c].gvk})
            && (c in s.callers && SentTo(s.loop, c) != [] ==> QueuesOf(s.loop, c) == {})
  {
    IdleIsOk();
    RunKeepsInv(IDLE, steps);
    var s := Run(IDLE, steps);
    assert forall g :: g in s.loop.waiting ==> QueueOk(s, g);
    forall g | g in s.loop.waiting ensures multiset(s.loop.waiting[g])[c] <= 1 {
      DistinctOnce(s.loop.waiting[g], c);
    }
    if c in s.callers {
      assert ChannelOk(s, c);
      assert QueuesOf(s.loop, c) == if Queued(s, c) then {s.callers[c].gvk} else {};
    }
  }

  lemma {:induction false} DistinctOnce(cs: seq<Chan>, c: Chan)
    requires NoRepeats(cs)
    ensures multiset(cs)[c] <= 1
  {
    if cs != [] {
      var n := |cs| - 1;
      DistinctOnce(cs[..n], c);
      assert cs == cs[..n] + [cs[n]];
      assert cs[n] !in cs[..n];
    }
  }

  /**
   The nil that a removal sends never reaches a caller: whoever got a result, or will get the one in
   its channel, got one that was not sent because an informer was removed.
   */
  lemma RemovalAnswersNobody(steps: seq<Step>, c: Chan)
    requires c in Run(IDLE, steps).callers
    ensures var s := Run(IDLE, steps);
            match s.callers[c].phase
            case Got(r) => r.cause != Removal
            case Awaiting => forall r :: r in SentTo(s.loop, c) ==> r.cause != Removal
            case Sending => SentTo(s.loop, c) == []
            case GaveUp => true
  {
    IdleIsOk();
    RunKeepsInv(IDLE, steps);
    assert ChannelOk(Run(IDLE, steps), c);
  }

  // ---------------------------------------------------------------- the loop's steps are its handlers

  /** The informer cache is asked twice for each kind; the second question is only put if it agreed to the first. */
  function StopOne(g: Gvk, first: set<Gvk>, second: set<Gvk>): seq<Step> {
    if g in first then [LoopLosesInformer, LoopStops(g in second)] else [LoopStops(false)]
  }

  function StopSteps(order: seq<Gvk>, first: set<Gvk>, second: set<Gvk>): seq<Step> {
    if order == [] then [LoopStops(true)]
    else StopOne(order[0], first, second) + StopSteps(order[1..], first, second)
  }

  lemma StopOneEffect(s: Sys, order: seq<Gvk>, first: set<Gvk>, second: set<Gvk>)
    requires s.control == Stops(order, Reply(None, Removal)) && order != []
    ensures var g := order[0];
            Run(s, StopOne(g, first, second)) ==
            s.(loop := OnRemove(s.loop, g, g in first, g in second),
               control := Stops(order[1..], Reply(None, Removal)))
  {
    var g := order[0];
    if g in first {
      RunTwo(s, LoopLosesInformer, LoopStops(g in second));
    } else {
      RunOne(s, LoopStops(false));
    }
  }

  /** Left to itself, the loop's stepwise removal is the removal handler. */
  lemma {:induction false} RemovalInOneGo(s: Sys, order: seq<Gvk>, first: set<Gvk>, second: set<Gvk>)
    requires s.control == Stops(order, Reply(None, Removal))
    ensures Run(s, StopSteps(order, first, second)) ==
            s.(loop := OnRemoveAll(s.loop, order, first, second), control := Ready)
    decreases |order|
  {
    if order == [] {
      StopsDone(s);
    } else {
      var one, rest := StopOne(order[0], first, second), StopSteps(order[1..], first, second);
      StopOneEffect(s, order, first, second);
      RunAppend(s, one, rest);
      RemovalInOneGo(Run(s, one), order[1..], first, second);
    }
  }

  /** The steps of a watch error: one per kind, up to the first that cannot be removed. */
  function WatchSteps(gvks: seq<Gvk>, removable: set<Gvk>): seq<Step> {
    if gvks == [] then [LoopStops(true)]
    else if gvks[0] !in removable then [LoopStops(false)]
    else [LoopStops(true)] + WatchSteps(gvks[1..], removable)
  }

  lemma {:induction false} StopsForWatchError(s: Sys, gvks: seq<Gvk>, err: Error, removable: set<Gvk>)
    requires s.control == Stops(gvks, Reply(Some(err), WatchError))
    ensures Run(s, WatchSteps(gvks, removable)) ==
            s.(loop := OnWatchError(s.loop, gvks, err, removable),
               control := if forall i :: 0 <= i < |gvks| ==> gvks[i] in removable then Ready else Ended)
    decreases |gvks|
  {
    if gvks == [] {
      StopsDone(s);
    } else if gvks[0] !in removable {
      RunOne(s, LoopStops(false));
    } else {
      var rest := WatchSteps(gvks[1..], removable);
      RunAppend(s, [LoopStops(true)], rest);
      RunOne(s, LoopStops(true));
      assert (forall i :: 0 <= i < |gvks| ==> gvks[i] in removable) <==>
             (forall i :: 0 <= i < |gvks[1..]| ==> gvks[1..][i] in removable) by {
        assert forall i :: 0 < i < |gvks| ==> gvks[i] == gvks[1..][i - 1];
        assert forall i :: 0 <= i < |gvks[1..]| ==> gvks[1..][i] == gvks[i + 1];
      }
      StopsForWatchError(Next(s, LoopStops(true)), gvks[1..], err, removable);
    }
  }

  /**
   Left to itself, the loop's stepwise handling of a watch error is the handler, and the loop ends if a
   kind resists.
   */
  lemma WatchErrorInOneGo(s: Sys, gvks: seq<Gvk>, err: Error, removable: set<Gvk>)
    requires s.control.Ready?
    ensures Run(s, [LoopTakesWatchError(gvks, err)] + WatchSteps(gvks, removable)) ==
            s.(loop := OnWatchError(s.loop, gvks, err, removable),
               control := if forall i :: 0 <= i < |gvks| ==> gvks[i] in removable then Ready else Ended)
  {
    RunAppend(s, [LoopTakesWatchError(gvks, err)], WatchSteps(gvks, removable));
    RunOne(s, LoopTakesWatchError(gvks, err));
    StopsForWatchError(Next(s, LoopTakesWatchError(gvks, err)), gvks, err, removable);
  }

  // ---------------------------------------------------------------- errors are told

  /** A result fits its cause: nil for success and removal, an error for everything that went wrong. */
  predicate Fits(r: Reply) {
    match r.cause
    case AlreadySynced => r.err.None?
    case Removal => r.err.None?
    case SyncResponse => true
    case _ => r.err.Some?
  }

  ghost predicate AllFit(s: Sys) {
    && (forall c, i :: 0 <= i < |SentTo(s.loop, c)| ==> Fits(SentTo(s.loop, c)[i]))
    && (s.control.Stops? ==> Fits(s.control.reply))
  }

  lemma SentFit(l: Loop, l': Loop, extra: Chan -> seq<Reply>)
    requires forall c, i :: 0 <= i < |SentTo(l, c)| ==> Fits(SentTo(l, c)[i])
    requires forall c :: SentTo(l', c) == SentTo(l, c) + extra(c)
    requires forall c, i :: 0 <= i < |extra(c)| ==> Fits(extra(c)[i])
    ensures forall c, i :: 0 <= i < |SentTo(l', c)| ==> Fits(SentTo(l', c)[i])
  {
    forall c, i | 0 <= i < |SentTo(l', c)| ensures Fits(SentTo(l', c)[i]) {
      if i >= |SentTo(l, c)| {
        assert SentTo(l', c)[i] == extra(c)[i - |SentTo(l, c)|];
      }
    }
  }

  lemma QueueFit(s: Sys, g: Gvk, r: Reply, l': Loop)
    requires Inv(s) && AllFit(s) && Fits(r) && l'.sent == SendAll(s.loop, WaitersFor(s.loop, g), r).sent
    ensures forall c, i :: 0 <= i < |SentTo(l', c)| ==> Fits(SentTo(l', c)[i])
  {
    var queue := WaitersFor(s.loop, g);
    assert g in s.loop.waiting ==> QueueOk(s, g);
    forall c ensures SentTo(l', c) == SentTo(s.loop, c) + if c in queue then [r] else [] {
      SendAllEffect(s.loop, queue, r, c);
    }
    SentFit(s.loop, l', c => if c in queue then [r] else []);
  }

  lemma RequestFit(s: Sys, c: Chan, informer: Informer)
    requires AllFit(s) && Enabled(s, LoopTakesRequest(c, informer))
    ensures AllFit(Take(s, LoopTakesRequest(c, informer)))
  {
    var g := s.callers[c].gvk;
    var l' := OnRequest(s.loop, c, g, informer);
    if g !in s.loop.waiting && l'.nextStop == s.loop.nextStop {
      var r := RequestAnswer(s.loop, c, g, informer);
      assert Fits(r);
      SentFit(s.loop, l', d => if d == c then [r] else []);
    } else {
      SentFit(s.loop, l', d => []);
    }
  }

  lemma ReportFit(s: Sys, w: Stop)
    requires Inv(s) && AllFit(s) && Enabled(s, LoopTakesReport(w))
    ensures AllFit(Take(s, LoopTakesReport(w)))
  {
    var s' := Take(s, LoopTakesReport(w));
    QueueFit(s, s.loop.started[w], Reply(s.waiters[w].err, SyncResponse), s'.loop);
  }

  lemma StopFit(s: Sys, removed: bool)
    requires Inv(s) && AllFit(s) && s.control.Stops?
    ensures AllFit(Take(s, LoopStops(removed)))
  {
    var s' := Take(s, LoopStops(removed));
    if s'.control.Stops? && removed {
      QueueFit(s, s.control.order[0], s.control.reply, s'.loop);
    } else {
      SameSentFit(s, s');
    }
  }

  lemma SameSentFit(s: Sys, s': Sys)
    requires AllFit(s) && s'.loop.sent == s.loop.sent && (s'.control.Stops? ==> Fits(s'.control.reply))
    ensures AllFit(s')
  {
    assert forall c :: SentTo(s'.loop, c) == SentTo(s.loop, c);
  }

  lemma StepKeepsFit(s: Sys, t: Step)
    requires Inv(s) && AllFit(s)
    ensures AllFit(Next(s, t))
  {
    if Enabled(s, t) {
      match t {
        case LoopTakesRequest(c, informer) => RequestFit(s, c, informer);
        case LoopTakesReport(w) => ReportFit(s, w);
        case LoopStops(removed) => StopFit(s, removed);
        case _ => SameSentFit(s, Next(s, t));
      }
    }
  }

  lemma {:induction false} RunKeepsFit(s: Sys, steps: seq<Step>)
    requires Inv(s) && AllFit(s)
    ensures AllFit(Run(s, steps))
    decreases |steps|
  {
    if steps != [] {
      StepKeepsInv(s, steps[0]);
      StepKeepsFit(s, steps[0]);
      RunKeepsFit(Next(s, steps[0]), steps[1..]);
    }
  }

  /**
   Over every run: a caller that is told nil was told so because the informer had synced, or because a
   goroutine reported a sync. Failures to set up, to wire and watch errors reach callers as errors.
   */
  lemma NilOnlyAfterSync(steps: seq<Step>, c: Chan)
    requires c in Run(IDLE, steps).callers && Run(IDLE, steps).callers[c].phase.Got?
    ensures var r := Run(IDLE, steps).callers[c].phase.reply;
            && (r.err.None? ==> r.cause in {AlreadySynced, SyncResponse})
            && (r.cause in {SetupFailed, WiringFailed, WatchError} ==> r.err.Some?)
  {
    IdleIsOk();
    RunKeepsInv(IDLE, steps);
    RunKeepsFit(IDLE, steps);
    var s := Run(IDLE, steps);
    assert ChannelOk(s, c);
    assert Fits(SentTo(s.loop, c)[0]);
  }

  // ---------------------------------------------------------------- what a nil does not mean

  lemma {:induction false} RunAppend(s: Sys, first: seq<Step>, rest: seq<Step>)
    ensures Run(s, first + rest) == Run(Run(s, first), rest)
    decreases |first|
  {
    if first == [] {
      assert [] + rest == rest;
    } else {
      assert (first + rest)[1..] == first[1..] + rest;
      RunAppend(Next(s, first[0]), first[1..], rest);
    }
  }

  lemma RunOne(s: Sys, t: Step)
    ensures Run(s, [t]) == Next(s, t)
  {
    assert [t][1..] == [];
    assert Run(s, [t]) == Run(Next(s, t), []);
  }

  lemma RunTwo(s: Sys, t1: Step, t2: Step)
    ensures Run(s, [t1, t2]) == Next(Next(s, t1), t2)
  {
    assert [t1, t2][1..] == [t2] && [t2][1..] == [];
    assert Run(Next(s, t1), [t2]) == Run(Next(Next(s, t1), t2), []);
  }

  lemma FiveRuns(s: Sys, a: seq<Step>, b: seq<Step>, c: seq<Step>, d: seq<Step>, e: seq<Step>)
    ensures Run(s, a + b + c + d + e) == Run(Run(Run(Run(Run(s, a), b), c), d), e)
  {
    RunAppend(s, a + b + c + d, e);
    RunAppend(s, a + b + c, d);
    RunAppend(s, a + b, c);
    RunAppend(s, a, b);
  }

  const FIRST_CALL: Caller := Caller("kind", Awaiting, 0)

  /** A goroutine has seen its informer synced and is about to say so. */
  const SYNCED: Sys :=
    Sys(Loop(map["kind" := [0]], map["kind" := 0], {"kind"}, {"kind"}, map[], multiset{}, map[0 := "kind"], 1), Ready,
        map[0 := FIRST_CALL], {0}, None, map[0 := Reporting(None)], History(map[0 := 0], map[]))

  /** A watch error has stopped that informer in the meantime. */
  const STOPPED: Sys :=
    Sys(Loop(map[], map[], {}, {}, map[0 := [Reply(Some("forbidden"), WatchError)]], multiset{0}, map[0 := "kind"], 1),
        Ready, map[0 := FIRST_CALL], {0}, None, map[0 := Reporting(None)], SYNCED.history)

  /** A second call waits for a second informer. */
  const RESTARTED: Sys :=
    Sys(Loop(map["kind" := [1]], map["kind" := 1], {"kind"}, {"kind"}, STOPPED.loop.sent, multiset{0},
             map[0 := "kind", 1 := "kind"], 2),
        Ready, map[0 := FIRST_CALL, 1 := FIRST_CALL], {0}, None, map[0 := Reporting(None), 1 := Waiting],
        History(map[0 := 0, 1 := 1], map[]))

  const CALL: seq<Step> := [ReaderEnters(0), CallStarts(0, 0, "kind")]

  const WAIT: seq<Step> := [LoopTakesRequest(0, Obtained(None, false)), WaiterReports(0, true)]

  lemma ToSynced()
    ensures Run(IDLE, CALL + WAIT) == SYNCED
  {
    RunAppend(IDLE, CALL, WAIT);
    RunTwo(IDLE, ReaderEnters(0), CallStarts(0, 0, "kind"));
    var s := Run(IDLE, [ReaderEnters(0), CallStarts(0, 0, "kind")]);
    assert s == IDLE.(callers := map[0 := Caller("kind", Sending, 0)], readers := {0});
    RunTwo(s, LoopTakesRequest(0, Obtained(None, false)), WaiterReports(0, true));
  }

  lemma ToStopped()
    ensures Run(SYNCED, [LoopTakesWatchError(["kind"], "forbidden"), LoopStops(true)]) ==
              STOPPED.(control := Stops([], Reply(Some("forbidden"), WatchError)))
  {
    RunTwo(SYNCED, LoopTakesWatchError(["kind"], "forbidden"), LoopStops(true));
    var r := Reply(Some("forbidden"), WatchError);
    assert [0][..0] == [] && [0][0] == 0 && ["kind"][1..] == [];
    assert SendAll(SYNCED.loop, [0], r) == Send(SendAll(SYNCED.loop, [], r), 0, r);
    assert [] + [r] == [r];
    assert Stopping(SYNCED.loop, "kind", true, r) == STOPPED.loop;
  }

  lemma StopsDone(s: Sys)
    requires s.control.Stops? && s.control.order == []
    ensures Run(s, [LoopStops(true)]) == s.(control := Ready)
  {
    RunOne(s, LoopStops(true));
  }

  lemma ToRestarted()
    ensures Run(STOPPED, [CallStarts(0, 1, "kind"), LoopTakesRequest(1, Obtained(None, false))]) == RESTARTED
  {
    RunTwo(STOPPED, CallStarts(0, 1, "kind"), LoopTakesRequest(1, Obtained(None, false)));
  }

  lemma ToAnswered()
    ensures var s := Run(RESTARTED, [LoopTakesReport(0), CallerReceives(1)]);
            && 1 in s.callers && s.callers[1] == FIRST_CALL.(phase := Got(Reply(None, SyncResponse)))
            && 1 in s.waiters && s.waiters[1] == Waiting
            && s.loop.started == RESTARTED.loop.started
  {
    RunTwo(RESTARTED, LoopTakesReport(0), CallerReceives(1));
    var r := Reply(None, SyncResponse);
    assert [1][..0] == [] && [1][0] == 1;
    assert SendAll(RESTARTED.loop, [1], r) == Send(SendAll(RESTARTED.loop, [], r), 1, r);
    assert [] + [r] == [r];
  }

  /**
   A caller can be told that its kind has synced while the goroutine that waits for its informer
   still waits: the report of an earlier, stopped wait answers it.
   */
  lemma StaleReportAnswersNewCall() returns (steps: seq<Step>)
    ensures var s := Run(IDLE, steps);
            && 1 in s.callers && s.callers[1].phase == Got(Reply(None, SyncResponse))
            && 1 in s.loop.started && s.loop.started[1] == s.callers[1].gvk
            && 1 in s.waiters && s.waiters[1] == Waiting
  {
    var to1 := CALL + WAIT;
    var to2, to3 := [LoopTakesWatchError(["kind"], "forbidden"), LoopStops(true)], [LoopStops(true)];
    var to4 := [CallStarts(0, 1, "kind"), LoopTakesRequest(1, Obtained(None, false))];
    var to5 := [LoopTakesReport(0), CallerReceives(1)];
    ToSynced();
    ToStopped();
    ToRestarted();
    ToAnswered();
    var busy := STOPPED.(control := Stops([], Reply(Some("forbidden"), WatchError)));
    StopsDone(busy);
    steps := to1 + to2 + to3 + to4 + to5;
    FiveRuns(IDLE, to1, to2, to3, to4, to5);
  }
}
