/**
 The control loop of the tracking cache (managedcache/trackingcache.go): which callers wait for
 which informer to sync, and what the loop sends, starts and closes on their behalf.

 Handlers are given as functions on a Loop value and as methods of TrackingCache that update the
 maps in place. The informer cache itself is an oracle: whether an informer can be obtained, is
 synced or can be removed comes in as an argument.
 */
module TrackingCache {
  import opened Basics

  type Gvk = string

  /** The one-slot error channel of a caller. */
  type Chan = nat

  /** The stop channel of a goroutine waiting for an informer to sync. */
  type Stop = nat

  type Error = string

  /** Why a result was sent. */
  datatype Cause = AlreadySynced | SetupFailed | WiringFailed | SyncResponse | Removal | WatchError

  /** A result on an error channel; no error means the caller may read from the cache. */
  datatype Reply = Reply(err: Option<Error>, cause: Cause)

  /**
   The loop's maps, and the effects it has had so far: the kinds whose informer has its event handlers
   wired, the results sent per channel, the stop channels closed, and the waiting goroutines started.
   */
  datatype Loop = Loop(
    waiting: map<Gvk, seq<Chan>>,
    inFlight: map<Gvk, Stop>,
    known: set<Gvk>,
    wired: set<Gvk>,
    sent: map<Chan, seq<Reply>>,
    closed: multiset<Stop>,
    started: map<Stop, Gvk>,
    nextStop: Stop)

  const EMPTY: Loop := Loop(map[], map[], {}, {}, map[], multiset{}, map[], 0)

  // ---------------------------------------------------------------- sending

  function SentTo(l: Loop, c: Chan): seq<Reply> {
    if c in l.sent then l.sent[c] else []
  }

  function Send(l: Loop, c: Chan, r: Reply): Loop {
    l.(sent := l.sent[c := SentTo(l, c) + [r]])
  }

  function SendAll(l: Loop, cs: seq<Chan>, r: Reply): Loop {
    if cs == [] then l else Send(SendAll(l, cs[..|cs| - 1], r), cs[|cs| - 1], r)
  }

  function WaitersFor(l: Loop, gvk: Gvk): seq<Chan> {
    if gvk in l.waiting then l.waiting[gvk] else []
  }

  // ---------------------------------------------------------------- the handlers

  /** A waiting goroutine reports: everybody queued for the kind gets its result. */
  function OnSync(l: Loop, gvk: Gvk, err: Option<Error>): Loop {
    SendAll(l, WaitersFor(l, gvk), Reply(err, SyncResponse)).(
      waiting := l.waiting - {gvk},
      inFlight := l.inFlight - {gvk})
  }

  /** What the informer cache answers to a request for an informer, and whether its event handlers can be wired. */
  datatype Informer = Unavailable(err: Error) | Obtained(wiring: Option<Error>, synced: bool)

  /** A caller asks for the kind to be synced. Event handlers are wired to informers seen for the first time. */
  function OnRequest(l: Loop, c: Chan, gvk: Gvk, informer: Informer): Loop {
    if gvk in l.waiting then l.(waiting := l.waiting[gvk := l.waiting[gvk] + [c]])
    else if informer.Unavailable? then Send(l, c, Reply(Some(informer.err), SetupFailed))
    else
      var wired := if gvk !in l.known && informer.wiring.None? then l.wired + {gvk} else l.wired;
      var l1 := l.(known := l.known + {gvk}, wired := wired);
      if gvk !in l.known && informer.wiring.Some? then Send(l1, c, Reply(informer.wiring, WiringFailed))
      else if informer.synced then Send(l1, c, Reply(None, AlreadySynced))
      else l1.(waiting := l.waiting[gvk := [c]], inFlight := l.inFlight[gvk := l.nextStop],
               started := l.started[l.nextStop := gvk], nextStop := l.nextStop + 1)
  }

  /** Drops everything held for a kind, and closes the stop channel of its wait in flight. */
  function Forgetting(l: Loop, gvk: Gvk): Loop {
    l.(waiting := l.waiting - {gvk},
       closed := if gvk in l.inFlight then l.closed + multiset{l.inFlight[gvk]} else l.closed,
       inFlight := l.inFlight - {gvk},
       known := l.known - {gvk},
       wired := l.wired - {gvk})
  }

  /** Stops one informer, unless the informer cache refuses to remove it. */
  function Stopping(l: Loop, gvk: Gvk, removed: bool, r: Reply): Loop {
    if !removed then l else Forgetting(l, gvk).(sent := SendAll(l, WaitersFor(l, gvk), r).sent)
  }

  lemma StoppingInTwo(l: Loop, gvk: Gvk, r: Reply)
    ensures Stopping(l, gvk, true, r) == Forgetting(SendAll(l, WaitersFor(l, gvk), r), gvk)
  {
    SendAllFrame(l, WaitersFor(l, gvk), r);
  }

  /** The informer cache has removed the informer, and its handlers with it; the loop still knows the kind. */
  function Losing(l: Loop, gvk: Gvk): Loop {
    l.(wired := l.wired - {gvk})
  }

  /**
   Removal on request asks the informer cache twice, before and inside of the stop, and each answer may
   be a refusal. Nil goes to the waiters if both agree.
   */
  function OnRemove(l: Loop, gvk: Gvk, first: bool, second: bool): Loop {
    if !first then l else Stopping(Losing(l, gvk), gvk, second, Reply(None, Removal))
  }

  /** Removal of several informers; `first` and `second` hold those the informer cache agrees to remove when asked. */
  function OnRemoveAll(l: Loop, order: seq<Gvk>, first: set<Gvk>, second: set<Gvk>): Loop
    decreases |order|
  {
    if order == [] then l
    else OnRemoveAll(OnRemove(l, order[0], order[0] in first, order[0] in second), order[1..], first, second)
  }

  /** A watch error stops the informers of the kinds it maps to, until one cannot be removed. */
  function OnWatchError(l: Loop, gvks: seq<Gvk>, err: Error, removable: set<Gvk>): Loop
    decreases |gvks|
  {
    if gvks == [] then l
    else if gvks[0] !in removable then l
    else OnWatchError(Stopping(l, gvks[0], true, Reply(Some(err), WatchError)), gvks[1..], err, removable)
  }

  // ---------------------------------------------------------------- facts about the handlers

  predicate NoRepeats<T(==)>(s: seq<T>) {
    forall i, j :: 0 <= i < j < |s| ==> s[i] != s[j]
  }

  /** Each listed channel gets the result once, other channels nothing. */
  lemma {:induction false} SendAllEffect(l: Loop, cs: seq<Chan>, r: Reply, c: Chan)
    requires NoRepeats(cs)
    ensures SentTo(SendAll(l, cs, r), c) == SentTo(l, c) + if c in cs then [r] else []
    ensures c in SendAll(l, cs, r).sent <==> c in l.sent || c in cs
  {
    if cs != [] {
      var n := |cs| - 1;
      SendAllEffect(l, cs[..n], r, c);
      assert cs == cs[..n] + [cs[n]];
      assert cs[n] !in cs[..n];
    }
  }

  /** Kinds the loop keeps or cannot remove. */
  function Survivors(known: set<Gvk>, keep: set<Gvk>, removable: set<Gvk>): set<Gvk> {
    known * keep + (known - removable)
  }

  function Kinds(order: seq<Gvk>): set<Gvk> {
    set g | g in order
  }

  lemma KindsCons(order: seq<Gvk>)
    requires order != [] && NoRepeats(order)
    ensures Kinds(order) == {order[0]} + Kinds(order[1..]) && NoRepeats(order[1..])
  {
    assert order == [order[0]] + order[1..];
  }

  lemma StoppingEffect(l: Loop, g: Gvk, removed: bool, r: Reply)
    ensures var l', gone := Stopping(l, g, removed, r), if removed then {g} else {};
            && l'.known == l.known - gone && l'.waiting == l.waiting - gone && l'.inFlight == l.inFlight - gone
            && l'.started == l.started && l'.nextStop == l.nextStop && l'.wired == l.wired - gone
  {
    SendAllFrame(l, WaitersFor(l, g), r);
    assert l.waiting - {} == l.waiting && l.inFlight - {} == l.inFlight;
  }

  lemma RemoveEffect(l: Loop, g: Gvk, first: bool, second: bool)
    ensures var l', gone := OnRemove(l, g, first, second), if first && second then {g} else {};
            && l'.known == l.known - gone && l'.waiting == l.waiting - gone && l'.inFlight == l.inFlight - gone
            && l'.started == l.started && l'.nextStop == l.nextStop
  {
    StoppingEffect(Losing(l, g), g, second, Reply(None, Removal));
    assert l.waiting - {} == l.waiting && l.inFlight - {} == l.inFlight;
  }

  lemma {:induction false} RemoveAllEffect(l: Loop, order: seq<Gvk>, first: set<Gvk>, second: set<Gvk>)
    requires NoRepeats(order)
    ensures var l', stopped := OnRemoveAll(l, order, first, second), Kinds(order) * (first * second);
            && l'.known == l.known - stopped && l'.waiting == l.waiting - stopped && l'.inFlight == l.inFlight - stopped
            && l'.started == l.started && l'.nextStop == l.nextStop
    decreases |order|
  {
    if order == [] {
      assert l.waiting - {} == l.waiting && l.inFlight - {} == l.inFlight;
    } else {
      var g, removable := order[0], first * second;
      var mid := OnRemove(l, g, g in first, g in second);
      RemoveEffect(l, g, g in first, g in second);
      KindsCons(order);
      RemoveAllEffect(mid, order[1..], first, second);
      var here, later := if g in removable then {g} else {}, Kinds(order[1..]) * removable;
      assert Kinds(order) * removable == here + later;
      assert (l.waiting - here) - later == l.waiting - (here + later);
      assert (l.inFlight - here) - later == l.inFlight - (here + later);
    }
  }

  lemma {:induction false} SendAllFrame(l: Loop, cs: seq<Chan>, r: Reply)
    ensures SendAll(l, cs, r) == l.(sent := SendAll(l, cs, r).sent)
  {
    if cs != [] {
      SendAllFrame(l, cs[..|cs| - 1], r);
    }
  }

  /** A sequence that lists a set, each element once, in any order. */
  predicate Lists(order: seq<Gvk>, s: set<Gvk>) {
    NoRepeats(order) && Kinds(order) == s
  }

  /**
   Garbage collection is exact, in whatever order informers are visited: the known kinds afterwards
   are the kept ones and those that could not be removed, and the waiters of the kept ones are untouched.
   */
  lemma CollectionIsExact(l: Loop, keep: set<Gvk>, order: seq<Gvk>, first: set<Gvk>, second: set<Gvk>)
    requires Lists(order, l.known - keep)
    ensures var l' := OnRemoveAll(l, order, first, second);
            && l'.known == Survivors(l.known, keep, first * second)
            && (forall g :: g in keep ==>
                  (g in l'.waiting <==> g in l.waiting) && WaitersFor(l', g) == WaitersFor(l, g))
            && (forall g :: g in keep && g in l.inFlight ==> g in l'.inFlight && l'.inFlight[g] == l.inFlight[g])
  {
    RemoveAllEffect(l, order, first, second);
  }

  // ---------------------------------------------------------------- watch errors

  /** Every channel stands in one queue at most, and once. */
  predicate QueuesApart(l: Loop) {
    && (forall g :: g in l.waiting ==> NoRepeats(l.waiting[g]))
    && (forall g, h, c :: g in l.waiting && h in l.waiting && c in l.waiting[g] && c in l.waiting[h] ==> g == h)
  }

  /** The kinds a watch error stops: those before the first that cannot be removed. */
  function StoppedByError(gvks: seq<Gvk>, removable: set<Gvk>): set<Gvk>
    decreases |gvks|
  {
    if gvks == [] || gvks[0] !in removable then {} else {gvks[0]} + StoppedByError(gvks[1..], removable)
  }

  /** The channel is queued for one of the kinds. */
  predicate QueuedFor(l: Loop, kinds: set<Gvk>, c: Chan) {
    exists g :: g in kinds && c in WaitersFor(l, g)
  }

  lemma StopTellsQueue(l: Loop, g: Gvk, r: Reply, c: Chan)
    requires QueuesApart(l)
    ensures var l' := Stopping(l, g, true, r);
            && QueuesApart(l') && SentTo(l', c) == SentTo(l, c) + (if c in WaitersFor(l, g) then [r] else [])
            && (forall h :: WaitersFor(l', h) == if h == g then [] else WaitersFor(l, h))
  {
    SendAllEffect(l, WaitersFor(l, g), r, c);
    assert SentTo(Stopping(l, g, true, r), c) == SentTo(SendAll(l, WaitersFor(l, g), r), c);
  }

  /**
   A watch error stops exactly the kinds before the first that cannot be removed. Every channel queued for
   one of these is sent that error, once, and no other channel is sent anything.
   */
  lemma {:induction false} WatchErrorIsTold(l: Loop, gvks: seq<Gvk>, err: Error, removable: set<Gvk>, c: Chan)
    requires QueuesApart(l)
    ensures var l', stopped := OnWatchError(l, gvks, err, removable), StoppedByError(gvks, removable);
            && SentTo(l', c) ==
               SentTo(l, c) + (if QueuedFor(l, stopped, c) then [Reply(Some(err), WatchError)] else [])
            && l'.known == l.known - stopped
    decreases |gvks|
  {
    if gvks != [] && gvks[0] in removable {
      var g, r := gvks[0], Reply(Some(err), WatchError);
      var l1, later := Stopping(l, g, true, r), StoppedByError(gvks[1..], removable);
      StopTellsQueue(l, g, r, c);
      StoppingEffect(l, g, true, r);
      WatchErrorIsTold(l1, gvks[1..], err, removable, c);
      QueuedForCons(l, l1, g, later, c);
      assert (l.known - {g}) - later == l.known - ({g} + later);
    }
  }

  lemma QueuedForCons(l: Loop, l1: Loop, g: Gvk, later: set<Gvk>, c: Chan)
    requires QueuesApart(l) && forall h :: WaitersFor(l1, h) == if h == g then [] else WaitersFor(l, h)
    ensures QueuedFor(l, {g} + later, c) <==> c in WaitersFor(l, g) || QueuedFor(l1, later, c)
    ensures !(c in WaitersFor(l, g) && QueuedFor(l1, later, c))
  {
    if QueuedFor(l1, later, c) {
      var h :| h in later && c in WaitersFor(l1, h);
      assert h != g && c in WaitersFor(l, h) && h in {g} + later;
    }
    if c in WaitersFor(l, g) {
      assert g in {g} + later;
    }
    if QueuedFor(l, {g} + later, c) {
      var h :| h in {g} + later && c in WaitersFor(l, h);
      assert h != g ==> h in later && c in WaitersFor(l1, h);
    }
  }

  /** The kind counts as known although its handlers were not wired: the next caller is told all is well. */
  lemma WiringIsNotRetried(l: Loop, gvk: Gvk, first: Chan, second: Chan, err: Error, wiring: Option<Error>)
    requires gvk !in l.known && gvk !in l.waiting && first != second
    ensures var l1 := OnRequest(l, first, gvk, Obtained(Some(err), false));
            var l2 := OnRequest(l1, second, gvk, Obtained(wiring, true));
            && SentTo(l1, first) == SentTo(l, first) + [Reply(Some(err), WiringFailed)]
            && SentTo(l2, second) == SentTo(l, second) + [Reply(None, AlreadySynced)]
            && gvk in l2.known && (gvk in l2.wired <==> gvk in l.wired)
  {
  }

  // ---------------------------------------------------------------- the handlers in place

  class TrackingCache {
    var waitingForSync: map<Gvk, seq<Chan>>
    var cacheWaitInFlight: map<Gvk, Stop>
    var knownInformers: set<Gvk>
    var watchesByUser: map<string, set<Gvk>>

    // Effects on informers, channels and goroutines.
    var wired: set<Gvk>
    var sent: map<Chan, seq<Reply>>
    var closed: multiset<Stop>
    var started: map<Stop, Gvk>
    var nextStop: Stop

    function View(): Loop
      reads this
    {
      Loop(waitingForSync, cacheWaitInFlight, knownInformers, wired, sent, closed, started, nextStop)
    }

    constructor ()
      ensures View() == EMPTY && watchesByUser == map[]
    {
      waitingForSync, cacheWaitInFlight, knownInformers, wired := map[], map[], {}, {};
      sent, closed, started, nextStop := map[], multiset{}, map[], 0;
      watchesByUser := map[];
    }

    method SendResult(c: Chan, r: Reply)
      modifies this`sent
      ensures View() == Send(old(View()), c, r)
    {
      sent := sent[c := (if c in sent then sent[c] else []) + [r]];
    }

    method SendToWaiters(gvk: Gvk, r: Reply)
      modifies this`sent
      ensures View() == SendAll(old(View()), WaitersFor(old(View()), gvk), r)
    {
      var cs := if gvk in waitingForSync then waitingForSync[gvk] else [];
      for i := 0 to |cs|
        invariant View() == SendAll(old(View()), cs[..i], r)
      {
        assert cs[..i + 1][..i] == cs[..i];
        SendResult(cs[i], r);
      }
      assert cs[..|cs|] == cs;
    }

    method HandleSyncResponse(gvk: Gvk, err: Option<Error>)
      modifies this
      ensures View() == OnSync(old(View()), gvk, err) && watchesByUser == old(watchesByUser)
    {
      SendToWaiters(gvk, Reply(err, SyncResponse));
      SendAllFrame(old(View()), WaitersFor(old(View()), gvk), Reply(err, SyncResponse));
      waitingForSync := waitingForSync - {gvk};
      cacheWaitInFlight := cacheWaitInFlight - {gvk};
    }

    method HandleSyncRequest(c: Chan, gvk: Gvk, informer: Informer)
      modifies this
      ensures View() == OnRequest(old(View()), c, gvk, informer) && watchesByUser == old(watchesByUser)
    {
      if gvk in waitingForSync {
        waitingForSync := waitingForSync[gvk := waitingForSync[gvk] + [c]];
        return;
      }
      if informer.Unavailable? {
        SendResult(c, Reply(Some(informer.err), SetupFailed));
        return;
      }
      var isNew := gvk !in knownInformers;
      knownInformers := knownInformers + {gvk};
      if isNew {
        if informer.wiring.Some? {
          SendResult(c, Reply(informer.wiring, WiringFailed));
          return;
        }
        wired := wired + {gvk};
      }
      if informer.synced {
        SendResult(c, Reply(None, AlreadySynced));
        return;
      }
      waitingForSync := waitingForSync[gvk := [c]];
      var stop := nextStop;
      nextStop := nextStop + 1;
      cacheWaitInFlight := cacheWaitInFlight[gvk := stop];
      started := started[stop := gvk];
    }

    method StopInformer(gvk: Gvk, removed: bool, r: Reply)
      modifies this
      ensures View() == Stopping(old(View()), gvk, removed, r) && watchesByUser == old(watchesByUser)
    {
      if !removed {
        return;
      }
      SendToWaiters(gvk, r);
      StoppingInTwo(old(View()), gvk, r);
      ForgetInformer(gvk);
    }

    method ForgetInformer(gvk: Gvk)
      modifies this`waitingForSync, this`cacheWaitInFlight, this`closed, this`knownInformers, this`wired
      ensures View() == Forgetting(old(View()), gvk)
    {
      if gvk in cacheWaitInFlight {
        closed := closed + multiset{cacheWaitInFlight[gvk]};
      }
      waitingForSync, cacheWaitInFlight := waitingForSync - {gvk}, cacheWaitInFlight - {gvk};
      knownInformers, wired := knownInformers - {gvk}, wired - {gvk};
    }

    method RemoveInformer(gvk: Gvk, first: bool, second: bool)
      modifies this
      ensures View() == OnRemove(old(View()), gvk, first, second) && watchesByUser == old(watchesByUser)
    {
      if first {
        wired := wired - {gvk};
        StopInformer(gvk, second, Reply(None, Removal));
      }
    }

    /** Answers false when the loop has to end because an informer cannot be removed. */
    method HandleWatchError(gvks: seq<Gvk>, err: Error, removable: set<Gvk>) returns (ok: bool)
      modifies this
      ensures View() == OnWatchError(old(View()), gvks, err, removable) && watchesByUser == old(watchesByUser)
      ensures ok <==> forall i :: 0 <= i < |gvks| ==> gvks[i] in removable
    {
      assert gvks[0..] == gvks;
      for i := 0 to |gvks|
        invariant forall j :: 0 <= j < i ==> gvks[j] in removable
        invariant OnWatchError(View(), gvks[i..], err, removable) == OnWatchError(old(View()), gvks, err, removable)
        invariant watchesByUser == old(watchesByUser)
      {
        assert gvks[i..][0] == gvks[i] && gvks[i..][1..] == gvks[i + 1..];
        if gvks[i] !in removable {
          return false;
        }
        StopInformer(gvks[i], true, Reply(Some(err), WatchError));
      }
      ok := true;
    }

    /** The unsorted list of informers to stop is visited in some order. */
    method RemoveOtherInformers(keep: set<Gvk>, first: set<Gvk>, second: set<Gvk>)
      returns (ghost order: seq<Gvk>, failed: set<Gvk>)
      modifies this
      ensures Lists(order, old(knownInformers) - keep)
      ensures View() == OnRemoveAll(old(View()), order, first, second) && watchesByUser == old(watchesByUser)
      ensures failed == old(knownInformers) - keep - first * second
    {
      var todo := knownInformers - keep;
      ghost var all := todo;
      order, failed := [], {};
      while todo != {}
        invariant Visited(all, todo, order, first * second, failed)
        invariant View() == OnRemoveAll(old(View()), order, first, second) && watchesByUser == old(watchesByUser)
        decreases |todo|
      {
        var gvk :| gvk in todo;
        RemoveOneMore(old(View()), order, gvk, first, second);
        VisitOneMore(all, todo, order, first * second, failed, gvk);
        RemoveInformer(gvk, gvk in first, gvk in second);
        if !(gvk in first && gvk in second) {
          failed := failed + {gvk};
        }
        order := order + [gvk];
        todo := todo - {gvk};
      }
    }

    /** The union of what all users watch is what informers are kept for. */
    method KindsInUse() returns (inUse: set<Gvk>)
      ensures forall g :: g in inUse <==> exists u :: u in watchesByUser && g in watchesByUser[u]
    {
      inUse := {};
      var users := watchesByUser.Keys;
      while users != {}
        invariant users <= watchesByUser.Keys
        invariant forall g :: g in inUse <==> exists u :: u in watchesByUser && u !in users && g in watchesByUser[u]
        decreases |users|
      {
        var u :| u in users;
        inUse := inUse + watchesByUser[u];
        users := users - {u};
      }
    }

    /** A user replaces what it watches, unless the wait for the new kinds, before this call, has failed. */
    method Watch(user: string, gvks: set<Gvk>, waited: bool, first: set<Gvk>, second: set<Gvk>)
      returns (failed: set<Gvk>)
      modifies this
      ensures !waited ==> View() == old(View()) && watchesByUser == old(watchesByUser) && failed == {}
      ensures waited ==> watchesByUser == old(watchesByUser)[user := gvks]
      ensures failed <= knownInformers
      ensures waited ==> forall g :: g in knownInformers <==>
                g in old(knownInformers) &&
                (!(g in first && g in second) || exists u :: u in watchesByUser && g in watchesByUser[u])
      ensures forall g :: g in gvks && g in old(waitingForSync) ==>
                g in waitingForSync && waitingForSync[g] == old(waitingForSync)[g]
    {
      if !waited {
        return {};
      }
      watchesByUser := watchesByUser[user := gvks];
      var keep := KindsInUse();
      ghost var before := View();
      ghost var order;
      order, failed := RemoveOtherInformers(keep, first, second);
      CollectionIsExact(before, keep, order, first, second);
      assert forall g :: g in gvks ==> g in watchesByUser[user] && g in keep;
    }

    /** A user stops watching: afterwards only informers somebody still watches, or that resist removal, are known. */
    method Free(user: string, first: set<Gvk>, second: set<Gvk>) returns (failed: set<Gvk>)
      modifies this
      ensures watchesByUser == old(watchesByUser) - {user}
      ensures failed <= knownInformers
      ensures forall g :: g in knownInformers <==>
                g in old(knownInformers) &&
                (!(g in first && g in second) || exists u :: u in watchesByUser && g in watchesByUser[u])
    {
      watchesByUser := watchesByUser - {user};
      var keep := KindsInUse();
      ghost var before := View();
      ghost var order;
      order, failed := RemoveOtherInformers(keep, first, second);
      CollectionIsExact(before, keep, order, first, second);
    }
  }

  /** Some of `all` have been visited in order, the others are still to do. */
  ghost predicate Visited(all: set<Gvk>, todo: set<Gvk>, order: seq<Gvk>, removable: set<Gvk>, failed: set<Gvk>) {
    && todo <= all
    && Lists(order, all - todo)
    && failed == all - todo - removable
  }

  lemma VisitOneMore(all: set<Gvk>, todo: set<Gvk>, order: seq<Gvk>, removable: set<Gvk>, failed: set<Gvk>, g: Gvk)
    requires Visited(all, todo, order, removable, failed) && g in todo
    ensures Visited(all, todo - {g}, order + [g], removable, if g in removable then failed else failed + {g})
  {
    KindsSnoc(order, g);
    assert all - (todo - {g}) == (all - todo) + {g};
  }

  lemma KindsSnoc(order: seq<Gvk>, g: Gvk)
    requires NoRepeats(order) && g !in Kinds(order)
    ensures Kinds(order + [g]) == Kinds(order) + {g} && NoRepeats(order + [g])
  {
    assert forall x :: x in order ==> x in Kinds(order);
  }

  lemma {:induction false} RemoveOneMore(l: Loop, order: seq<Gvk>, g: Gvk, first: set<Gvk>, second: set<Gvk>)
    ensures OnRemoveAll(l, order + [g], first, second) ==
            OnRemove(OnRemoveAll(l, order, first, second), g, g in first, g in second)
    decreases |order|
  {
    if order == [] {
      assert ([] + [g])[1..] == [];
    } else {
      assert (order + [g])[1..] == order[1..] + [g];
      RemoveOneMore(OnRemove(l, order[0], order[0] in first, order[0] in second), order[1..], g, first, second);
    }
  }
}
