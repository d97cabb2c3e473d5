/**
 The lock on the map of accessors (managedcache/objectboundaccess.go). Every handler of the access
 manager takes it for writing before it does anything. Listings of watchers and metrics take it for
 reading, and while they hold it they read every cache, for which they need its access lock.
 */
module AccessLocks {
  import opened Basics
  import opened AccessManager
  import Protocol = AccessManager

  type Lister = nat

  /**
   `listers` hold the lock on the accessors for reading; a lister that is about to read a cache stands at
   it. `queued` is the message the loop has received and not begun to handle.
   */
  datatype Sys = Sys(m: Manager, listers: map<Lister, Option<Id>>, queued: Option<Protocol.Step>)

  const IDLE: Sys := Sys(EMPTY_MANAGER, map[], None)

  datatype Step =
    | Receives(message: Protocol.Step)
    | Handled
    | ListerEnters(l: Lister)
    | ListerAsks(l: Lister, id: Id)
    | ListerReads(l: Lister)
    | ListerLeaves(l: Lister)
    | Meanwhile(t: Protocol.Step)

  /** A handler that has begun and not finished holds the lock on the accessors. */
  predicate InHandler(m: Manager) {
    m.status.AwaitsLock? || m.status.Stuck?
  }

  predicate Enabled(s: Sys, t: Step) {
    match t
    case Receives(message) => s.queued.None? && Handles(message) && Protocol.Enabled(s.m, message)
    case Handled => s.queued.Some? && s.listers == map[]
    case ListerEnters(l) => l !in s.listers && s.queued.None? && !InHandler(s.m)
    case ListerAsks(l, id) => l in s.listers && s.listers[l].None? && id < |s.m.caches| && Shared(s.m, id)
    case ListerReads(l) =>
      l in s.listers && s.listers[l].Some? && s.listers[l].value < |s.m.caches| &&
      s.m.caches[s.listers[l].value].writers == 0
    case ListerLeaves(l) => l in s.listers && s.listers[l].None?
    case Meanwhile(t) => !Handles(t)
  }

  function Take(s: Sys, t: Step): Sys
    requires Indexed(s.m) && Enabled(s, t)
  {
    match t
    case Receives(message) => s.(queued := Some(message))
    case Handled => s.(m := Protocol.Next(s.m, s.queued.value), queued := None)
    case ListerEnters(l) => s.(listers := s.listers[l := None])
    case ListerAsks(l, id) => s.(listers := s.listers[l := Some(id)])
    case ListerReads(l) => s.(listers := s.listers[l := None])
    case ListerLeaves(l) => s.(listers := s.listers - {l})
    case Meanwhile(t) => s.(m := Protocol.Next(s.m, t))
  }

  function Next(s: Sys, t: Step): (s': Sys)
    requires Indexed(s.m)
    ensures Indexed(s'.m) && |s.m.caches| <= |s'.m.caches|
  {
    if Enabled(s, t) then Take(s, t) else s
  }

  function Run(s: Sys, steps: seq<Step>): (s': Sys)
    requires Indexed(s.m)
    ensures Indexed(s'.m) && |s.m.caches| <= |s'.m.caches|
    decreases |steps|
  {
    if steps == [] then s else Run(Next(s, steps[0]), steps[1..])
  }

  // ---------------------------------------------------------------- the manager is the same

  /** What the manager does in a run with listers it does in a run of its own, so what holds there holds here. */
  lemma {:induction false} RunIsManagersRun(s: Sys, steps: seq<Step>) returns (own: seq<Protocol.Step>)
    requires Indexed(s.m)
    ensures Run(s, steps).m == Protocol.Run(s.m, own)
    decreases |steps|
  {
    if steps == [] {
      own := [];
    } else {
      var t := steps[0];
      var rest := RunIsManagersRun(Next(s, t), steps[1..]);
      if Enabled(s, t) && (t.Handled? || t.Meanwhile?) {
        var one := if t.Handled? then s.queued.value else t.t;
        own := [one] + rest;
        assert own[1..] == rest;
      } else {
        own := rest;
      }
    }
  }

  lemma EntriesAreOpenWithListers(steps: seq<Step>)
    ensures Inv(Run(IDLE, steps).m)
  {
    var own := RunIsManagersRun(IDLE, steps);
    Protocol.RunKeepsInv(EMPTY_MANAGER, own);
  }

  // ---------------------------------------------------------------- who blocks the loop

  /** The loop waits for nothing. */
  predicate Idle(s: Sys) {
    s.queued.None? && s.m.status.Serving?
  }

  /**
   A message is dealt with as soon as it is handled, exactly when nobody lists the accessors and its
   handler does not block: otherwise the loop stands in line for the lock on the accessors, or for that
   of the cache it collects, or blocks on a cache that has ended.
   */
  lemma DealtWithExactly(s: Sys, message: Protocol.Step)
    requires Inv(s.m) && Enabled(s, Receives(message))
    requires s.m.status.Serving?
    ensures var s' := Next(Next(s, Receives(message)), Handled);
            var cache := if Collects(s.m, message) then Some(s.m.caches[s.m.accessors[message.owner].cache]) else None;
            && (s'.queued.Some? <==> s.listers != map[])
            && (s'.queued.None? && InHandler(s'.m) <==>
                  s.listers == map[] && cache.Some? && (!cache.value.Unlocked() || cache.value.life.Done?))
  {
    BlocksExactly(s.m, message);
  }

  /** A message in line is handled exactly when the last lister has left. */
  lemma LineEndsExactly(s: Sys, t: Step)
    requires Indexed(s.m) && s.queued.Some?
    ensures Next(s, t).queued != s.queued <==> t.Handled? && s.listers == map[]
  {
  }

  /** A reader holds the access lock, a writer stands in line behind it, and a lister behind the writer. */
  predicate Jammed(s: Sys, l: Lister, id: Id) {
    && s.queued.Some? && l in s.listers && s.listers[l] == Some(id)
    && id < |s.m.caches| && s.m.caches[id].readers > 0 && s.m.caches[id].writers > 0
  }

  predicate ReaderStays(steps: seq<Step>, id: Id) {
    forall i :: 0 <= i < |steps| ==> steps[i] != Meanwhile(ReaderLeaves(id))
  }

  /** The handlers do not touch locks, and neither do other caches' callers. */
  lemma LocksStay(m: Manager, t: Protocol.Step, id: Id)
    requires Inv(m) && id < |m.caches| && m.caches[id].readers > 0 && m.caches[id].writers > 0
    requires !Handles(t) && t != ReaderLeaves(id)
    ensures Protocol.Next(m, t).caches[id].readers > 0 && Protocol.Next(m, t).caches[id].writers > 0
  {
  }

  lemma StepKeepsJam(s: Sys, t: Step, l: Lister, id: Id)
    requires Inv(s.m) && Jammed(s, l, id) && t != Meanwhile(ReaderLeaves(id))
    ensures Jammed(Next(s, t), l, id) && Inv(Next(s, t).m) && Next(s, t).queued == s.queued
  {
    if t.Meanwhile? && Enabled(s, t) {
      LocksStay(s.m, t.t, id);
      Protocol.StepKeepsInv(s.m, t.t);
    }
  }

  /**
   One reader of one cache that does not leave keeps the loop from handling anything, for whatever owner,
   however the run goes on: a writer waits for the reader, a lister for the writer, the loop for the lister.
   */
  lemma {:induction false} JamLasts(s: Sys, steps: seq<Step>, l: Lister, id: Id)
    requires Inv(s.m) && Jammed(s, l, id) && ReaderStays(steps, id)
    ensures Run(s, steps).queued == s.queued && Run(s, steps).m.accessors == s.m.accessors
    decreases |steps|
  {
    if steps != [] {
      StepKeepsJam(s, steps[0], l, id);
      AccessorsStay(s, steps[0]);
      JamLasts(Next(s, steps[0]), steps[1..], l, id);
    }
  }

  /** Only handlers change the map of accessors. */
  lemma AccessorsStay(s: Sys, t: Step)
    requires Inv(s.m) && (t.Handled? ==> s.listers != map[])
    ensures Next(s, t).m.accessors == s.m.accessors
  {
  }

  /** The jam can come about in every state in which the loop is idle and has a running cache, for every message. */
  lemma AnyMessageCanJam(s: Sys, id: Id, l: Lister, message: Protocol.Step) returns (steps: seq<Step>)
    requires Inv(s.m) && Idle(s) && s.listers == map[] && id < |s.m.caches| && Shared(s.m, id)
    requires s.m.caches[id].Unlocked()
    requires Handles(message) && Protocol.Enabled(s.m, message)
    ensures var s' := Run(s, steps); Inv(s'.m) && Jammed(s', l, id) && s'.queued == Some(message)
  {
    var c := s.m.caches[id];
    var m1 := s.m.(caches := s.m.caches[id := c.(readers := 1)]);
    var m2 := s.m.(caches := s.m.caches[id := c.(readers := 1, writers := 1)]);
    steps := [Meanwhile(ReaderEnters(id)), Meanwhile(WriterQueues(id)),
              ListerEnters(l), ListerAsks(l, id), Receives(message)];
    var s1, s2 := s.(m := m1), s.(m := m2);
    assert Next(s, steps[0]) == s1;
    assert Next(s1, steps[1]) == s2 by {
      assert m1.caches[id := c.(readers := 1, writers := 1)] == m2.caches;
    }
    Protocol.StepKeepsInv(s.m, ReaderEnters(id));
    Protocol.StepKeepsInv(m1, WriterQueues(id));
    var s3 := s2.(listers := map[l := None]);
    var s4 := s2.(listers := map[l := Some(id)]);
    assert Next(s2, steps[2]) == s3 && Next(s3, steps[3]) == s4;
    assert Protocol.Enabled(m2, message);
    var s5 := s4.(queued := Some(message));
    assert Next(s4, steps[4]) == s5;
    RunFive(s, steps, s1, s2, s3, s4);
  }

  lemma RunFive(s: Sys, steps: seq<Step>, s1: Sys, s2: Sys, s3: Sys, s4: Sys)
    requires Indexed(s.m) && |steps| == 5
    requires Next(s, steps[0]) == s1 && Next(s1, steps[1]) == s2 && Next(s2, steps[2]) == s3 && Next(s3, steps[3]) == s4
    ensures Run(s, steps) == Next(s4, steps[4])
  {
    assert Run(s3, steps[3..]) == Run(s4, steps[4..]) && Run(s4, steps[4..]) == Run(Next(s4, steps[4]), steps[5..]);
    assert Run(s2, steps[2..]) == Run(s3, steps[3..]);
    assert Run(s1, steps[1..]) == Run(s2, steps[2..]);
  }
}
