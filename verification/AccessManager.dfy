/**
 The loop of the object-bound access manager (managedcache/objectboundaccess.go): one cache per owner,
 shared by users, closed when the last user leaves.

 Whether a cache can be created, when a cache ends and which informers it agrees to remove are
 arguments of the steps. The removal of informers needs the access lock of the cache for itself, which
 others may hold; that the handlers need the lock on the map of accessors as well is the subject of
 AccessLocks. Context cancellation of the manager itself is not a step.
 */
module AccessManager {
  import opened Basics
  import opened TrackingCache

  /** Kind, name and UID of an owner or of a user. */
  type Key = string

  type Id = nat

  /** The goroutine of a cache: running, blocked until the loop takes its done message, or over. */
  datatype Life = Working | Done(crash: bool) | Reported

  /**
   `readers` are the calls that hold the access lock of the cache for reading, as sync calls do while they
   wait; `writers` those that hold it for writing or stand in line for that, as users do to free a cache.
   */
  datatype Cache = Cache(key: Key, cancels: nat, life: Life, known: set<Gvk>, readers: nat, writers: nat)
  {
    predicate Unlocked() {
      readers == 0 && writers == 0
    }
  }

  datatype Entry = Entry(cache: Id, users: map<Key, set<Gvk>>)

  /**
   The loop serves, has returned because a cache crashed, stands in line for the access lock of an
   owner's cache, or blocks on a cache that no longer listens.
   */
  datatype Status = Serving | Crashed | AwaitsLock(key: Key) | Stuck

  datatype Manager = Manager(accessors: map<Key, Entry>, caches: seq<Cache>, status: Status)

  const EMPTY_MANAGER: Manager := Manager(map[], [], Serving)

  /** What a request is answered with: an accessor, and whether there was an error. */
  datatype Response = Response(cache: Option<Id>, failed: bool)

  /** Entries refer to caches that exist. */
  predicate Indexed(m: Manager) {
    forall k :: k in m.accessors ==> m.accessors[k].cache < |m.caches|
  }

  function InUse(users: map<Key, set<Gvk>>): set<Gvk> {
    set u, g | u in users && g in users[u] :: g
  }

  // ---------------------------------------------------------------- the handlers

  /** Closes the owner's cache if nobody uses it, and removes informers nobody uses otherwise. */
  function Collected(m: Manager, key: Key, removable: set<Gvk>): (m': Manager)
    requires Indexed(m)
    ensures Indexed(m') && |m'.caches| == |m.caches|
  {
    if key !in m.accessors then m
    else
      var e := m.accessors[key];
      var c := m.caches[e.cache];
      if |e.users| == 0 then
        m.(accessors := m.accessors - {key}, caches := m.caches[e.cache := c.(cancels := c.cancels + 1)])
      else if !c.Unlocked() then m.(status := AwaitsLock(key))
      else Removed(m, key, removable)
  }

  /** The removal of informers once the access lock is held: the cache has to be there to carry it out. */
  function Removed(m: Manager, key: Key, removable: set<Gvk>): (m': Manager)
    requires Indexed(m) && key in m.accessors
    ensures Indexed(m') && |m'.caches| == |m.caches|
  {
    var e := m.accessors[key];
    var c := m.caches[e.cache];
    if !c.life.Working? then m.(status := Stuck)
    else
      var known := Survivors(c.known, InUse(e.users), removable);
      m.(caches := m.caches[e.cache := c.(known := known)], status := Serving)
  }

  /** Whether that collection reports an error. */
  function CollectFails(m: Manager, key: Key, removable: set<Gvk>): bool
    requires Indexed(m)
  {
    key in m.accessors && |m.accessors[key].users| != 0 &&
    m.caches[m.accessors[key].cache].known - InUse(m.accessors[key].users) - removable != {}
  }

  function WithUser(m: Manager, key: Key, user: Option<Key>, gvks: set<Gvk>): (m': Manager)
    requires Indexed(m) && key in m.accessors
    ensures Indexed(m') && m'.caches == m.caches
  {
    if user.None? then m
    else m.(accessors := m.accessors[key := m.accessors[key].(users := m.accessors[key].users[user.value := gvks])])
  }

  function WithoutUser(m: Manager, key: Key, user: Option<Key>): (m': Manager)
    requires Indexed(m) && key in m.accessors
    ensures Indexed(m') && m'.caches == m.caches
  {
    if user.None? then m
    else m.(accessors := m.accessors[key := m.accessors[key].(users := m.accessors[key].users - {user.value})])
  }

  function Opened(m: Manager, key: Key): (m': Manager)
    requires Indexed(m)
    ensures Indexed(m')
  {
    m.(accessors := m.accessors[key := Entry(|m.caches|, map[])],
       caches := m.caches + [Cache(key, 0, Working, {}, 0, 0)])
  }

  /** `creatable` says whether configuration, cache and client can be made. */
  function OnAccess(m: Manager, owner: Key, user: Option<Key>, gvks: set<Gvk>, creatable: bool,
                    removable: set<Gvk>): Manager
    requires Indexed(m)
  {
    if owner in m.accessors then Collected(WithUser(m, owner, user, gvks), owner, removable)
    else if !creatable then m
    else WithUser(Opened(m, owner), owner, user, gvks)
  }

  /** The answer, if the handler gets to it without blocking. */
  function AccessResponse(m: Manager, owner: Key, user: Option<Key>, gvks: set<Gvk>, creatable: bool,
                          removable: set<Gvk>)
    : Option<Response>
    requires Indexed(m)
  {
    if owner in m.accessors then
      var m1 := WithUser(m, owner, user, gvks);
      if !Collected(m1, owner, removable).status.Serving? then None
      else Some(Response(Some(m.accessors[owner].cache), CollectFails(m1, owner, removable)))
    else if !creatable then Some(Response(None, true))
    else Some(Response(Some(|m.caches|), false))
  }

  function OnStop(m: Manager, owner: Key, user: Option<Key>, removable: set<Gvk>): Manager
    requires Indexed(m)
  {
    if owner in m.accessors then Collected(WithoutUser(m, owner, user), owner, removable) else m
  }

  /** A done message names its owner only: whatever entry the owner has now is dropped. */
  function OnDone(m: Manager, id: Id): Manager
    requires id < |m.caches|
  {
    var c := m.caches[id];
    m.(accessors := m.accessors - {c.key}, caches := m.caches[id := c.(life := Reported)],
       status := if c.life == Done(true) then Crashed else m.status)
  }

  // ---------------------------------------------------------------- steps and runs

  datatype Step =
    | Access(owner: Key, user: Option<Key>, gvks: set<Gvk>, creatable: bool, removable: set<Gvk>)
    | StopAccess(owner: Key, user: Option<Key>, removable: set<Gvk>)
    | CacheEnds(id: Id, crash: bool)
    | CacheLearns(id: Id, gvk: Gvk)
    | LoopTakesDone(id: Id)
    | ReaderEnters(id: Id)
    | ReaderLeaves(id: Id)
    | WriterQueues(id: Id)
    | WriterLeaves(id: Id)
    | LoopGetsLock(removable: set<Gvk>)

  /** The loop stands in line for the access lock of the cache. */
  predicate LoopInLine(m: Manager, id: Id) {
    m.status.AwaitsLock? && m.status.key in m.accessors && m.accessors[m.status.key].cache == id
  }

  predicate Enabled(m: Manager, t: Step) {
    match t
    case Access(_, _, _, _, _) => m.status.Serving?
    case StopAccess(_, _, _) => m.status.Serving?
    case CacheEnds(id, _) => id < |m.caches| && m.caches[id].life.Working?
    case CacheLearns(id, _) => id < |m.caches| && m.caches[id].life.Working?
    case LoopTakesDone(id) => m.status.Serving? && id < |m.caches| && m.caches[id].life.Done?
    case ReaderEnters(id) =>
      // A writer in line keeps new readers out, and the loop may be one.
      id < |m.caches| && m.caches[id].writers == 0 && !LoopInLine(m, id)
    case ReaderLeaves(id) => id < |m.caches| && m.caches[id].readers > 0
    case WriterQueues(id) => id < |m.caches| && !LoopInLine(m, id)
    case WriterLeaves(id) => id < |m.caches| && m.caches[id].writers > 0 && m.caches[id].readers == 0
    case LoopGetsLock(_) =>
      m.status.AwaitsLock? && m.status.key in m.accessors && m.accessors[m.status.key].cache < |m.caches|
      && m.caches[m.accessors[m.status.key].cache].Unlocked()
  }

  function Take(m: Manager, t: Step): Manager
    requires Indexed(m) && Enabled(m, t)
  {
    match t
    case Access(owner, user, gvks, creatable, removable) => OnAccess(m, owner, user, gvks, creatable, removable)
    case StopAccess(owner, user, removable) => OnStop(m, owner, user, removable)
    case CacheEnds(id, crash) => m.(caches := m.caches[id := m.caches[id].(life := Done(crash))])
    case CacheLearns(id, gvk) => m.(caches := m.caches[id := m.caches[id].(known := m.caches[id].known + {gvk})])
    case LoopTakesDone(id) => OnDone(m, id)
    case ReaderEnters(id) => m.(caches := m.caches[id := m.caches[id].(readers := m.caches[id].readers + 1)])
    case ReaderLeaves(id) => m.(caches := m.caches[id := m.caches[id].(readers := m.caches[id].readers - 1)])
    case WriterQueues(id) => m.(caches := m.caches[id := m.caches[id].(writers := m.caches[id].writers + 1)])
    case WriterLeaves(id) => m.(caches := m.caches[id := m.caches[id].(writers := m.caches[id].writers - 1)])
    case LoopGetsLock(removable) => Removed(m, m.status.key, removable)
  }

  function Next(m: Manager, t: Step): (m': Manager)
    requires Indexed(m)
    ensures Indexed(m') && |m.caches| <= |m'.caches|
  {
    if Enabled(m, t) then Take(m, t) else m
  }

  function Run(m: Manager, steps: seq<Step>): (m': Manager)
    requires Indexed(m)
    ensures Indexed(m') && |m.caches| <= |m'.caches|
    decreases |steps|
  {
    if steps == [] then m else Run(Next(m, steps[0]), steps[1..])
  }

  // ---------------------------------------------------------------- every reachable state

  /** The cache an owner's entry refers to. */
  predicate Shared(m: Manager, id: Id)
    requires id < |m.caches|
  {
    var k := m.caches[id].key;
    k in m.accessors && m.accessors[k].cache == id
  }

  /** Neither cancelled nor known to be over. */
  predicate Open(c: Cache) {
    c.cancels == 0 && !c.life.Reported?
  }

  /**
   Every entry refers to a cache of its own owner that has an uncalled cancel and an unprocessed done
   message, no cancel was called twice, and the loop waits for the lock of a used cache only.
   */
  predicate Inv(m: Manager) {
    && Indexed(m)
    && (forall k :: k in m.accessors ==>
          m.caches[m.accessors[k].cache].key == k && Open(m.caches[m.accessors[k].cache]))
    && (forall id :: 0 <= id < |m.caches| ==> m.caches[id].cancels <= 1)
    && (m.status.AwaitsLock? ==> m.status.key in m.accessors && |m.accessors[m.status.key].users| != 0)
  }

  /**
   How a cache fares: its entry does not come back, only a cache with an entry is cancelled, and losing the
   entry takes a cancel.
   */
  predicate Fares(m: Manager, m': Manager, id: Id)
    requires id < |m.caches| && id < |m'.caches|
  {
    var c, c' := m.caches[id], m'.caches[id];
    && c'.key == c.key
    && (c.life.Reported? ==> c'.life.Reported?)
    && (!Shared(m, id) ==> !Shared(m', id) && c'.cancels == c.cancels)
    && (Open(c') && Shared(m, id) ==> Shared(m', id))
  }

  lemma CollectionEffect(m: Manager, key: Key, removable: set<Gvk>)
    requires Inv(m)
    ensures var m' := Collected(m, key, removable);
            Inv(m') && |m'.caches| == |m.caches| && forall id :: 0 <= id < |m.caches| ==> Fares(m, m', id)
  {
    var m' := Collected(m, key, removable);
    if key in m.accessors {
      var mine := m.accessors[key].cache;
      assert m.caches[mine].key == key;
      forall id | 0 <= id < |m.caches| ensures Fares(m, m', id) {
        assert id != mine ==> m'.caches[id] == m.caches[id];
        assert m'.caches[mine].key == key && m'.caches[mine].life == m.caches[mine].life;
      }
    }
  }

  /** Registering or dropping a user changes no cache. */
  lemma UserEffect(m: Manager, m': Manager, key: Key)
    requires Inv(m) && key in m.accessors
    requires m'.caches == m.caches && key in m'.accessors && m'.accessors == m.accessors[key := m'.accessors[key]]
    requires m'.accessors[key].cache == m.accessors[key].cache
    requires !m.status.AwaitsLock? && m'.status == m.status
    ensures Inv(m') && forall id :: 0 <= id < |m.caches| ==> Shared(m', id) == Shared(m, id)
  {
  }

  lemma CollectAfterUser(m: Manager, m1: Manager, key: Key, removable: set<Gvk>)
    requires Inv(m) && key in m.accessors
    requires m1.caches == m.caches && key in m1.accessors && m1.accessors == m.accessors[key := m1.accessors[key]]
    requires m1.accessors[key].cache == m.accessors[key].cache && !m.status.AwaitsLock? && m1.status == m.status
    ensures Indexed(m1)
    ensures var m' := Collected(m1, key, removable);
            Inv(m') && |m'.caches| == |m.caches| && forall id :: 0 <= id < |m.caches| ==> Fares(m, m', id)
  {
    UserEffect(m, m1, key);
    CollectionEffect(m1, key, removable);
    var m' := Collected(m1, key, removable);
    forall id | 0 <= id < |m.caches| ensures Fares(m, m', id) {
      assert Fares(m1, m', id);
    }
  }

  lemma OpenEffect(m: Manager, key: Key, user: Option<Key>, gvks: set<Gvk>)
    requires Inv(m) && key !in m.accessors && m.status.Serving?
    ensures var m' := WithUser(Opened(m, key), key, user, gvks);
            && Inv(m') && |m'.caches| == |m.caches| + 1 && Shared(m', |m.caches|) && m'.caches[|m.caches|].key == key
            && forall id :: 0 <= id < |m.caches| ==> m'.caches[id] == m.caches[id] && Shared(m', id) == Shared(m, id)
  {
    var m' := WithUser(Opened(m, key), key, user, gvks);
    assert m'.accessors[key].cache == |m.caches|;
    forall k | k in m'.accessors
      ensures m'.caches[m'.accessors[k].cache].key == k && Open(m'.caches[m'.accessors[k].cache])
    {
      if k != key {
        assert m'.accessors[k] == m.accessors[k];
      }
    }
  }

  lemma AccessEffect(m: Manager, t: Step)
    requires Inv(m) && t.Access? && Enabled(m, t)
    ensures var m' := Take(m, t);
            && Inv(m') && (forall id :: 0 <= id < |m.caches| ==> Fares(m, m', id))
            && (|m'.caches| > |m.caches| ==>
                  && t.owner !in m.accessors && |m'.caches| == |m.caches| + 1
                  && Shared(m', |m.caches|) && m'.caches[|m.caches|].key == t.owner
                  && m'.caches[..|m.caches|] == m.caches)
  {
    if t.owner in m.accessors {
      var m1 := WithUser(m, t.owner, t.user, t.gvks);
      CollectAfterUser(m, m1, t.owner, t.removable);
    } else if t.creatable {
      OpenEffect(m, t.owner, t.user, t.gvks);
    }
  }

  lemma StopEffect(m: Manager, t: Step)
    requires Inv(m) && t.StopAccess? && Enabled(m, t)
    ensures var m' := Take(m, t);
            Inv(m') && |m'.caches| == |m.caches| && forall id :: 0 <= id < |m.caches| ==> Fares(m, m', id)
  {
    if t.owner in m.accessors {
      var m1 := WithoutUser(m, t.owner, t.user);
      CollectAfterUser(m, m1, t.owner, t.removable);
    }
  }

  /** A done message drops the entry of its owner, which may be that of a newer cache. */
  lemma DoneEffect(m: Manager, id: Id)
    requires Inv(m) && Enabled(m, LoopTakesDone(id))
    ensures var m' := OnDone(m, id);
            && Inv(m') && |m'.caches| == |m.caches| && m'.caches[id].life.Reported?
            && forall i :: 0 <= i < |m.caches| ==>
                 && m'.caches[i].key == m.caches[i].key && m'.caches[i].cancels == m.caches[i].cancels
                 && (i != id ==> m'.caches[i] == m.caches[i])
                 && (Shared(m', i) <==> Shared(m, i) && m.caches[i].key != m.caches[id].key)
  {
  }

  /** The step is a message to the loop. */
  predicate Handles(t: Step) {
    t.Access? || t.StopAccess? || t.LoopTakesDone?
  }

  /** What a cache and its readers do, and what the loop does to it when they have left. */
  lemma CacheEffect(m: Manager, t: Step)
    requires Inv(m) && Enabled(m, t) && !Handles(t)
    ensures var m' := Take(m, t);
            && Inv(m') && |m'.caches| == |m.caches|
            && forall i :: 0 <= i < |m.caches| ==> Fares(m, m', i) && m'.caches[i].cancels == m.caches[i].cancels
  {
  }

  lemma StepFares(m: Manager, t: Step, id: Id)
    requires Inv(m) && Enabled(m, t) && !t.LoopTakesDone? && id < |m.caches|
    ensures Fares(m, Next(m, t), id)
  {
    match t {
      case Access(_, _, _, _, _) => AccessEffect(m, t);
      case StopAccess(_, _, _) => StopEffect(m, t);
      case _ => CacheEffect(m, t);
    }
  }

  lemma StepKeepsInv(m: Manager, t: Step)
    requires Inv(m)
    ensures Inv(Next(m, t))
  {
    if Enabled(m, t) {
      match t {
        case Access(_, _, _, _, _) => AccessEffect(m, t);
        case StopAccess(_, _, _) => StopEffect(m, t);
        case LoopTakesDone(id) => DoneEffect(m, id);
        case _ => CacheEffect(m, t);
      }
    }
  }

  lemma {:induction false} RunKeepsInv(m: Manager, steps: seq<Step>)
    requires Inv(m)
    ensures Inv(Run(m, steps))
    decreases |steps|
  {
    if steps != [] {
      StepKeepsInv(m, steps[0]);
      RunKeepsInv(Next(m, steps[0]), steps[1..]);
    }
  }

  /** In every run, entries are open and cancels are called at most once. */
  lemma EntriesAreOpen(steps: seq<Step>)
    ensures var m := Run(EMPTY_MANAGER, steps);
            && (forall k :: k in m.accessors ==>
                  m.caches[m.accessors[k].cache].key == k && Open(m.caches[m.accessors[k].cache]))
            && (forall id :: 0 <= id < |m.caches| ==> m.caches[id].cancels <= 1)
  {
    RunKeepsInv(EMPTY_MANAGER, steps);
  }

  // ---------------------------------------------------------------- requests

  /**
   The accessor of the owner after a request: it is the owner's and open, with the user registered, unless
   the request names no user and finds a cache without users, which it closes. The request is answered
   with that accessor exactly if the loop does not block on the way, and with an error exactly if nothing
   could be created or a kind nobody needs could not be removed.
   */
  lemma AnswerIsShared(m: Manager, owner: Key, user: Option<Key>, gvks: set<Gvk>, creatable: bool, removable: set<Gvk>)
    requires Inv(m) && m.status.Serving?
    ensures var m', r := Next(m, Access(owner, user, gvks, creatable, removable)),
                         AccessResponse(m, owner, user, gvks, creatable, removable);
            var id := if owner in m.accessors then m.accessors[owner].cache else |m.caches|;
            && (r.Some? <==> m'.status.Serving?)
            && (r.Some? ==> (r.value.cache.None? <==> owner !in m.accessors && !creatable))
            && (r.Some? && r.value.cache.Some? ==> r.value.cache.value == id)
            && (r.Some? ==> (r.value.failed <==> r.value.cache.None? || KeepsUnneeded(m', owner)))
            && (owner in m.accessors || creatable ==>
                  && id < |m'.caches| && m'.caches[id].key == owner
                  && (Shared(m', id) <==> user.Some? || owner !in m.accessors || m.accessors[owner].users != map[])
                  && (Open(m'.caches[id]) <==> Shared(m', id))
                  && (user.Some? ==>
                        m'.accessors[owner].users ==
                        (if owner in m.accessors then m.accessors[owner].users else map[])[user.value := gvks]))
  {
    if owner in m.accessors {
      var e := m.accessors[owner];
      assert |e.users| == 0 <==> e.users == map[];
      var m1 := WithUser(m, owner, user, gvks);
      assert user.Some? ==> user.value in m1.accessors[owner].users;
      assert |m1.accessors[owner].users| == 0 <==> user.None? && e.users == map[];
      AnsweredFailure(m, owner, user, gvks, removable);
    }
  }

  lemma AnsweredFailure(m: Manager, owner: Key, user: Option<Key>, gvks: set<Gvk>, removable: set<Gvk>)
    requires Inv(m) && m.status.Serving? && owner in m.accessors
    ensures var m1 := WithUser(m, owner, user, gvks);
            var m' := Collected(m1, owner, removable);
            m'.status.Serving? ==> (CollectFails(m1, owner, removable) <==> KeepsUnneeded(m', owner))
  {
    var m1 := WithUser(m, owner, user, gvks);
    var users := m1.accessors[owner].users;
    UserEffect(m, m1, owner);
    if |users| != 0 {
      assert users != map[];
      var m' := Collected(m1, owner, removable);
      if m'.status.Serving? {
        CollectionKeepsWhatIsUsed(m1, owner, removable);
      }
    }
  }

  /** A kind some user needs. */
  predicate Needed(users: map<Key, set<Gvk>>, g: Gvk) {
    exists u :: u in users && g in users[u]
  }

  /** The owner's cache still knows a kind that none of its users needs. */
  predicate KeepsUnneeded(m: Manager, owner: Key)
    requires Indexed(m)
  {
    owner in m.accessors && m.accessors[owner].users != map[] &&
    exists g :: g in m.caches[m.accessors[owner].cache].known && !Needed(m.accessors[owner].users, g)
  }

  /** What the removal of informers leaves: kinds that are needed and kinds that resist removal. */
  lemma RemovalKeepsWhatIsUsed(m: Manager, key: Key, removable: set<Gvk>)
    requires Inv(m) && key in m.accessors && m.caches[m.accessors[key].cache].life.Working?
    ensures var e, m' := m.accessors[key], Removed(m, key, removable);
            var known, known' := m.caches[e.cache].known, m'.caches[e.cache].known;
            && m'.status.Serving? && m'.accessors == m.accessors
            && (forall g :: g in known' <==> g in known && (g !in removable || Needed(e.users, g)))
  {
    var e := m.accessors[key];
    assert forall g :: g in InUse(e.users) <==> Needed(e.users, g);
  }

  /**
   While users remain and the cache runs, a request or a stop leaves it with the informers somebody
   uses and those that resist removal: the union of the users' kinds is what is kept. If the access lock
   is taken, nothing is removed yet, and the loop stands in line to do so.
   */
  lemma CollectionKeepsWhatIsUsed(m: Manager, key: Key, removable: set<Gvk>)
    requires Inv(m) && m.status.Serving? && key in m.accessors && m.accessors[key].users != map[]
    requires m.caches[m.accessors[key].cache].life.Working?
    ensures var e, m' := m.accessors[key], Collected(m, key, removable);
            var known, known' := m.caches[e.cache].known, m'.caches[e.cache].known;
            if m.caches[e.cache].Unlocked() then
              && m'.status.Serving?
              && (forall g :: g in known' <==> g in known && (g !in removable || Needed(e.users, g)))
              && (CollectFails(m, key, removable) <==> exists g :: g in known' && !Needed(e.users, g))
            else m' == m.(status := AwaitsLock(key))
  {
    var e := m.accessors[key];
    assert |e.users| != 0;
    RemovalKeepsWhatIsUsed(m, key, removable);
    assert forall g :: g in InUse(e.users) <==> Needed(e.users, g);
    var left := m.caches[e.cache].known - InUse(e.users) - removable;
    assert CollectFails(m, key, removable) <==> left != {};
    var known' := Removed(m, key, removable).caches[e.cache].known;
    assert forall g :: g in left <==> g in known' && !Needed(e.users, g);
    if left != {} {
      var g :| g in left;
      assert g in known' && !Needed(e.users, g);
    }
  }

  /** The removal that had to wait: when the loop gets the lock of a running cache, the same is kept. */
  lemma DelayedCollectionKeepsWhatIsUsed(m: Manager, removable: set<Gvk>)
    requires Inv(m) && Enabled(m, LoopGetsLock(removable)) && m.caches[m.accessors[m.status.key].cache].life.Working?
    ensures var e, m' := m.accessors[m.status.key], Next(m, LoopGetsLock(removable));
            var known, known' := m.caches[e.cache].known, m'.caches[e.cache].known;
            && m'.status.Serving? && m'.accessors == m.accessors
            && (forall g :: g in known' <==> g in known && (g !in removable || Needed(e.users, g)))
  {
    RemovalKeepsWhatIsUsed(m, m.status.key, removable);
  }

  /** The users a request or a stop leaves the owner's entry with. */
  function UsersAfter(m: Manager, t: Step): set<Key>
    requires (t.Access? || t.StopAccess?) && t.owner in m.accessors
  {
    var users := m.accessors[t.owner].users.Keys;
    match t
    case Access(_, user, _, _, _) => if user.Some? then users + {user.value} else users
    case StopAccess(_, user, _) => if user.Some? then users - {user.value} else users
  }

  /** The message makes the loop collect for a cache that stays in use. */
  predicate Collects(m: Manager, t: Step) {
    (t.Access? || t.StopAccess?) && t.owner in m.accessors && UsersAfter(m, t) != {}
  }

  /**
   A handler blocks exactly when it collects for a cache that stays in use and somebody else holds the
   access lock of that cache or stands in line for it, or the cache has ended without its done message
   taken: in the first case until the others have left, in the second for good.
   */
  lemma BlocksExactly(m: Manager, t: Step)
    requires Inv(m) && m.status.Serving?
    ensures var status := Next(m, t).status;
            && (status.AwaitsLock? <==> Collects(m, t) && !m.caches[m.accessors[t.owner].cache].Unlocked())
            && (status.Stuck? <==>
                  && Collects(m, t) && m.caches[m.accessors[t.owner].cache].Unlocked()
                  && m.caches[m.accessors[t.owner].cache].life.Done?)
  {
    if (t.Access? || t.StopAccess?) && t.owner in m.accessors {
      var e := m.accessors[t.owner];
      var m1 := if t.Access? then WithUser(m, t.owner, t.user, t.gvks) else WithoutUser(m, t.owner, t.user);
      assert m1.accessors[t.owner].users.Keys == UsersAfter(m, t);
      assert |m1.accessors[t.owner].users| == 0 <==> m1.accessors[t.owner].users.Keys == {};
      assert m1.caches[m1.accessors[t.owner].cache] == m.caches[e.cache];
    }
  }

  /**
   A loop that stands in line for a lock goes on exactly when everybody before it has left, and serves
   again exactly when the cache is still there. Until then it takes nothing, not even the done message of
   that cache.
   */
  lemma LockWaitEndsExactly(m: Manager, t: Step)
    requires Inv(m) && m.status.AwaitsLock?
    ensures var cache := m.caches[m.accessors[m.status.key].cache];
            && (Next(m, t).status != m.status <==> t.LoopGetsLock? && cache.Unlocked())
            && (Next(m, t).status.Serving? <==> t.LoopGetsLock? && cache.Unlocked() && cache.life.Working?)
            && (Handles(t) ==> Next(m, t) == m)
  {
  }

  /**
   The done message of a cache ends the loop exactly if the cache crashed; whatever entry its owner has is
   dropped.
   */
  lemma DoneExactly(m: Manager, id: Id)
    requires Inv(m) && Enabled(m, LoopTakesDone(id))
    ensures var m' := Next(m, LoopTakesDone(id));
            && (m'.status.Crashed? <==> m.caches[id].life == Done(true)) && (m'.status.Crashed? || m'.status.Serving?)
            && m'.accessors == m.accessors - {m.caches[id].key}
  {
  }

  /** A loop that ended because a cache crashed handles nothing any more. */
  lemma {:induction false} CrashedForEver(m: Manager, steps: seq<Step>)
    requires Inv(m) && m.status.Crashed?
    ensures Run(m, steps).status.Crashed? && Run(m, steps).accessors == m.accessors
    decreases |steps|
  {
    if steps != [] {
      StepKeepsInv(m, steps[0]);
      CrashedForEver(Next(m, steps[0]), steps[1..]);
    }
  }

  /** A stop drops the user, closes the cache exactly if no user is left, and does nothing without an entry. */
  lemma StopExactly(m: Manager, owner: Key, user: Option<Key>, removable: set<Gvk>)
    requires Inv(m) && m.status.Serving?
    ensures var m' := Next(m, StopAccess(owner, user, removable));
            if owner !in m.accessors then m' == m
            else
              var e := m.accessors[owner];
              var users := if user.Some? then e.users - {user.value} else e.users;
              && m'.caches[e.cache].cancels == (if users.Keys == {} then 1 else 0)
              && m'.accessors ==
                 if users.Keys == {} then m.accessors - {owner} else m.accessors[owner := e.(users := users)]
  {
    if owner in m.accessors {
      var m1, e := WithoutUser(m, owner, user), m.accessors[owner];
      UserEffect(m, m1, owner);
      CollectedExactly(m1, owner, removable);
      assert m1.accessors - {owner} == m.accessors - {owner};
      assert user.None? ==> m.accessors[owner := e] == m.accessors;
    }
  }

  /** A collection closes the cache exactly if nobody uses it, and otherwise keeps the entry. */
  lemma CollectedExactly(m: Manager, key: Key, removable: set<Gvk>)
    requires Inv(m) && key in m.accessors
    ensures var m', e := Collected(m, key, removable), m.accessors[key];
            && m'.accessors == (if e.users.Keys == {} then m.accessors - {key} else m.accessors)
            && m'.caches[e.cache].cancels == if e.users.Keys == {} then 1 else 0
  {
    var users := m.accessors[key].users;
    assert |users| == 0 <==> users.Keys == {};
  }

  /** A loop blocked on a cache that has ended never serves again. */
  lemma {:induction false} StuckForEver(m: Manager, steps: seq<Step>)
    requires Inv(m) && m.status.Stuck?
    ensures Run(m, steps).status.Stuck?
    decreases |steps|
  {
    if steps != [] {
      StepKeepsInv(m, steps[0]);
      StuckForEver(Next(m, steps[0]), steps[1..]);
    }
  }

  // ---------------------------------------------------------------- caches out of sight

  /** A cache without an entry never gets one again, so nobody will ever cancel it. */
  lemma UnsharedStep(m: Manager, t: Step, id: Id)
    requires Inv(m) && id < |m.caches| && !Shared(m, id)
    ensures !Shared(Next(m, t), id) && Next(m, t).caches[id].cancels == m.caches[id].cancels
  {
    if t.LoopTakesDone? && Enabled(m, t) {
      DoneEffect(m, t.id);
    } else if Enabled(m, t) {
      StepFares(m, t, id);
    }
  }

  lemma {:induction false} UnsharedForEver(m: Manager, steps: seq<Step>, id: Id)
    requires Inv(m) && id < |m.caches| && !Shared(m, id)
    ensures !Shared(Run(m, steps), id) && Run(m, steps).caches[id].cancels == m.caches[id].cancels
    decreases |steps|
  {
    if steps != [] {
      UnsharedStep(m, steps[0], id);
      StepKeepsInv(m, steps[0]);
      UnsharedForEver(Next(m, steps[0]), steps[1..], id);
    }
  }

  /** Open, but without an entry: the manager has lost it. */
  predicate Lost(m: Manager, id: Id)
    requires id < |m.caches|
  {
    Open(m.caches[id]) && !Shared(m, id)
  }

  predicate NothingLost(m: Manager) {
    forall id :: 0 <= id < |m.caches| ==> !Lost(m, id)
  }

  /** A cache of the owner has not been taken off yet. */
  predicate Lingers(m: Manager, key: Key) {
    exists id :: 0 <= id < |m.caches| && m.caches[id].key == key && !m.caches[id].life.Reported?
  }

  /** The step starts a cache for an owner while an earlier one lingers. */
  predicate Hasty(m: Manager, t: Step)
    requires Indexed(m)
  {
    t.Access? && t.owner !in m.accessors && |Next(m, t).caches| > |m.caches| && Lingers(m, t.owner)
  }

  /** Owners have at most one cache that has not been taken off. */
  predicate Single(m: Manager) {
    forall i, j :: 0 <= i < j < |m.caches| && m.caches[i].key == m.caches[j].key ==>
      m.caches[i].life.Reported? || m.caches[j].life.Reported?
  }

  predicate Patient(m: Manager, steps: seq<Step>)
    requires Indexed(m)
    decreases |steps|
  {
    steps == [] || (!Hasty(m, steps[0]) && Patient(Next(m, steps[0]), steps[1..]))
  }

  /** Steps in which every cache fares well lose nothing. */
  lemma FaringLosesNothing(m: Manager, m': Manager)
    requires Inv(m) && Single(m) && NothingLost(m)
    requires |m'.caches| == |m.caches| && forall id :: 0 <= id < |m.caches| ==> Fares(m, m', id)
    ensures Single(m') && NothingLost(m')
  {
    forall id | 0 <= id < |m'.caches| ensures !Lost(m', id) {
      assert Fares(m, m', id) && !Lost(m, id);
    }
    forall i, j | 0 <= i < j < |m'.caches| && m'.caches[i].key == m'.caches[j].key
      ensures m'.caches[i].life.Reported? || m'.caches[j].life.Reported?
    {
      assert Fares(m, m', i) && Fares(m, m', j);
    }
  }

  lemma PatientOpenLosesNothing(m: Manager, t: Step)
    requires Inv(m) && Single(m) && NothingLost(m) && t.Access? && Enabled(m, t) && !Hasty(m, t)
    requires |Next(m, t).caches| > |m.caches|
    ensures Single(Next(m, t)) && NothingLost(Next(m, t))
  {
    var m', n := Next(m, t), |m.caches|;
    AccessEffect(m, t);
    forall id | 0 <= id < |m'.caches| ensures !Lost(m', id) {
      if id < n {
        assert Fares(m, m', id) && !Lost(m, id);
      }
    }
    assert !Lingers(m, t.owner);
    assert forall i :: 0 <= i < n ==> m'.caches[i] == m'.caches[..n][i] == m.caches[i];
  }

  /** In a state with single caches, a done message can only drop the entry of its own cache. */
  lemma DoneLosesNothing(m: Manager, id: Id)
    requires Inv(m) && Single(m) && NothingLost(m) && Enabled(m, LoopTakesDone(id))
    ensures Single(OnDone(m, id)) && NothingLost(OnDone(m, id))
  {
    var m' := OnDone(m, id);
    DoneEffect(m, id);
    forall i | 0 <= i < |m'.caches| ensures !Lost(m', i) {
      assert !Lost(m, i);
      assert i != id && m.caches[i].key == m.caches[id].key ==> m.caches[i].life.Reported?;
    }
  }

  lemma PatientStepLosesNothing(m: Manager, t: Step)
    requires Inv(m) && Single(m) && NothingLost(m) && !Hasty(m, t)
    ensures Single(Next(m, t)) && NothingLost(Next(m, t))
  {
    if Enabled(m, t) {
      match t {
        case Access(_, _, _, _, _) =>
          AccessEffect(m, t);
          if |Next(m, t).caches| > |m.caches| {
            PatientOpenLosesNothing(m, t);
          } else {
            FaringLosesNothing(m, Next(m, t));
          }
        case StopAccess(_, _, _) =>
          StopEffect(m, t);
          FaringLosesNothing(m, Next(m, t));
        case LoopTakesDone(id) => DoneLosesNothing(m, id);
        case _ =>
          CacheEffect(m, t);
          FaringLosesNothing(m, Next(m, t));
      }
    }
  }

  /**
   If no cache is started while an earlier one of its owner lingers, the open caches are exactly the
   entries at every moment: at most one per owner, and none lost.
   */
  lemma {:induction false} PatientRunsLoseNothing(m: Manager, steps: seq<Step>)
    requires Inv(m) && Single(m) && NothingLost(m) && Patient(m, steps)
    ensures Single(Run(m, steps)) && NothingLost(Run(m, steps))
    decreases |steps|
  {
    if steps != [] {
      PatientStepLosesNothing(m, steps[0]);
      StepKeepsInv(m, steps[0]);
      PatientRunsLoseNothing(Next(m, steps[0]), steps[1..]);
    }
  }

  lemma RunTwo(m: Manager, t1: Step, t2: Step)
    requires Indexed(m)
    ensures Run(m, [t1, t2]) == Next(Next(m, t1), t2)
  {
    assert [t1, t2][1..] == [t2] && [t2][1..] == [];
    assert Run(Next(m, t1), [t2]) == Run(Next(Next(m, t1), t2), []);
  }

  /**
   Any hasty start can lose the cache it starts: when the lingering cache is taken off next, the new
   one goes with it, and is never cancelled however the run goes on.
   */
  lemma HastyStartCanLose(m: Manager, t: Step, rest: seq<Step>) returns (last: seq<Step>)
    requires Inv(m) && Enabled(m, t) && Hasty(m, t)
    ensures |last| <= 2
    ensures var lost := Run(Next(m, t), last);
            && Inv(lost) && Lost(lost, |m.caches|)
            && !Shared(Run(lost, rest), |m.caches|) && Run(lost, rest).caches[|m.caches|].cancels == 0
  {
    var m1, id := Next(m, t), |m.caches|;
    AccessEffect(m, t);
    var prior :| 0 <= prior < |m.caches| && m.caches[prior].key == t.owner && !m.caches[prior].life.Reported?;
    assert m1.caches[prior] == m1.caches[..id][prior] == m.caches[prior];
    last := [CacheEnds(prior, false), LoopTakesDone(prior)];
    RunTwo(m1, last[0], last[1]);
    OldIsTakenOff(m1, prior, id);
    var lost := Run(m1, last);
    UnsharedForEver(lost, rest, id);
  }

  /** The cache may have ended already; then the first of the two steps does nothing. */
  lemma OldIsTakenOff(m: Manager, prior: Id, id: Id)
    requires Inv(m) && m.status.Serving? && prior < id < |m.caches| && Shared(m, id)
    requires m.caches[prior].key == m.caches[id].key
    requires m.caches[prior].life.Working? || m.caches[prior].life.Done?
    ensures var m' := Next(Next(m, CacheEnds(prior, false)), LoopTakesDone(prior)); Inv(m') && Lost(m', id)
  {
    var m1 := Next(m, CacheEnds(prior, false));
    if m.caches[prior].life.Working? {
      CacheEffect(m, CacheEnds(prior, false));
    }
    assert m1.caches[id] == m.caches[id] && Shared(m1, id);
    DoneEffect(m1, prior);
  }

  /** Asking for access right after the last user left is hasty, in every state. */
  lemma ReturningIsHasty(m: Manager, owner: Key, last: Key, again: Step)
    requires Inv(m) && m.status.Serving? && owner in m.accessors && m.accessors[owner].users.Keys <= {last}
    requires again.Access? && again.owner == owner && again.creatable
    ensures var m' := Next(m, StopAccess(owner, Some(last), {})); Inv(m') && Enabled(m', again) && Hasty(m', again)
  {
    var t := StopAccess(owner, Some(last), {});
    var m', id := Next(m, t), m.accessors[owner].cache;
    var users := WithoutUser(m, owner, Some(last)).accessors[owner].users;
    assert users.Keys == {} && |users| == 0;
    StopEffect(m, t);
    assert m'.caches[id].key == owner && m'.caches[id].life == m.caches[id].life;
    assert !m'.caches[id].life.Reported?;
    assert Lingers(m', owner);
    AccessEffect(m', again);
  }

  // ---------------------------------------------------------------- the handlers in place

  class ObjectBoundAccessManager {
    var accessors: map<Key, Entry>

    // The caches started so far, and what has become of the loop.
    var caches: seq<Cache>
    var status: Status

    function View(): Manager
      reads this
    {
      Manager(accessors, caches, status)
    }

    constructor ()
      ensures View() == EMPTY_MANAGER
    {
      accessors, caches, status := map[], [], Serving;
    }

    method HandleCacheDone(id: Id)
      requires Indexed(View()) && Enabled(View(), LoopTakesDone(id))
      modifies this
      ensures View() == OnDone(old(View()), id)
    {
      var done := caches[id];
      accessors := accessors - {done.key};
      caches := caches[id := done.(life := Reported)];
      if done.life.crash {
        status := Crashed;
      }
    }

    /** The union of the kinds of all users, collected user by user. */
    method KindsInUse(users: map<Key, set<Gvk>>) returns (inUse: set<Gvk>)
      ensures inUse == InUse(users)
    {
      inUse := {};
      var left := users.Keys;
      while left != {}
        invariant left <= users.Keys
        invariant forall g :: g in inUse <==> exists u :: u in users && u !in left && g in users[u]
        decreases |left|
      {
        var u :| u in left;
        inUse := inUse + users[u];
        left := left - {u};
      }
    }

    method GcCache(key: Key, removable: set<Gvk>) returns (failed: bool)
      requires Indexed(View())
      modifies this
      ensures View() == Collected(old(View()), key, removable)
      ensures failed == CollectFails(old(View()), key, removable)
    {
      if key !in accessors {
        return false;
      }
      var entry := accessors[key];
      var cache := caches[entry.cache];
      if |entry.users| == 0 {
        caches := caches[entry.cache := cache.(cancels := cache.cancels + 1)];
        accessors := accessors - {key};
        return false;
      }
      var inUse := KindsInUse(entry.users);
      failed := cache.known - inUse - removable != {};
      if !cache.Unlocked() {
        status := AwaitsLock(key);
      } else if cache.life.Working? {
        caches := caches[entry.cache := cache.(known := Survivors(cache.known, inUse, removable))];
        status := Serving;
      } else {
        status := Stuck;
      }
    }

    method HandleAccessorStop(owner: Key, user: Option<Key>, removable: set<Gvk>) returns (failed: bool)
      requires Indexed(View())
      modifies this
      ensures View() == OnStop(old(View()), owner, user, removable)
      ensures failed <==>
              owner in old(accessors) && CollectFails(WithoutUser(old(View()), owner, user), owner, removable)
    {
      if owner !in accessors {
        return false;
      }
      if user.Some? {
        accessors := accessors[owner := accessors[owner].(users := accessors[owner].users - {user.value})];
      }
      failed := GcCache(owner, removable);
    }

    method HandleAccessorRequest(owner: Key, user: Option<Key>, gvks: set<Gvk>, creatable: bool, removable: set<Gvk>)
      returns (r: Option<Response>)
      requires Indexed(View())
      modifies this
      ensures View() == OnAccess(old(View()), owner, user, gvks, creatable, removable)
      ensures r == AccessResponse(old(View()), owner, user, gvks, creatable, removable)
    {
      if owner in accessors {
        var entry := accessors[owner];
        if user.Some? {
          accessors := accessors[owner := entry.(users := entry.users[user.value := gvks])];
        }
        var failed := GcCache(owner, removable);
        return if status.Serving? then Some(Response(Some(entry.cache), failed)) else None;
      }
      if !creatable {
        return Some(Response(None, true));
      }
      var entry := Entry(|caches|, map[]);
      if user.Some? {
        entry := entry.(users := entry.users[user.value := gvks]);
      }
      accessors := accessors[owner := entry];
      caches := caches + [Cache(owner, 0, Working, {}, 0, 0)];
      r := Some(Response(Some(entry.cache), false));
    }
  }
}
