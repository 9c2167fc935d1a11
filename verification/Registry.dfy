/** The runner registry as a concurrent protocol (internal/controller/runner.go).

    Threads are calls of Ensure, Stop and Shutdown, in any number, interleaved at every point where
    the code takes or releases a mutex. Per-key mutexes are made on demand and dropped when nobody
    holds or wants them. A runner is live from the moment it is put in the map until it is
    cancelled. Whether a spec changed, a restart is throttled, a build fails or a wait runs out of
    grace is left open. */
module Registries {

  type Key = string
  type Tid = nat
  type Mutex = nat
  type RunnerId = nat

  /** Why a call stops a runner. */
  datatype Why = ToReplace | ToTakeBack | ToStop

  /** How a call ends. Ensure kept the runner there was, started one, replaced one, was turned away,
      took its own back after the latch, failed to build one, or gave up waiting for the old one to
      stop; Stop leaves the key gone. */
  datatype Result = Kept | Started | Replaced | TurnedAway | TakenBack | NotBuilt | GaveUp | Gone

  /** Where a call is while it holds its key's mutex. `again` says that a runner was stopped first. */
  datatype Pc = CheckClosed | Decide | Cancel(r: RunnerId, why: Why) | Remove(r: RunnerId, why: Why)
              | Start(again: bool) | Recheck(again: bool) | LookUp | Release(result: Result)

  datatype Phase = Entering | Waiting(mu: Mutex) | Holding(mu: Mutex, pc: Pc) | Leaving(mu: Mutex) | Returned

  /** A call of Ensure or Stop on a key, or of Shutdown with the stops it spawned. */
  datatype Thread =
    | Caller(ensuring: bool, key: Key, phase: Phase)
    | Closer(stage: Stage)
  {
    /** Counted among the waiters of its key. */
    predicate Registered() { Caller? && (phase.Waiting? || phase.Holding? || phase.Leaving?) }

    function Mu(): Mutex
      requires Registered()
    {
      phase.mu
    }

    predicate Holds(k: Key) { Caller? && key == k && phase.Holding? }
  }

  datatype Stage = Latching | Enumerating | Joining(kids: map<Tid, Key>) | Shut(kids: map<Tid, Key>)

  type Threads = map<Tid, Thread>

  datatype State = State(
    threads: Threads,
    locks: map<Key, Mutex>, waiters: map<Key, int>, owned: set<Mutex>, nextMutex: Mutex,
    runners: map<Key, RunnerId>, live: map<RunnerId, Key>, nextRunner: RunnerId,
    closed: bool)

  function Initial(): State { State(map[], map[], map[], {}, 0, map[], map[], 0, false) }

  /** A new call, or a step of a call under way. `choice` settles what the model leaves open. */
  datatype Act =
    | CallEnsure(t: Tid, k: Key)
    | CallStop(t: Tid, k: Key)
    | CallShutdown(t: Tid)
    | Go(t: Tid, choice: bool)
    | Spawn(t: Tid, kids: map<Tid, Key>)

  /** Shutdown spawns one stop per key in the map, each a thread of its own. */
  ghost predicate FreshKids(s: State, kids: map<Tid, Key>) {
    && (forall u :: u in kids ==> u !in s.threads && kids[u] in s.runners)
    && (forall k :: k in s.runners ==> exists u :: u in kids && kids[u] == k)
    && (forall u, v :: u in kids && v in kids && u != v ==> kids[u] != kids[v])
  }

  ghost predicate KidsReturned(threads: Threads, kids: map<Tid, Key>) {
    forall u :: u in kids ==> u in threads && threads[u].Caller? && threads[u].phase.Returned?
  }

  ghost predicate Enabled(s: State, a: Act) {
    match a
    case CallEnsure(t, _) => t !in s.threads
    case CallStop(t, _) => t !in s.threads
    case CallShutdown(t) => t !in s.threads
    case Spawn(t, kids) => t in s.threads && s.threads[t] == Closer(Enumerating) && FreshKids(s, kids)
    case Go(t, _) =>
      t in s.threads && match s.threads[t]
        case Caller(_, _, phase) => !phase.Returned? && (phase.Waiting? ==> phase.mu !in s.owned)
        case Closer(stage) => stage.Latching? || (stage.Joining? && KidsReturned(s.threads, stage.kids))
  }

  function Moved(s: State, t: Tid, phase: Phase): State
    requires t in s.threads && s.threads[t].Caller?
  {
    s.(threads := s.threads[t := s.threads[t].(phase := phase)])
  }

  /** Takes a place among the waiters of the key, making the mutex if there is none. */
  function Enter(s: State, t: Tid, k: Key): State
    requires t in s.threads && s.threads[t].Caller?
  {
    var mu := if k in s.locks then s.locks[k] else s.nextMutex;
    Moved(s, t, Waiting(mu)).(
      locks := s.locks[k := mu], waiters := s.waiters[k := (if k in s.waiters then s.waiters[k] else 0) + 1],
      nextMutex := if k in s.locks then s.nextMutex else s.nextMutex + 1)
  }

  /** Gives the place up; the last one out drops the mutex. */
  function Leave(s: State, t: Tid, k: Key): State
    requires t in s.threads && s.threads[t].Caller?
  {
    var n := (if k in s.waiters then s.waiters[k] else 0) - 1;
    if n <= 0 then Moved(s, t, Returned).(locks := s.locks - {k}, waiters := s.waiters - {k})
    else Moved(s, t, Returned).(waiters := s.waiters[k := n])
  }

  function AfterRemove(why: Why, stopped: bool): Pc {
    match why
    case ToReplace => if stopped then Start(true) else Release(GaveUp)
    case ToTakeBack => Release(TakenBack)
    case ToStop => Release(Gone)
  }

  /** One step under the key's mutex. */
  function Work(s: State, t: Tid, k: Key, mu: Mutex, pc: Pc, choice: bool): State
    requires t in s.threads && s.threads[t].Caller?
  {
    match pc
    case CheckClosed => Moved(s, t, Holding(mu, if s.closed then Release(TurnedAway) else Decide))
    case Decide =>
      if k !in s.runners then Moved(s, t, Holding(mu, Start(false)))
      else if choice then Moved(s, t, Holding(mu, Cancel(s.runners[k], ToReplace)))
      else Moved(s, t, Holding(mu, Release(Kept)))
    case Cancel(r, why) => Moved(s, t, Holding(mu, Remove(r, why))).(live := s.live - {r})
    case Remove(r, why) =>
      Moved(s, t, Holding(mu, AfterRemove(why, choice))).(
        runners := if k in s.runners && s.runners[k] == r then s.runners - {k} else s.runners)
    case Start(again) =>
      if choice then Moved(s, t, Holding(mu, Release(NotBuilt)))
      else
        Moved(s, t, Holding(mu, Recheck(again))).(
          runners := s.runners[k := s.nextRunner], live := s.live[s.nextRunner := k], nextRunner := s.nextRunner + 1)
    case Recheck(again) =>
      if s.closed && k in s.runners then Moved(s, t, Holding(mu, Cancel(s.runners[k], ToTakeBack)))
      else Moved(s, t, Holding(mu, Release(if s.closed then TakenBack else if again then Replaced else Started)))
    case LookUp =>
      Moved(s, t, Holding(mu, if k in s.runners then Cancel(s.runners[k], ToStop) else Release(Gone)))
    case Release(_) => Moved(s, t, Leaving(mu)).(owned := s.owned - {mu})
  }

  function Next(s: State, a: Act): State
    requires a.Go? || a.Spawn? ==> a.t in s.threads
  {
    match a
    case CallEnsure(t, k) => s.(threads := s.threads[t := Caller(true, k, Entering)])
    case CallStop(t, k) => s.(threads := s.threads[t := Caller(false, k, Entering)])
    case CallShutdown(t) => s.(threads := s.threads[t := Closer(Latching)])
    case Spawn(t, kids) =>
      s.(threads := WithKids(s.threads, t, kids))
    case Go(t, choice) =>
      match s.threads[t]
      case Closer(stage) =>
        (match stage
         case Latching => s.(closed := true, threads := s.threads[t := Closer(Enumerating)])
         case Joining(kids) => s.(threads := s.threads[t := Closer(Shut(kids))])
         case _ => s)
      case Caller(ensuring, k, phase) =>
        match phase
        case Entering => Enter(s, t, k)
        case Waiting(mu) => Moved(s, t, Holding(mu, if ensuring then CheckClosed else LookUp)).(owned := s.owned + {mu})
        case Holding(mu, pc) => Work(s, t, k, mu, pc, choice)
        case Leaving(mu) => Leave(s, t, k)
        case Returned => s
  }

  // ---------------------------------------------------------------- the mutexes

  /** Everyone in line for a key is in line for the one mutex the map has for it. */
  ghost predicate Linked(threads: Threads, locks: map<Key, Mutex>) {
    forall t :: t in threads && threads[t].Registered() ==>
      threads[t].key in locks && locks[threads[t].key] == threads[t].Mu()
  }

  ghost function InLine(threads: Threads, k: Key): set<Tid> {
    set t | t in threads && threads[t].Registered() && threads[t].key == k
  }

  /** The count of waiters is the number in line, and a mutex exists exactly while there are any. */
  ghost predicate Counted(threads: Threads, locks: map<Key, Mutex>, waiters: map<Key, int>) {
    && locks.Keys == waiters.Keys
    && (forall k {:trigger InLine(threads, k)} :: |InLine(threads, k)| == if k in waiters then waiters[k] else 0)
    && (forall k :: k in waiters ==> waiters[k] > 0)
  }

  /** Whoever holds a mutex owns it alone. */
  ghost predicate Exclusive(threads: Threads, owned: set<Mutex>) {
    && (forall t :: t in threads && threads[t].Caller? && threads[t].phase.Holding? ==> threads[t].phase.mu in owned)
    && (forall t, u {:trigger Apart(threads, t, u)} :: t in threads && u in threads && t != u ==> Apart(threads, t, u))
  }

  ghost predicate Apart(threads: Threads, t: Tid, u: Tid)
    requires t in threads && u in threads
  {
    threads[t].Caller? && threads[u].Caller? && threads[t].phase.Holding? && threads[u].phase.Holding? ==>
      threads[t].phase.mu != threads[u].phase.mu
  }

  /** No two calls work on one key at once, though the mutex they exclude each other with may come
      and go. */
  lemma MutualExclusion(s: State, t: Tid, u: Tid, k: Key)
    requires Linked(s.threads, s.locks) && Exclusive(s.threads, s.owned)
    requires t in s.threads && u in s.threads && s.threads[t].Holds(k) && s.threads[u].Holds(k)
    ensures t == u
  {
    assert t != u ==> Apart(s.threads, t, u);
  }

  lemma LineUnchanged(threads: Threads, t: Tid, th: Thread, k: Key)
    requires th.Registered() && th.key == k <==> t in threads && threads[t].Registered() && threads[t].key == k
    ensures InLine(threads[t := th], k) == InLine(threads, k)
  {
  }

  lemma LineJoined(threads: Threads, t: Tid, th: Thread, k: Key)
    requires th.Registered() && th.key == k && !(t in threads && threads[t].Registered() && threads[t].key == k)
    ensures |InLine(threads[t := th], k)| == |InLine(threads, k)| + 1
  {
    assert InLine(threads[t := th], k) == InLine(threads, k) + {t};
  }

  lemma LineLeft(threads: Threads, t: Tid, th: Thread, k: Key)
    requires !(th.Registered() && th.key == k) && t in threads && threads[t].Registered() && threads[t].key == k
    ensures |InLine(threads[t := th], k)| == |InLine(threads, k)| - 1
  {
    assert InLine(threads[t := th], k) == InLine(threads, k) - {t};
  }

  /** A step that leaves the thread in or out of line, at the same mutex, leaves the counts right. */
  lemma CountedStays(threads: Threads, locks: map<Key, Mutex>, waiters: map<Key, int>, t: Tid, th: Thread)
    requires Counted(threads, locks, waiters) && Linked(threads, locks)
    requires th.Registered() ==>
      t in threads && threads[t].Registered() && threads[t].key == th.key && threads[t].Mu() == th.Mu()
    requires t in threads && threads[t].Registered() ==> th.Registered()
    ensures Counted(threads[t := th], locks, waiters) && Linked(threads[t := th], locks)
  {
    forall k
      ensures |InLine(threads[t := th], k)| == if k in waiters then waiters[k] else 0
    {
      LineUnchanged(threads, t, th, k);
    }
  }

  lemma EnterCounted(s: State, t: Tid, k: Key)
    requires Counted(s.threads, s.locks, s.waiters) && Linked(s.threads, s.locks)
    requires t in s.threads && s.threads[t].Caller? && s.threads[t].phase.Entering? && s.threads[t].key == k
    ensures var s' := Enter(s, t, k); Counted(s'.threads, s'.locks, s'.waiters) && Linked(s'.threads, s'.locks)
  {
    var s' := Enter(s, t, k);
    var th := s'.threads[t];
    forall j
      ensures |InLine(s'.threads, j)| == if j in s'.waiters then s'.waiters[j] else 0
    {
      if j == k {
        LineJoined(s.threads, t, th, k);
      } else {
        LineUnchanged(s.threads, t, th, j);
      }
    }
    forall u | u in s'.threads && s'.threads[u].Registered()
      ensures s'.threads[u].key in s'.locks && s'.locks[s'.threads[u].key] == s'.threads[u].Mu()
    {
      assert u != t ==> s.threads[u].key in s.locks && s.locks[s.threads[u].key] == s.threads[u].Mu();
    }
  }

  /** The last one out drops the mutex; nobody else was in line for it. */
  lemma LeaveCounted(s: State, t: Tid, k: Key)
    requires Counted(s.threads, s.locks, s.waiters) && Linked(s.threads, s.locks)
    requires t in s.threads && s.threads[t].Caller? && s.threads[t].phase.Leaving? && s.threads[t].key == k
    ensures var s' := Leave(s, t, k); Counted(s'.threads, s'.locks, s'.waiters) && Linked(s'.threads, s'.locks)
  {
    var s' := Leave(s, t, k);
    var th := s'.threads[t];
    forall j
      ensures |InLine(s'.threads, j)| == if j in s'.waiters then s'.waiters[j] else 0
    {
      if j == k {
        LineLeft(s.threads, t, th, k);
      } else {
        LineUnchanged(s.threads, t, th, j);
      }
    }
    forall u | u in s'.threads && s'.threads[u].Registered()
      ensures s'.threads[u].key in s'.locks && s'.locks[s'.threads[u].key] == s'.threads[u].Mu()
    {
      assert u in InLine(s'.threads, s'.threads[u].key);
    }
  }

  lemma ExclusiveStays(threads: Threads, owned: set<Mutex>, t: Tid, th: Thread)
    requires Exclusive(threads, owned)
    requires th.Caller? && th.phase.Holding? ==>
      t in threads && threads[t].Caller? && threads[t].phase.Holding? && threads[t].phase.mu == th.phase.mu
    ensures Exclusive(threads[t := th], owned)
  {
    var after := threads[t := th];
    forall u, v | u in after && v in after && u != v
      ensures Apart(after, u, v)
    {
      if u in threads && v in threads {
        assert Apart(threads, u, v);
      }
    }
  }

  lemma AcquireExclusive(threads: Threads, owned: set<Mutex>, t: Tid, th: Thread, mu: Mutex)
    requires Exclusive(threads, owned) && mu !in owned && th.Caller? && th.phase.Holding? && th.phase.mu == mu
    ensures Exclusive(threads[t := th], owned + {mu})
  {
    var after := threads[t := th];
    forall u, v | u in after && v in after && u != v
      ensures Apart(after, u, v)
    {
      if u in threads && v in threads {
        assert Apart(threads, u, v);
      }
    }
  }

  lemma ReleaseExclusive(threads: Threads, owned: set<Mutex>, t: Tid, th: Thread, mu: Mutex)
    requires Exclusive(threads, owned) && t in threads && threads[t].Caller? && threads[t].phase.Holding?
    requires threads[t].phase.mu == mu
    requires !(th.Caller? && th.phase.Holding?)
    ensures Exclusive(threads[t := th], owned - {mu})
  {
    var after := threads[t := th];
    forall u, v | u in after && v in after && u != v
      ensures Apart(after, u, v)
    {
      assert u != t && v != t ==> Apart(threads, u, v);
    }
    forall u | u in after && after[u].Caller? && after[u].phase.Holding?
      ensures threads[u].phase.mu in owned - {mu}
    {
      assert Apart(threads, t, u);
    }
  }

  // ---------------------------------------------------------------- the runners

  /** A live runner is the one the map has for its key. */
  ghost predicate Known(runners: map<Key, RunnerId>, live: map<RunnerId, Key>, next: RunnerId) {
    && (forall r :: r in live ==> r < next && live[r] in runners && runners[live[r]] == r)
    && (forall k :: k in runners ==> runners[k] < next)
  }

  /** The map's runner of the key is live. */
  predicate LiveAt(runners: map<Key, RunnerId>, live: map<RunnerId, Key>, k: Key) {
    k in runners && runners[k] in live && live[runners[k]] == k
  }

  /** What a call relies on about its own key while it holds the mutex. */
  ghost predicate Relies(th: Thread, runners: map<Key, RunnerId>, live: map<RunnerId, Key>) {
    th.Caller? && th.phase.Holding? ==>
      match th.phase.pc
      case CheckClosed => th.ensuring
      case Decide => th.ensuring
      case Start(_) => th.ensuring && th.key !in runners
      case Recheck(_) => th.ensuring && LiveAt(runners, live, th.key)
      case Cancel(r, why) =>
        (why.ToStop? <==> !th.ensuring) && LiveAt(runners, live, th.key) && runners[th.key] == r
      case Remove(r, why) =>
        (why.ToStop? <==> !th.ensuring) && th.key in runners && runners[th.key] == r && r !in live
      case LookUp => !th.ensuring
      case Release(result) => Leaves(result, th, runners, live)
  }

  /** What a call that ends like this leaves behind. */
  ghost predicate Leaves(result: Result, th: Thread, runners: map<Key, RunnerId>, live: map<RunnerId, Key>)
    requires th.Caller?
  {
    match result
    case Kept => th.ensuring && LiveAt(runners, live, th.key)
    case Started => th.ensuring && LiveAt(runners, live, th.key)
    case Replaced => th.ensuring && LiveAt(runners, live, th.key)
    case TurnedAway => th.ensuring
    case TakenBack => th.ensuring && th.key !in runners
    case NotBuilt => th.ensuring && th.key !in runners
    case GaveUp => th.ensuring && th.key !in runners
    case Gone => !th.ensuring && th.key !in runners
  }

  ghost predicate Placed(threads: Threads, runners: map<Key, RunnerId>, live: map<RunnerId, Key>) {
    forall t {:trigger Relies(threads[t], runners, live)} :: t in threads ==> Relies(threads[t], runners, live)
  }

  predicate Removes(th: Thread, k: Key) { th.Holds(k) && th.phase.pc.Remove? }

  /** A runner in the map is live, or the call that cancelled it is about to remove it. */
  ghost predicate Mapped(threads: Threads, runners: map<Key, RunnerId>, live: map<RunnerId, Key>) {
    forall k {:trigger LiveAt(runners, live, k)} ::
      k in runners ==> LiveAt(runners, live, k) || exists t :: t in threads && Removes(threads[t], k)
  }

  /** A runner that will be cancelled: by the Ensure that started it, or by a stop that has yet to
      look. */
  predicate Pending(th: Thread, kid: bool, k: Key, r: RunnerId) {
    th.Caller? && th.key == k &&
    if th.ensuring then th.phase.Holding? && (th.phase.pc.Recheck? || (th.phase.pc.Cancel? && th.phase.pc.r == r))
    else
      kid &&
      (th.phase.Entering? || th.phase.Waiting? ||
      (th.phase.Holding? && (th.phase.pc.LookUp? || (th.phase.pc.Cancel? && th.phase.pc.r == r))))
  }

  ghost predicate Covered(threads: Threads, kids: map<Tid, Key>, k: Key, r: RunnerId) {
    exists u :: u in threads && Pending(threads[u], u in kids, k, r)
  }

  ghost predicate AllCovered(threads: Threads, kids: map<Tid, Key>, live: map<RunnerId, Key>) {
    forall r {:trigger live[r]} :: r in live ==> Covered(threads, kids, live[r], r)
  }

  function Kids(th: Thread): map<Tid, Key> {
    if th.Closer? && (th.stage.Joining? || th.stage.Shut?) then th.stage.kids else map[]
  }

  predicate PastEnumeration(th: Thread) { th.Closer? && (th.stage.Joining? || th.stage.Shut?) }

  /** A shutdown past its enumeration has every live runner covered. */
  ghost predicate Closing(threads: Threads, live: map<RunnerId, Key>, closed: bool, t: Tid)
    requires t in threads
  {
    && (threads[t].Closer? && !threads[t].stage.Latching? ==> closed)
    && (PastEnumeration(threads[t]) ==>
         Kids(threads[t]).Keys <= threads.Keys && AllCovered(threads, Kids(threads[t]), live))
    && (threads[t].Closer? && threads[t].stage.Shut? ==> KidsReturned(threads, threads[t].stage.kids))
  }

  ghost predicate AllClosing(threads: Threads, live: map<RunnerId, Key>, closed: bool) {
    forall t {:trigger Closing(threads, live, closed, t)} :: t in threads ==> Closing(threads, live, closed, t)
  }

  // ---------------------------------------------------------------- what one thread's step keeps

  /** Nobody else works on the key. */
  ghost predicate Alone(threads: Threads, t: Tid, k: Key) {
    forall u :: u in threads && u != t ==> !threads[u].Holds(k)
  }

  lemma HolderIsAlone(s: State, t: Tid, k: Key)
    requires Linked(s.threads, s.locks) && Exclusive(s.threads, s.owned) && t in s.threads && s.threads[t].Holds(k)
    ensures Alone(s.threads, t, k)
  {
    forall u | u in s.threads && u != t
      ensures !s.threads[u].Holds(k)
    {
      if s.threads[u].Holds(k) {
        MutualExclusion(s, t, u, k);
      }
    }
  }

  lemma PlacedStays(threads: Threads, runners: map<Key, RunnerId>, live: map<RunnerId, Key>, next: RunnerId,
                    t: Tid, th: Thread, runners': map<Key, RunnerId>, live': map<RunnerId, Key>, k: Key)
    requires Placed(threads, runners, live) && Known(runners, live, next)
    requires runners' == runners || Alone(threads, t, k)
    requires forall j :: j != k ==> (j in runners <==> j in runners') && (j in runners ==> runners'[j] == runners[j])
    requires forall r :: r in live' ==> r in live || r >= next
    requires forall r :: r in live && live[r] != k ==> r in live' && live'[r] == live[r]
    requires live' == live || Alone(threads, t, k)
    requires Relies(th, runners', live')
    ensures Placed(threads[t := th], runners', live')
  {
    var after := threads[t := th];
    forall u | u in after
      ensures Relies(after[u], runners', live')
    {
      if u != t {
        assert Relies(threads[u], runners, live);
      }
    }
  }

  /** The thread goes on covering what it covered, or the runner is no longer live. */
  ghost predicate Carries(th: Thread, th': Thread, live: map<RunnerId, Key>, live': map<RunnerId, Key>) {
    forall r, kid {:trigger Pending(th', kid, live'[r], r)} :: r in live' ==>
      Pending(th', kid, live'[r], r) || (r in live && live[r] == live'[r] && !Pending(th, kid, live[r], r))
  }

  lemma CoveredStays(threads: Threads, kids: map<Tid, Key>, live: map<RunnerId, Key>, t: Tid, th': Thread,
      live': map<RunnerId, Key>)
    requires t in threads && AllCovered(threads, kids, live) && Carries(threads[t], th', live, live')
    ensures AllCovered(threads[t := th'], kids, live')
  {
    var after := threads[t := th'];
    forall r | r in live'
      ensures Covered(after, kids, live'[r], r)
    {
      if Pending(th', t in kids, live'[r], r) {
        assert Pending(after[t], t in kids, live'[r], r);
      } else {
        assert Covered(threads, kids, live[r], r);
        var u :| u in threads && Pending(threads[u], u in kids, live[r], r);
        assert Pending(after[u], u in kids, live'[r], r);
      }
    }
  }

  lemma ClosingStays(threads: Threads, live: map<RunnerId, Key>, closed: bool, t: Tid, th': Thread,
      live': map<RunnerId, Key>)
    requires AllClosing(threads, live, closed) && t in threads && threads[t].Caller? && !threads[t].phase.Returned?
    requires th'.Caller?
    requires Carries(threads[t], th', live, live')
    ensures AllClosing(threads[t := th'], live', closed)
  {
    var after := threads[t := th'];
    forall u | u in after
      ensures Closing(after, live', closed, u)
    {
      if u != t {
        assert Closing(threads, live, closed, u);
        if PastEnumeration(threads[u]) {
          CoveredStays(threads, Kids(threads[u]), live, t, th', live');
        }
      }
    }
  }

  /** The mutex half of the invariant. */
  ghost predicate Locked(s: State) {
    Linked(s.threads, s.locks) && Counted(s.threads, s.locks, s.waiters) && Exclusive(s.threads, s.owned)
  }

  /** The runner half. */
  ghost predicate Run(s: State) {
    && Known(s.runners, s.live, s.nextRunner) && Placed(s.threads, s.runners, s.live)
    && Mapped(s.threads, s.runners, s.live) && AllClosing(s.threads, s.live, s.closed)
  }

  ghost predicate Working(s: State, t: Tid, k: Key, mu: Mutex, pc: Pc) {
    t in s.threads && s.threads[t].Caller? && s.threads[t].key == k && s.threads[t].phase == Holding(mu, pc)
  }

  lemma WorkLocked(s: State, t: Tid, k: Key, mu: Mutex, pc: Pc, choice: bool)
    requires Locked(s) && Working(s, t, k, mu, pc)
    ensures Locked(Work(s, t, k, mu, pc, choice))
  {
    var s' := Work(s, t, k, mu, pc, choice);
    var th := s'.threads[t];
    assert s'.threads == s.threads[t := th];
    CountedStays(s.threads, s.locks, s.waiters, t, th);
    if pc.Release? {
      ReleaseExclusive(s.threads, s.owned, t, th, mu);
    } else {
      ExclusiveStays(s.threads, s.owned, t, th);
    }
  }

  /** A step of a thread that was not removing leaves every remover where it is. */
  lemma MappedStays(threads: Threads, runners: map<Key, RunnerId>, live: map<RunnerId, Key>, t: Tid, th: Thread)
    requires Mapped(threads, runners, live) && (t in threads ==> forall k :: !Removes(threads[t], k))
    ensures Mapped(threads[t := th], runners, live)
  {
    var after := threads[t := th];
    forall k | k in runners
      ensures LiveAt(runners, live, k) || exists u :: u in after && Removes(after[u], k)
    {
      if !LiveAt(runners, live, k) {
        var u :| u in threads && Removes(threads[u], k);
        assert Removes(after[u], k);
      }
    }
  }

  /** Only the holder of a key removes its runner. */
  lemma AloneIsLive(threads: Threads, runners: map<Key, RunnerId>, live: map<RunnerId, Key>, t: Tid, k: Key)
    requires Mapped(threads, runners, live) && Alone(threads, t, k) && t in threads && !Removes(threads[t], k)
    ensures k in runners ==> LiveAt(runners, live, k)
  {
  }

  /** A step that changes no runner keeps the runner half, given what the thread then relies on. */
  lemma QuietRun(s: State, t: Tid, th': Thread)
    requires Run(s) && t in s.threads && s.threads[t].Caller? && !s.threads[t].phase.Returned? && th'.Caller?
    requires Relies(th', s.runners, s.live) && Carries(s.threads[t], th', s.live, s.live)
    requires forall k :: !Removes(s.threads[t], k)
    ensures Run(s.(threads := s.threads[t := th']))
  {
    MappedStays(s.threads, s.runners, s.live, t, th');
    PlacedStays(s.threads, s.runners, s.live, s.nextRunner, t, th', s.runners, s.live, th'.key);
    ClosingStays(s.threads, s.live, s.closed, t, th', s.live);
  }

  lemma CancelRun(s: State, t: Tid, k: Key, mu: Mutex, r: RunnerId, why: Why, choice: bool)
    requires Run(s) && Working(s, t, k, mu, Cancel(r, why)) && Alone(s.threads, t, k)
    ensures Run(Work(s, t, k, mu, Cancel(r, why), choice))
  {
    var s' := Work(s, t, k, mu, Cancel(r, why), choice);
    var th' := s'.threads[t];
    assert Relies(s.threads[t], s.runners, s.live);
    PlacedStays(s.threads, s.runners, s.live, s.nextRunner, t, th', s'.runners, s'.live, k);
    ClosingStays(s.threads, s.live, s.closed, t, th', s'.live);
    forall j | j in s.runners
      ensures LiveAt(s.runners, s'.live, j) || exists u :: u in s'.threads && Removes(s'.threads[u], j)
    {
      if j == k {
        assert Removes(s'.threads[t], k);
      } else if !LiveAt(s.runners, s.live, j) {
        var u :| u in s.threads && Removes(s.threads[u], j);
        assert Removes(s'.threads[u], j);
      }
    }
  }

  lemma RemoveRun(s: State, t: Tid, k: Key, mu: Mutex, r: RunnerId, why: Why, choice: bool)
    requires Run(s) && Working(s, t, k, mu, Remove(r, why)) && Alone(s.threads, t, k)
    ensures Run(Work(s, t, k, mu, Remove(r, why), choice))
  {
    var s' := Work(s, t, k, mu, Remove(r, why), choice);
    var th' := s'.threads[t];
    assert Relies(s.threads[t], s.runners, s.live);
    PlacedStays(s.threads, s.runners, s.live, s.nextRunner, t, th', s'.runners, s'.live, k);
    ClosingStays(s.threads, s.live, s.closed, t, th', s'.live);
    forall j | j in s'.runners
      ensures LiveAt(s'.runners, s'.live, j) || exists u :: u in s'.threads && Removes(s'.threads[u], j)
    {
      if !LiveAt(s.runners, s.live, j) {
        var u :| u in s.threads && Removes(s.threads[u], j);
        assert Removes(s'.threads[u], j);
      }
    }
  }

  lemma StartRun(s: State, t: Tid, k: Key, mu: Mutex, again: bool, choice: bool)
    requires Run(s) && Working(s, t, k, mu, Start(again)) && Alone(s.threads, t, k)
    ensures Run(Work(s, t, k, mu, Start(again), choice))
  {
    var s' := Work(s, t, k, mu, Start(again), choice);
    var th' := s'.threads[t];
    assert Relies(s.threads[t], s.runners, s.live);
    PlacedStays(s.threads, s.runners, s.live, s.nextRunner, t, th', s'.runners, s'.live, k);
    ClosingStays(s.threads, s.live, s.closed, t, th', s'.live);
    StartMapped(s, t, k, s', th');
  }

  lemma StartMapped(s: State, t: Tid, k: Key, s': State, th': Thread)
    requires Mapped(s.threads, s.runners, s.live) && t in s.threads && forall j :: !Removes(s.threads[t], j)
    requires s'.threads == s.threads[t := th']
    requires (s'.runners == s.runners && s'.live == s.live) ||
             (s'.runners == s.runners[k := s.nextRunner] && s'.live == s.live[s.nextRunner := k])
    requires Known(s.runners, s.live, s.nextRunner)
    ensures Mapped(s'.threads, s'.runners, s'.live)
  {
    forall j | j in s'.runners
      ensures LiveAt(s'.runners, s'.live, j) || exists u :: u in s'.threads && Removes(s'.threads[u], j)
    {
      if j in s.runners && !LiveAt(s.runners, s.live, j) {
        var u :| u in s.threads && Removes(s.threads[u], j);
        assert Removes(s'.threads[u], j);
      }
    }
  }

  lemma LookRun(s: State, t: Tid, k: Key, mu: Mutex, pc: Pc, choice: bool)
    requires Run(s) && Working(s, t, k, mu, pc) && (pc.CheckClosed? || pc.Decide? || pc.LookUp? || pc.Release?)
    requires Alone(s.threads, t, k)
    ensures Run(Work(s, t, k, mu, pc, choice))
  {
    var s' := Work(s, t, k, mu, pc, choice);
    var th' := s'.threads[t];
    assert Relies(s.threads[t], s.runners, s.live);
    AloneIsLive(s.threads, s.runners, s.live, t, k);
    QuietRun(s, t, th');
  }

  /** The re-check sees the latch, or no shutdown has enumerated yet. */
  lemma RecheckRun(s: State, t: Tid, k: Key, mu: Mutex, again: bool, choice: bool)
    requires Run(s) && Working(s, t, k, mu, Recheck(again))
    ensures Run(Work(s, t, k, mu, Recheck(again), choice))
  {
    var s' := Work(s, t, k, mu, Recheck(again), choice);
    var th' := s'.threads[t];
    assert Relies(s.threads[t], s.runners, s.live);
    PlacedStays(s.threads, s.runners, s.live, s.nextRunner, t, th', s.runners, s.live, k);
    MappedStays(s.threads, s.runners, s.live, t, th');
    if s.closed {
      ClosingStays(s.threads, s.live, s.closed, t, th', s.live);
    } else {
      forall u | u in s'.threads
        ensures Closing(s'.threads, s.live, s.closed, u)
      {
        assert u != t ==> Closing(s.threads, s.live, s.closed, u);
      }
    }
  }

  lemma WorkRun(s: State, t: Tid, k: Key, mu: Mutex, pc: Pc, choice: bool)
    requires Run(s) && Working(s, t, k, mu, pc) && Alone(s.threads, t, k)
    ensures Run(Work(s, t, k, mu, pc, choice))
  {
    match pc
    case Cancel(r, why) => CancelRun(s, t, k, mu, r, why, choice);
    case Remove(r, why) => RemoveRun(s, t, k, mu, r, why, choice);
    case Start(again) => StartRun(s, t, k, mu, again, choice);
    case Recheck(again) => RecheckRun(s, t, k, mu, again, choice);
    case _ => LookRun(s, t, k, mu, pc, choice);
  }

  ghost predicate Good(s: State) { Locked(s) && Run(s) }

  lemma WorkGood(s: State, t: Tid, k: Key, mu: Mutex, pc: Pc, choice: bool)
    requires Good(s) && Working(s, t, k, mu, pc)
    ensures Good(Work(s, t, k, mu, pc, choice))
  {
    WorkLocked(s, t, k, mu, pc, choice);
    HolderIsAlone(s, t, k);
    WorkRun(s, t, k, mu, pc, choice);
  }

  lemma EnterGood(s: State, t: Tid, k: Key)
    requires Good(s) && t in s.threads && s.threads[t].Caller? && s.threads[t].phase.Entering? && s.threads[t].key == k
    ensures Good(Enter(s, t, k))
  {
    EnterCounted(s, t, k);
    var th := Enter(s, t, k).threads[t];
    ExclusiveStays(s.threads, s.owned, t, th);
    QuietRun(s, t, th);
  }

  lemma LeaveGood(s: State, t: Tid, k: Key)
    requires Good(s) && t in s.threads && s.threads[t].Caller? && s.threads[t].phase.Leaving? && s.threads[t].key == k
    ensures Good(Leave(s, t, k))
  {
    LeaveCounted(s, t, k);
    var th := Leave(s, t, k).threads[t];
    ExclusiveStays(s.threads, s.owned, t, th);
    QuietRun(s, t, th);
  }

  lemma AcquireGood(s: State, t: Tid, mu: Mutex)
    requires Good(s) && t in s.threads && s.threads[t].Caller? && s.threads[t].phase == Waiting(mu) && mu !in s.owned
    ensures Good(Next(s, Go(t, true)))
  {
    var th := Next(s, Go(t, true)).threads[t];
    CountedStays(s.threads, s.locks, s.waiters, t, th);
    AcquireExclusive(s.threads, s.owned, t, th, mu);
    QuietRun(s, t, th);
  }

  lemma CallerGood(s: State, t: Tid, choice: bool)
    requires Good(s) && Enabled(s, Go(t, choice)) && s.threads[t].Caller?
    ensures Good(Next(s, Go(t, choice)))
  {
    var k := s.threads[t].key;
    match s.threads[t].phase
    case Entering => EnterGood(s, t, k);
    case Waiting(mu) => AcquireGood(s, t, mu);
    case Holding(mu, pc) => WorkGood(s, t, k, mu, pc, choice);
    case Leaving(mu) => LeaveGood(s, t, k);
  }

  /** A thread outside every line and every shutdown's count comes in or moves on. */
  lemma OutsiderLocked(s: State, t: Tid, th: Thread)
    requires Locked(s) && !th.Registered() && (t in s.threads ==> !s.threads[t].Registered())
    ensures Locked(s.(threads := s.threads[t := th]))
  {
    CountedStays(s.threads, s.locks, s.waiters, t, th);
    ExclusiveStays(s.threads, s.owned, t, th);
  }

  lemma CallGood(s: State, t: Tid, th: Thread)
    requires Good(s) && t !in s.threads && (th == Closer(Latching) || (th.Caller? && th.phase.Entering?))
    ensures Good(s.(threads := s.threads[t := th]))
  {
    OutsiderLocked(s, t, th);
    PlacedStays(s.threads, s.runners, s.live, s.nextRunner, t, th, s.runners, s.live, "");
    MappedStays(s.threads, s.runners, s.live, t, th);
    var after := s.threads[t := th];
    forall u | u in after
      ensures Closing(after, s.live, s.closed, u)
    {
      if u != t {
        assert Closing(s.threads, s.live, s.closed, u);
        if PastEnumeration(s.threads[u]) {
          MoreThreadsCover(s.threads, after, Kids(s.threads[u]), s.live);
        }
      }
    }
  }

  lemma MoreThreadsCover(threads: Threads, more: Threads, kids: map<Tid, Key>, live: map<RunnerId, Key>)
    requires AllCovered(threads, kids, live)
    requires forall u :: u in threads && threads[u].Caller? ==> u in more && more[u] == threads[u]
    ensures AllCovered(more, kids, live)
  {
    forall r | r in live
      ensures Covered(more, kids, live[r], r)
    {
      assert Covered(threads, kids, live[r], r);
      var u :| u in threads && Pending(threads[u], u in kids, live[r], r);
      assert Pending(more[u], u in kids, live[r], r);
    }
  }

  lemma LatchGood(s: State, t: Tid)
    requires Good(s) && t in s.threads && s.threads[t] == Closer(Latching)
    ensures Good(s.(closed := true, threads := s.threads[t := Closer(Enumerating)]))
  {
    var th := Closer(Enumerating);
    OutsiderLocked(s, t, th);
    PlacedStays(s.threads, s.runners, s.live, s.nextRunner, t, th, s.runners, s.live, "");
    MappedStays(s.threads, s.runners, s.live, t, th);
    var after := s.threads[t := th];
    forall u | u in after
      ensures Closing(after, s.live, true, u)
    {
      assert Closing(s.threads, s.live, s.closed, u);
      if PastEnumeration(s.threads[u]) {
        MoreThreadsCover(s.threads, after, Kids(s.threads[u]), s.live);
      }
    }
  }

  lemma JoinGood(s: State, t: Tid, kids: map<Tid, Key>)
    requires Good(s) && t in s.threads && s.threads[t] == Closer(Joining(kids)) && KidsReturned(s.threads, kids)
    ensures Good(s.(threads := s.threads[t := Closer(Shut(kids))]))
  {
    var th := Closer(Shut(kids));
    OutsiderLocked(s, t, th);
    PlacedStays(s.threads, s.runners, s.live, s.nextRunner, t, th, s.runners, s.live, "");
    MappedStays(s.threads, s.runners, s.live, t, th);
    var after := s.threads[t := th];
    forall u | u in after
      ensures Closing(after, s.live, s.closed, u)
    {
      assert Closing(s.threads, s.live, s.closed, u);
      if PastEnumeration(s.threads[u]) {
        MoreThreadsCover(s.threads, after, Kids(s.threads[u]), s.live);
      }
    }
  }

  function WithKids(threads: Threads, t: Tid, kids: map<Tid, Key>): Threads {
    (threads + (map u | u in kids :: Caller(false, kids[u], Entering)))[t := Closer(Joining(kids))]
  }

  lemma SpawnLocked(s: State, t: Tid, kids: map<Tid, Key>)
    requires Locked(s) && t in s.threads && s.threads[t] == Closer(Enumerating) && FreshKids(s, kids)
    ensures Locked(s.(threads := WithKids(s.threads, t, kids)))
  {
    var after := WithKids(s.threads, t, kids);
    assert forall u :: u in after && (after[u].Registered() || (after[u].Caller? && after[u].phase.Holding?)) ==>
      u in s.threads && s.threads[u] == after[u];
    forall k
      ensures |InLine(after, k)| == if k in s.waiters then s.waiters[k] else 0
    {
      assert InLine(after, k) == InLine(s.threads, k);
    }
    forall u, v | u in after && v in after && u != v
      ensures Apart(after, u, v)
    {
      if u in s.threads && v in s.threads {
        assert Apart(s.threads, u, v);
      }
    }
  }

  lemma SpawnCovers(s: State, t: Tid, kids: map<Tid, Key>)
    requires Run(s) && t in s.threads && s.threads[t] == Closer(Enumerating) && FreshKids(s, kids)
    ensures AllCovered(WithKids(s.threads, t, kids), kids, s.live)
  {
    var after := WithKids(s.threads, t, kids);
    forall r | r in s.live
      ensures Covered(after, kids, s.live[r], r)
    {
      var u :| u in kids && kids[u] == s.live[r];
      assert Pending(after[u], u in kids, s.live[r], r);
    }
  }

  lemma SpawnMapped(s: State, t: Tid, kids: map<Tid, Key>)
    requires Run(s) && t in s.threads && s.threads[t] == Closer(Enumerating) && FreshKids(s, kids)
    ensures Mapped(WithKids(s.threads, t, kids), s.runners, s.live)
  {
    var after := WithKids(s.threads, t, kids);
    forall k | k in s.runners
      ensures LiveAt(s.runners, s.live, k) || exists u :: u in after && Removes(after[u], k)
    {
      if !LiveAt(s.runners, s.live, k) {
        var u :| u in s.threads && Removes(s.threads[u], k);
        assert u !in kids && Removes(after[u], k);
      }
    }
  }

  lemma SpawnGood(s: State, t: Tid, kids: map<Tid, Key>)
    requires Good(s) && t in s.threads && s.threads[t] == Closer(Enumerating) && FreshKids(s, kids)
    ensures Good(s.(threads := WithKids(s.threads, t, kids)))
  {
    SpawnLocked(s, t, kids);
    SpawnCovers(s, t, kids);
    SpawnMapped(s, t, kids);
    var after := WithKids(s.threads, t, kids);
    forall u | u in after
      ensures Relies(after[u], s.runners, s.live)
    {
      assert u in s.threads ==> Relies(s.threads[u], s.runners, s.live);
    }
    forall u | u in after
      ensures Closing(after, s.live, s.closed, u)
    {
      SpawnCloses(s, t, kids, u);
    }
  }

  lemma SpawnCloses(s: State, t: Tid, kids: map<Tid, Key>, u: Tid)
    requires Good(s) && t in s.threads && s.threads[t] == Closer(Enumerating) && FreshKids(s, kids)
    requires u in WithKids(s.threads, t, kids)
    ensures Closing(WithKids(s.threads, t, kids), s.live, s.closed, u)
  {
    SpawnCovers(s, t, kids);
    if u in s.threads {
      assert Closing(s.threads, s.live, s.closed, u);
      if PastEnumeration(s.threads[u]) {
        MoreThreadsCover(s.threads, WithKids(s.threads, t, kids), Kids(s.threads[u]), s.live);
      }
    }
  }

  lemma StepGood(s: State, a: Act)
    requires Good(s) && Enabled(s, a)
    ensures Good(Next(s, a))
  {
    match a
    case CallEnsure(t, k) => CallGood(s, t, Caller(true, k, Entering));
    case CallStop(t, k) => CallGood(s, t, Caller(false, k, Entering));
    case CallShutdown(t) => CallGood(s, t, Closer(Latching));
    case Spawn(t, kids) => SpawnGood(s, t, kids);
    case Go(t, choice) =>
      if s.threads[t].Caller? {
        CallerGood(s, t, choice);
      } else if s.threads[t].stage.Latching? {
        LatchGood(s, t);
      } else {
        JoinGood(s, t, s.threads[t].stage.kids);
      }
  }

  // ---------------------------------------------------------------- every interleaving

  /** s is what some interleaving of calls and steps leads to. */
  ghost predicate Reachable(acts: seq<Act>, s: State)
    decreases |acts|
  {
    if acts == [] then s == Initial()
    else
      var last, before := acts[|acts| - 1], acts[..|acts| - 1];
      exists b :: Leads(b, last, s) && Reachable(before, b)
  }

  ghost predicate Leads(b: State, a: Act, s: State) { Enabled(b, a) && s == Next(b, a) }

  lemma InitialGood()
    ensures Good(Initial())
  {
    assert forall k :: InLine(map[], k) == {};
  }

  lemma {:induction false} ReachableIsGood(acts: seq<Act>, s: State)
    requires Reachable(acts, s)
    ensures Good(s)
    decreases |acts|
  {
    if acts == [] {
      InitialGood();
    } else {
      var last := acts[|acts| - 1];
      var b :| Leads(b, last, s) && Reachable(acts[..|acts| - 1], b);
      ReachableIsGood(acts[..|acts| - 1], b);
      StepGood(b, last);
    }
  }

  /** Under every interleaving, no two calls work on one key at once. */
  lemma KeysAreExclusive(acts: seq<Act>, s: State, t: Tid, u: Tid, k: Key)
    requires Reachable(acts, s) && t in s.threads && u in s.threads && s.threads[t].Holds(k) && s.threads[u].Holds(k)
    ensures t == u
  {
    ReachableIsGood(acts, s);
    MutualExclusion(s, t, u, k);
  }

  /** Under every interleaving, a key has at most one runner started and not cancelled, and it is the
      one in the map. */
  lemma OneRunnerPerKey(acts: seq<Act>, s: State, r: RunnerId, q: RunnerId)
    requires Reachable(acts, s) && r in s.live && q in s.live && s.live[r] == s.live[q]
    ensures r == q && s.live[r] in s.runners && s.runners[s.live[r]] == r
  {
    ReachableIsGood(acts, s);
  }

  /** Under every interleaving, a Stop that is done with its key has left no runner of it. */
  lemma StopStops(acts: seq<Act>, s: State, t: Tid, k: Key)
    requires Reachable(acts, s) && t in s.threads && s.threads[t].Holds(k) && !s.threads[t].ensuring
    requires s.threads[t].phase.pc.Release?
    ensures k !in s.runners && forall r :: r in s.live ==> s.live[r] != k
  {
    ReachableIsGood(acts, s);
    assert Relies(s.threads[t], s.runners, s.live);
  }

  /** Under every interleaving, an Ensure that starts a runner has first left none of its key, so what it
      chose to replace is gone. */
  lemma StartsOnNothing(acts: seq<Act>, s: State, t: Tid, k: Key)
    requires Reachable(acts, s) && t in s.threads && s.threads[t].Holds(k) && s.threads[t].phase.pc.Start?
    ensures k !in s.runners && forall r :: r in s.live ==> s.live[r] != k
  {
    ReachableIsGood(acts, s);
    assert Relies(s.threads[t], s.runners, s.live);
  }

  /** Under every interleaving, an Ensure that kept, started or replaced a runner leaves one that is in
      the map and uncancelled; one that took its own back, could not build or gave up leaves none. */
  lemma EnsureLeaves(acts: seq<Act>, s: State, t: Tid, k: Key)
    requires Reachable(acts, s) && t in s.threads && s.threads[t].Holds(k) && s.threads[t].ensuring
    requires s.threads[t].phase.pc.Release?
    ensures var res := s.threads[t].phase.pc.result;
      && res != Gone
      && (res in {Kept, Started, Replaced} ==> k in s.runners && s.runners[k] in s.live && s.live[s.runners[k]] == k)
      && (res in {TakenBack, NotBuilt, GaveUp} ==> k !in s.runners && forall r :: r in s.live ==> s.live[r] != k)
  {
    ReachableIsGood(acts, s);
    assert Relies(s.threads[t], s.runners, s.live);
  }

  // ---------------------------------------------------------------- nobody waits for ever

  predicate Holder(threads: Threads, t: Tid, mu: Mutex) {
    t in threads && threads[t].Caller? && threads[t].phase.Holding? && threads[t].phase.mu == mu
  }

  /** Whatever mutex is owned, a call holds it. */
  ghost predicate AllHeld(threads: Threads, owned: set<Mutex>) {
    forall mu :: mu in owned ==> exists t :: Holder(threads, t, mu)
  }

  /** Every holder but t goes on holding. */
  lemma OthersHold(threads: Threads, owned: set<Mutex>, t: Tid, threads': Threads, owned': set<Mutex>)
    requires AllHeld(threads, owned)
    requires forall u, mu :: u != t && Holder(threads, u, mu) ==> Holder(threads', u, mu)
    requires forall mu :: mu in owned' ==> mu in owned || Holder(threads', t, mu)
    requires forall mu :: Holder(threads, t, mu) ==> mu !in owned' || Holder(threads', t, mu)
    ensures AllHeld(threads', owned')
  {
    forall mu | mu in owned'
      ensures exists u :: Holder(threads', u, mu)
    {
      if !Holder(threads', t, mu) {
        var u :| Holder(threads, u, mu);
        assert Holder(threads', u, mu);
      }
    }
  }

  /** The call goes on holding the mutex, and nobody else has moved. */
  ghost predicate GoesOn(s: State, s': State, t: Tid, mu: Mutex) {
    t in s'.threads && s'.threads == s.threads[t := s'.threads[t]] && s'.owned == s.owned && Holder(s'.threads, t, mu)
  }

  lemma LookGoesOn(s: State, t: Tid, k: Key, mu: Mutex, pc: Pc, choice: bool)
    requires t in s.threads && s.threads[t].Caller? && s.threads[t].phase == Holding(mu, pc)
    requires pc.CheckClosed? || pc.Decide? || pc.LookUp? || pc.Recheck?
    ensures GoesOn(s, Work(s, t, k, mu, pc, choice), t, mu)
  {
  }

  lemma ActGoesOn(s: State, t: Tid, k: Key, mu: Mutex, pc: Pc, choice: bool)
    requires t in s.threads && s.threads[t].Caller? && s.threads[t].phase == Holding(mu, pc)
    requires pc.Cancel? || pc.Remove? || pc.Start?
    ensures GoesOn(s, Work(s, t, k, mu, pc, choice), t, mu)
  {
  }

  /** A step under the mutex goes on holding it, unless it gives it up. */
  lemma WorkGoesOn(s: State, t: Tid, k: Key, mu: Mutex, pc: Pc, choice: bool)
    requires t in s.threads && s.threads[t].Caller? && s.threads[t].phase == Holding(mu, pc) && !pc.Release?
    ensures GoesOn(s, Work(s, t, k, mu, pc, choice), t, mu)
  {
    if pc.Cancel? || pc.Remove? || pc.Start? {
      ActGoesOn(s, t, k, mu, pc, choice);
    } else {
      LookGoesOn(s, t, k, mu, pc, choice);
    }
  }

  lemma WorkHeld(s: State, t: Tid, choice: bool)
    requires AllHeld(s.threads, s.owned) && t in s.threads && s.threads[t].Caller? && s.threads[t].phase.Holding?
    ensures AllHeld(Next(s, Go(t, choice)).threads, Next(s, Go(t, choice)).owned)
  {
    var k, mu, pc := s.threads[t].key, s.threads[t].phase.mu, s.threads[t].phase.pc;
    var s' := Work(s, t, k, mu, pc, choice);
    if !pc.Release? {
      WorkGoesOn(s, t, k, mu, pc, choice);
    }
    OthersHold(s.threads, s.owned, t, s'.threads, s'.owned);
  }

  lemma StepHeld(s: State, a: Act)
    requires AllHeld(s.threads, s.owned) && Enabled(s, a)
    ensures AllHeld(Next(s, a).threads, Next(s, a).owned)
  {
    if a.Go? && s.threads[a.t].Caller? && s.threads[a.t].phase.Holding? {
      WorkHeld(s, a.t, a.choice);
    } else {
      OthersHold(s.threads, s.owned, a.t, Next(s, a).threads, Next(s, a).owned);
    }
  }

  lemma {:induction false} ReachableHeld(acts: seq<Act>, s: State)
    requires Reachable(acts, s)
    ensures AllHeld(s.threads, s.owned)
    decreases |acts|
  {
    if acts != [] {
      var last := acts[|acts| - 1];
      var b :| Leads(b, last, s) && Reachable(acts[..|acts| - 1], b);
      ReachableHeld(acts[..|acts| - 1], b);
      StepHeld(b, last);
    }
  }

  /** No deadlock: in every reachable state in which a call has not returned, some call can take its next
      step. A mutex somebody waits for is held by a call that can move on. */
  lemma SomeCallCanMove(acts: seq<Act>, s: State, t: Tid) returns (u: Tid)
    requires Reachable(acts, s) && t in s.threads && s.threads[t].Caller? && !s.threads[t].phase.Returned?
    ensures u in s.threads && s.threads[u].Caller? && Enabled(s, Go(u, true)) && Enabled(s, Go(u, false))
  {
    u := t;
    ReachableHeld(acts, s);
    if s.threads[t].phase.Waiting? && s.threads[t].phase.mu in s.owned {
      u :| Holder(s.threads, u, s.threads[t].phase.mu);
    }
  }

  /** A mutex exists only while a call holds or wants it. */
  lemma MutexesAreDropped(acts: seq<Act>, s: State)
    requires Reachable(acts, s) && forall t :: t in s.threads ==> !s.threads[t].Registered()
    ensures s.locks == map[] && s.waiters == map[]
  {
    ReachableIsGood(acts, s);
    forall k
      ensures k !in s.waiters
    {
      assert InLine(s.threads, k) == {};
    }
    assert s.waiters == map[] && s.locks.Keys == {};
  }

  /** After a shutdown has returned, a live runner can only be one whose own Ensure is still under
      way and is about to take it back. */
  lemma ShutdownLeavesOnlyTakebacks(acts: seq<Act>, s: State, t: Tid, r: RunnerId)
    requires Reachable(acts, s) && t in s.threads && s.threads[t].Closer? && s.threads[t].stage.Shut? && r in s.live
    ensures s.closed
    ensures exists u ::
      u in s.threads && s.threads[u].Holds(s.live[r]) && s.threads[u].ensuring &&
      (s.threads[u].phase.pc.Recheck? || (s.threads[u].phase.pc.Cancel? && s.threads[u].phase.pc.r == r))
  {
    ReachableIsGood(acts, s);
    assert Closing(s.threads, s.live, s.closed, t);
    var kids := s.threads[t].stage.kids;
    assert Covered(s.threads, kids, s.live[r], r);
    var u :| u in s.threads && Pending(s.threads[u], u in kids, s.live[r], r);
    assert s.threads[u].Holds(s.live[r]);
  }

  /** An Ensure on the key that is about to take its runner back. */
  predicate TakesBack(th: Thread, k: Key) {
    th.Holds(k) && th.ensuring && (th.phase.pc.Recheck? || th.phase.pc.Cancel?)
  }

  /** After a shutdown has returned, a key has a live runner if and only if an Ensure on it is about to
      take that runner back. */
  lemma LiveIffTakenBack(acts: seq<Act>, s: State, t: Tid, k: Key)
    requires Reachable(acts, s) && t in s.threads && s.threads[t].Closer? && s.threads[t].stage.Shut?
    ensures (exists r :: r in s.live && s.live[r] == k) <==> (exists u :: u in s.threads && TakesBack(s.threads[u], k))
  {
    ReachableIsGood(acts, s);
    if r :| r in s.live && s.live[r] == k {
      ShutdownLeavesOnlyTakebacks(acts, s, t, r);
    }
    if u :| u in s.threads && TakesBack(s.threads[u], k) {
      assert Relies(s.threads[u], s.runners, s.live);
      assert s.runners[k] in s.live;
    }
  }

  /** Once a shutdown and every Ensure have returned, no runner is left uncancelled. */
  lemma ShutdownIsFinal(acts: seq<Act>, s: State, t: Tid)
    requires Reachable(acts, s) && t in s.threads && s.threads[t].Closer? && s.threads[t].stage.Shut?
    requires forall u :: u in s.threads && s.threads[u].Caller? && s.threads[u].ensuring ==>
      s.threads[u].phase.Returned?
    ensures s.live == map[]
  {
    forall r
      ensures r !in s.live
    {
      if r in s.live {
        ShutdownLeavesOnlyTakebacks(acts, s, t, r);
      }
    }
  }

  // ---------------------------------------------------------------- a call left to itself

  /** The steps of one thread in a row. */
  ghost predicate CanGo(s: State, t: Tid, choices: seq<bool>)
    decreases |choices|
  {
    choices == [] || (Enabled(s, Go(t, choices[0])) && CanGo(Next(s, Go(t, choices[0])), t, choices[1..]))
  }

  ghost function After(s: State, t: Tid, choices: seq<bool>): State
    requires CanGo(s, t, choices)
    decreases |choices|
  {
    if choices == [] then s else After(Next(s, Go(t, choices[0])), t, choices[1..])
  }

  /** The call is about to give up the mutex with this result, and has done this to the runners. */
  ghost predicate EndsWith(s: State, s': State, t: Tid, mu: Mutex, result: Result, runners: map<Key, RunnerId>,
      live: map<RunnerId, Key>) {
    && t in s.threads && s.threads[t].Caller?
    && s'.threads == s.threads[t := s.threads[t].(phase := Holding(mu, Release(result)))]
    && s'.runners == runners && s'.live == live && s'.closed == s.closed
  }

  lemma GoOnce(s: State, t: Tid, c: bool, more: seq<bool>)
    requires Enabled(s, Go(t, c)) && CanGo(Next(s, Go(t, c)), t, more)
    ensures CanGo(s, t, [c] + more) && After(s, t, [c] + more) == After(Next(s, Go(t, c)), t, more)
  {
    assert ([c] + more)[1..] == more;
  }

  lemma GoOnly(s: State, t: Tid, c: bool)
    requires Enabled(s, Go(t, c))
    ensures CanGo(s, t, [c]) && After(s, t, [c]) == Next(s, Go(t, c))
  {
    assert [c][1..] == [];
  }

  /** After the latch an Ensure is turned away at once. */
  lemma EnsureTurnedAway(s: State, t: Tid, k: Key, mu: Mutex)
    requires Working(s, t, k, mu, CheckClosed) && s.closed
    ensures CanGo(s, t, [true])
    ensures EndsWith(s, After(s, t, [true]), t, mu, TurnedAway, s.runners, s.live)
  {
    GoOnly(s, t, true);
  }

  /** A Stop cancels the runner there is and takes it out of the map; without one it changes nothing. */
  lemma StopAlone(s: State, t: Tid, k: Key, mu: Mutex)
    requires Working(s, t, k, mu, LookUp)
    ensures k !in s.runners ==>
      CanGo(s, t, [true]) && EndsWith(s, After(s, t, [true]), t, mu, Gone, s.runners, s.live)
    ensures k in s.runners ==>
      CanGo(s, t, [true, true, true]) &&
      EndsWith(s, After(s, t, [true, true, true]), t, mu, Gone, s.runners - {k}, s.live - {s.runners[k]})
  {
    if k in s.runners {
      var s1 := Next(s, Go(t, true));
      var s2 := Next(s1, Go(t, true));
      GoOnly(s2, t, true);
      GoOnce(s1, t, true, [true]);
      GoOnce(s, t, true, [true, true]);
      assert [true] + [true] == [true, true] && [true] + [true, true] == [true, true, true];
    } else {
      GoOnly(s, t, true);
    }
  }

  /** An Ensure about to start a runner, whose build succeeds, starts it and ends well before the latch. */
  lemma StartAlone(s: State, t: Tid, k: Key, mu: Mutex, again: bool)
    requires Working(s, t, k, mu, Start(again)) && !s.closed
    ensures CanGo(s, t, [false, true])
    ensures EndsWith(s, After(s, t, [false, true]), t, mu, if again then Replaced else Started,
      s.runners[k := s.nextRunner], s.live[s.nextRunner := k])
  {
    var s1 := Next(s, Go(t, false));
    GoOnly(s1, t, true);
    GoOnce(s, t, false, [true]);
    assert [false] + [true] == [false, true];
  }

  /** One whose build fails ends there and leaves the runners as they are. */
  lemma StartFails(s: State, t: Tid, k: Key, mu: Mutex, again: bool)
    requires Working(s, t, k, mu, Start(again))
    ensures CanGo(s, t, [true])
    ensures EndsWith(s, After(s, t, [true]), t, mu, NotBuilt, s.runners, s.live)
  {
    GoOnly(s, t, true);
  }

  /** One that gives up waiting for the old runner to stop has cancelled it and starts nothing. */
  lemma ReplaceGivesUp(s: State, t: Tid, k: Key, mu: Mutex, r: RunnerId)
    requires Working(s, t, k, mu, Cancel(r, ToReplace)) && k in s.runners && s.runners[k] == r
    ensures CanGo(s, t, [true, false])
    ensures EndsWith(s, After(s, t, [true, false]), t, mu, GaveUp, s.runners - {k}, s.live - {r})
  {
    var s1 := Next(s, Go(t, true));
    GoOnly(s1, t, false);
    GoOnce(s, t, true, [false]);
    assert [true] + [false] == [true, false];
  }

  /** An Ensure that finds no runner starts one. */
  lemma EnsureStarts(s: State, t: Tid, k: Key, mu: Mutex)
    requires Working(s, t, k, mu, CheckClosed) && !s.closed && k !in s.runners
    ensures CanGo(s, t, [true, true, false, true])
    ensures EndsWith(s, After(s, t, [true, true, false, true]), t, mu, Started, s.runners[k := s.nextRunner],
      s.live[s.nextRunner := k])
  {
    var s1 := Next(s, Go(t, true));
    var s2 := Next(s1, Go(t, true));
    StartAlone(s2, t, k, mu, false);
    GoOnce(s1, t, true, [false, true]);
    GoOnce(s, t, true, [true, false, true]);
    assert [true] + [false, true] == [true, false, true];
    assert [true] + [true, false, true] == [true, true, false, true];
  }

  /** An Ensure that finds a runner and need not replace it keeps it. */
  lemma EnsureKeeps(s: State, t: Tid, k: Key, mu: Mutex)
    requires Working(s, t, k, mu, CheckClosed) && !s.closed && k in s.runners
    ensures CanGo(s, t, [true, false])
    ensures EndsWith(s, After(s, t, [true, false]), t, mu, Kept, s.runners, s.live)
  {
    var s1 := Next(s, Go(t, true));
    GoOnly(s1, t, false);
    GoOnce(s, t, true, [false]);
    assert [true] + [false] == [true, false];
  }

  /** One that has to replace it cancels it, takes it out of the map and starts another. */
  lemma EnsureReplaces(s: State, t: Tid, k: Key, mu: Mutex)
    requires Working(s, t, k, mu, CheckClosed) && !s.closed && k in s.runners
    ensures CanGo(s, t, [true, true, true, true, false, true])
    ensures EndsWith(s, After(s, t, [true, true, true, true, false, true]), t, mu, Replaced,
      (s.runners - {k})[k := s.nextRunner], (s.live - {s.runners[k]})[s.nextRunner := k])
  {
    var s1 := Next(s, Go(t, true));
    var s2 := Next(s1, Go(t, true));
    var s3 := Next(s2, Go(t, true));
    var s4 := Next(s3, Go(t, true));
    StartAlone(s4, t, k, mu, true);
    GoOnce(s3, t, true, [false, true]);
    GoOnce(s2, t, true, [true, false, true]);
    GoOnce(s1, t, true, [true, true, false, true]);
    GoOnce(s, t, true, [true, true, true, false, true]);
    assert [true] + [false, true] == [true, false, true];
    assert [true] + [true, false, true] == [true, true, false, true];
    assert [true] + [true, true, false, true] == [true, true, true, false, true];
    assert [true] + [true, true, true, false, true] == [true, true, true, true, false, true];
  }

  lemma Extend(acts: seq<Act>, s: State, a: Act)
    requires Reachable(acts, s) && Enabled(s, a)
    ensures Reachable(acts + [a], Next(s, a))
  {
    assert (acts + [a])[..|acts|] == acts;
    assert Leads(s, a, Next(s, a));
  }

  /** An Ensure on a key with no runner gets as far as its start. */
  lemma AboutToStart(k: Key) returns (acts: seq<Act>, s: State)
    ensures Reachable(acts, s) && s.threads.Keys == {0} && s.threads[0] == Caller(true, k, Holding(0, Start(false)))
    ensures s.runners == map[] && s.live == map[] && s.nextRunner == 0
  {
    acts, s := [], Initial();
    acts, s := Then(acts, s, CallEnsure(0, k));
    acts, s := Then(acts, s, Go(0, true));
    assert s.threads[0] == Caller(true, k, Waiting(0)) && s.owned == {};
    acts, s := Then(acts, s, Go(0, true));
    acts, s := Then(acts, s, Go(0, true));
    assert s.threads[0] == Caller(true, k, Holding(0, Decide));
    acts, s := Then(acts, s, Go(0, true));
  }

  lemma LatchAndList(acts: seq<Act>, s: State, t: Tid) returns (acts': seq<Act>, s': State)
    requires Reachable(acts, s) && t !in s.threads
    ensures Reachable(acts', s') && s' == s.(closed := true, threads := s.threads[t := Closer(Enumerating)])
  {
    acts', s' := Then(acts, s, CallShutdown(t));
    acts', s' := Then(acts', s', Go(t, true));
    assert s.threads[t := Closer(Latching)][t := Closer(Enumerating)] == s.threads[t := Closer(Enumerating)];
  }

  lemma SpawnNone(acts: seq<Act>, s: State, t: Tid) returns (acts': seq<Act>, s': State)
    requires Reachable(acts, s) && s.runners == map[] && t in s.threads && s.threads[t] == Closer(Enumerating)
    ensures Reachable(acts', s') && s' == s.(threads := s.threads[t := Closer(Joining(map[]))])
  {
    acts', s' := Then(acts, s, Spawn(t, map[]));
    assert WithKids(s.threads, t, map[]) == s.threads[t := Closer(Joining(map[]))];
  }

  lemma JoinNone(acts: seq<Act>, s: State, t: Tid) returns (acts': seq<Act>, s': State)
    requires Reachable(acts, s) && t in s.threads && s.threads[t] == Closer(Joining(map[]))
    ensures Reachable(acts', s') && s' == s.(threads := s.threads[t := Closer(Shut(map[]))])
  {
    acts', s' := Then(acts, s, Go(t, true));
  }

  /** A shutdown that finds nothing in the map comes and goes. */
  lemma ShutBehindIt(k: Key) returns (acts: seq<Act>, s: State)
    ensures Reachable(acts, s) && 0 in s.threads && s.threads[0] == Caller(true, k, Holding(0, Start(false)))
    ensures 1 in s.threads && s.threads[1] == Closer(Shut(map[])) && s.live == map[] && s.nextRunner == 0
  {
    acts, s := AboutToStart(k);
    acts, s := LatchAndList(acts, s, 1);
    acts, s := SpawnNone(acts, s, 1);
    acts, s := JoinNone(acts, s, 1);
  }

  /** The wait for the Ensures is needed: one that passed the first check before the latch can start a
      runner after Shutdown has returned. Only its own re-check takes that runner back. */
  lemma ShutdownAloneIsNotFinal(k: Key) returns (acts: seq<Act>, s: State)
    ensures Reachable(acts, s) && 1 in s.threads && s.threads[1] == Closer(Shut(map[])) && s.live == map[0 := k]
  {
    acts, s := ShutBehindIt(k);
    acts, s := Then(acts, s, Go(0, false));
  }

  lemma Then(acts: seq<Act>, s: State, a: Act) returns (acts': seq<Act>, s': State)
    requires Reachable(acts, s) && Enabled(s, a)
    ensures Reachable(acts', s') && s' == Next(s, a)
  {
    Extend(acts, s, a);
    acts', s' := acts + [a], Next(s, a);
  }
}
