/** The manually advanced clock and its scheduler (pkg/clock/clock.go). */
module FakeClocks {
  import opened Events

  /** A timer has period zero. */
  datatype Waiter = Waiter(deadline: Time, period: nat)

  type Waiters = map<nat, Waiter>

  /** A firing: who, and at what time. */
  datatype Firing = Firing(id: nat, at: Time)

  /** `inbox` is each waiter's one-slot channel. `log` is every firing so far, delivered or dropped. */
  datatype Clock = Clock(now: Time, nextId: nat, waiters: Waiters, inbox: map<nat, Option<Time>>, log: seq<Firing>)
  {
    /** No pending deadline lies in the past, and every waiter has a channel. */
    ghost predicate Valid() {
      && (forall id :: id in waiters ==> waiters[id].deadline >= now)
      && waiters.Keys <= inbox.Keys
      && (forall id :: id in inbox ==> id <= nextId)
    }
  }

  // ---------------------------------------------------------------- what Advance computes

  predicate Due(ws: Waiters, target: Time, id: nat) { id in ws && ws[id].deadline <= target }

  predicate Before(ws: Waiters, a: nat, b: nat)
    requires a in ws && b in ws
  {
    ws[a].deadline < ws[b].deadline || (ws[a].deadline == ws[b].deadline && a <= b)
  }

  /** The smallest deadline at or before the target, ties to the earlier registration. */
  ghost predicate Earliest(ws: Waiters, target: Time, id: nat) {
    Due(ws, target, id) && forall j :: Due(ws, target, j) ==> Before(ws, id, j)
  }

  ghost predicate AnyDue(ws: Waiters, target: Time) { exists id :: Due(ws, target, id) }

  ghost predicate EarliestAmong(ws: Waiters, target: Time, left: set<nat>, id: nat) {
    id in left && Due(ws, target, id) && forall j :: j in left && Due(ws, target, j) ==> Before(ws, id, j)
  }

  lemma {:induction false} SomeEarliest(ws: Waiters, target: Time, left: set<nat>, a: nat) returns (id: nat)
    requires left <= ws.Keys && a in left && Due(ws, target, a)
    ensures EarliestAmong(ws, target, left, id)
    decreases left
  {
    id := a;
    if !EarliestAmong(ws, target, left, a) {
      var b :| b in left && Due(ws, target, b) && !Before(ws, a, b);
      id := SomeEarliest(ws, target, left - {a}, b);
    }
  }

  ghost function EarliestDue(ws: Waiters, target: Time): (id: nat)
    requires AnyDue(ws, target)
    ensures Earliest(ws, target, id)
  {
    HasEarliest(ws, target);
    var id :| Earliest(ws, target, id);
    id
  }

  lemma HasEarliest(ws: Waiters, target: Time)
    requires AnyDue(ws, target)
    ensures exists id :: Earliest(ws, target, id)
  {
    var a :| Due(ws, target, a);
    var id := SomeEarliest(ws, target, ws.Keys, a);
    assert Earliest(ws, target, id);
  }

  lemma OneEarliest(ws: Waiters, s: Time, t: Time, a: nat, b: nat)
    requires s <= t && Earliest(ws, s, a) && Earliest(ws, t, b)
    ensures a == b
  {
    assert Due(ws, t, a) && Before(ws, b, a);
    assert Due(ws, s, b) && Before(ws, a, b);
  }

  /** Time moves to the deadline, the tick is delivered unless one is already waiting, and the waiter
      is re-armed or forgotten. */
  function Fire(c: Clock, id: nat): Clock
    requires id in c.waiters
  {
    var w := c.waiters[id];
    Clock(
      w.deadline, c.nextId,
      if w.period > 0 then c.waiters[id := w.(deadline := w.deadline + w.period)] else c.waiters - {id},
      if id in c.inbox && c.inbox[id].Some? then c.inbox else c.inbox[id := Some(w.deadline)],
      c.log + [Firing(id, w.deadline)])
  }

  ghost function AtNow(c: Clock): set<nat> { set id | id in c.waiters && c.waiters[id].deadline <= c.now }

  lemma FireProgress(c: Clock, target: Time, id: nat)
    requires c.Valid() && Earliest(c.waiters, target, id)
    ensures Fire(c, id).Valid() && c.now <= Fire(c, id).now <= target
    ensures Fire(c, id).now == c.now ==> |AtNow(Fire(c, id))| < |AtNow(c)|
  {
    var f := Fire(c, id);
    assert forall j :: j in c.waiters && c.waiters[j].deadline <= target ==> Due(c.waiters, target, j);
    if f.now == c.now {
      assert AtNow(f) == AtNow(c) - {id};
    }
  }

  /** Fires everything due, one at a time in order, then moves to the target. Time only runs forward
      and, while it stands still, fewer waiters are due at it: this ends. */
  ghost function RunTo(c: Clock, target: Time): Clock
    requires c.Valid() && c.now <= target
    decreases target - c.now, |AtNow(c)|
  {
    if AnyDue(c.waiters, target) then
      var id := EarliestDue(c.waiters, target);
      FireProgress(c, target, id);
      RunTo(Fire(c, id), target)
    else c.(now := target)
  }

  // ---------------------------------------------------------------- what it means

  /** Afterwards it is the target time and nothing is due. */
  lemma {:induction false} RunToSettles(c: Clock, target: Time)
    requires c.Valid() && c.now <= target
    ensures var r := RunTo(c, target);
      && r.now == target && r.Valid() && r.nextId == c.nextId
      && (forall id :: id in r.waiters ==> r.waiters[id].deadline > target)
    decreases target - c.now, |AtNow(c)|
  {
    if AnyDue(c.waiters, target) {
      var id := EarliestDue(c.waiters, target);
      FireProgress(c, target, id);
      RunToSettles(Fire(c, id), target);
    } else {
      assert forall id :: id in c.waiters ==> !Due(c.waiters, target, id);
    }
  }

  /** Where the clock stood before makes no difference to what fires. */
  lemma MovedClock(c: Clock, now: Time, target: Time)
    requires c.Valid() && c.(now := now).Valid() && c.now <= target && now <= target
    ensures RunTo(c.(now := now), target) == RunTo(c, target)
  {
    var m := c.(now := now);
    if AnyDue(c.waiters, target) {
      var id := EarliestDue(c.waiters, target);
      FireProgress(c, target, id);
      FireProgress(m, target, id);
      assert Fire(m, id) == Fire(c, id);
    }
  }

  /** One advance is as good as two: the same time, deadlines, channel contents and firings. */
  lemma {:induction false} AdvanceComposes(c: Clock, t1: Time, t2: Time)
    requires c.Valid() && c.now <= t1 <= t2
    ensures RunTo(c, t1).Valid() && RunTo(c, t1).now == t1
    ensures RunTo(RunTo(c, t1), t2) == RunTo(c, t2)
    decreases t1 - c.now, |AtNow(c)|
  {
    RunToSettles(c, t1);
    if AnyDue(c.waiters, t1) {
      var id := EarliestDue(c.waiters, t1);
      assert Due(c.waiters, t2, id);
      OneEarliest(c.waiters, t1, t2, id, EarliestDue(c.waiters, t2));
      FireProgress(c, t1, id);
      AdvanceComposes(Fire(c, id), t1, t2);
    } else {
      MovedClock(c, t1, t2);
    }
  }

  function Fires(log: seq<Firing>, id: nat): nat
    decreases |log|
  {
    if log == [] then 0 else Fires(log[..|log| - 1], id) + if log[|log| - 1].id == id then 1 else 0
  }

  lemma FireCounts(log: seq<Firing>, f: Firing, id: nat)
    ensures Fires(log + [f], id) == Fires(log, id) + if f.id == id then 1 else 0
  {
    assert (log + [f])[..|log|] == log;
  }

  function Rounds(n: nat, p: nat): nat { if n == 0 then 0 else Rounds(n - 1, p) + p }

  lemma {:induction false} RoundsMultiply(n: nat, p: nat)
    ensures Rounds(n, p) == n * p
  {
    if n > 0 {
      RoundsMultiply(n - 1, p);
      assert (n - 1) * p + p == n * p;
    }
  }

  /** After n firings: re-armed n periods on, and past the target unless it never was due. */
  ghost predicate Ticked(w: Waiter, id: nat, log: seq<Firing>, r: Clock, target: Time, n: nat) {
    && Fires(r.log, id) == Fires(log, id) + n
    && id in r.waiters && r.waiters[id] == Waiter(w.deadline + Rounds(n, w.period), w.period)
    && (if w.deadline <= target then target < r.waiters[id].deadline <= target + w.period else n == 0)
  }

  lemma {:induction false} TickerRounds(c: Clock, target: Time, id: nat) returns (n: nat)
    requires c.Valid() && c.now <= target && id in c.waiters && c.waiters[id].period > 0
    ensures Ticked(c.waiters[id], id, c.log, RunTo(c, target), target, n)
    decreases target - c.now, |AtNow(c)|
  {
    n := 0;
    if AnyDue(c.waiters, target) {
      var e := EarliestDue(c.waiters, target);
      FireProgress(c, target, e);
      FireCounts(c.log, Firing(e, c.waiters[e].deadline), id);
      n := TickerRounds(Fire(c, e), target, id);
      if e == id {
        n := n + 1;
      }
    } else {
      assert !Due(c.waiters, target, id);
    }
  }

  /** A ticker fires once per period and lands just past the target. */
  lemma TickerFires(c: Clock, target: Time, id: nat) returns (n: nat)
    requires c.Valid() && c.now <= target && id in c.waiters && c.waiters[id].period > 0
    ensures var w, r := c.waiters[id], RunTo(c, target);
      && Fires(r.log, id) == Fires(c.log, id) + n
      && id in r.waiters && r.waiters[id] == Waiter(w.deadline + n * w.period, w.period)
      && (if w.deadline <= target then target < r.waiters[id].deadline <= target + w.period else n == 0)
  {
    n := TickerRounds(c, target, id);
    RoundsMultiply(n, c.waiters[id].period);
  }

  /** A timer that is due fires exactly once and is gone; one that is not stays. */
  lemma {:induction false} TimerFires(c: Clock, target: Time, id: nat)
    requires c.Valid() && c.now <= target && id in c.waiters && c.waiters[id].period == 0
    ensures var w, r := c.waiters[id], RunTo(c, target);
      && Fires(r.log, id) == Fires(c.log, id) + (if w.deadline <= target then 1 else 0)
      && (id in r.waiters <==> w.deadline > target)
    decreases target - c.now, |AtNow(c)|
  {
    if AnyDue(c.waiters, target) {
      var e := EarliestDue(c.waiters, target);
      FireProgress(c, target, e);
      FireCounts(c.log, Firing(e, c.waiters[e].deadline), id);
      if e == id {
        NeverFiresAgain(Fire(c, e), target, id);
      } else {
        TimerFires(Fire(c, e), target, id);
      }
    } else {
      assert !Due(c.waiters, target, id);
    }
  }

  lemma {:induction false} NeverFiresAgain(c: Clock, target: Time, id: nat)
    requires c.Valid() && c.now <= target && id !in c.waiters
    ensures id !in RunTo(c, target).waiters && Fires(RunTo(c, target).log, id) == Fires(c.log, id)
    decreases target - c.now, |AtNow(c)|
  {
    if AnyDue(c.waiters, target) {
      var e := EarliestDue(c.waiters, target);
      FireProgress(c, target, e);
      FireCounts(c.log, Firing(e, c.waiters[e].deadline), id);
      NeverFiresAgain(Fire(c, e), target, id);
    }
  }

  /** Firings are logged in time order, none before the clock stood where it did. */
  ghost predicate InOrder(log: seq<Firing>, from: nat, now: Time) {
    forall i :: from <= i < |log| ==> log[i].at <= now && (from < i ==> log[i - 1].at <= log[i].at)
  }

  lemma {:induction false} FiresInOrder(c: Clock, target: Time, from: nat)
    requires c.Valid() && c.now <= target && from <= |c.log| && InOrder(c.log, from, c.now)
    ensures InOrder(RunTo(c, target).log, from, target)
    decreases target - c.now, |AtNow(c)|
  {
    if AnyDue(c.waiters, target) {
      var e := EarliestDue(c.waiters, target);
      FireProgress(c, target, e);
      FiresInOrder(Fire(c, e), target, from);
    }
  }

  /** A channel that already holds a tick keeps it. */
  lemma {:induction false} PendingTickStays(c: Clock, target: Time, id: nat)
    requires c.Valid() && c.now <= target && id in c.inbox && c.inbox[id].Some?
    ensures id in RunTo(c, target).inbox && RunTo(c, target).inbox[id] == c.inbox[id]
    decreases target - c.now, |AtNow(c)|
  {
    if AnyDue(c.waiters, target) {
      var e := EarliestDue(c.waiters, target);
      FireProgress(c, target, e);
      PendingTickStays(Fire(c, e), target, id);
    }
  }

  /** What a channel holds after an advance: the tick that was waiting, or else the scheduled time of the
      waiter's first firing, or nothing if it had none. Other channels are untouched. */
  lemma {:induction false} FirstTickIsDelivered(c: Clock, target: Time, id: nat)
    requires c.Valid() && c.now <= target && id in c.inbox
    ensures id in RunTo(c, target).inbox
    ensures RunTo(c, target).inbox[id] ==
      if c.inbox[id].Some? then c.inbox[id]
      else if id in c.waiters && c.waiters[id].deadline <= target then Some(c.waiters[id].deadline)
      else None
    decreases target - c.now, |AtNow(c)|
  {
    if AnyDue(c.waiters, target) {
      var e := EarliestDue(c.waiters, target);
      FireProgress(c, target, e);
      if e == id {
        PendingTickStays(Fire(c, e), target, id);
      } else {
        FirstTickIsDelivered(Fire(c, e), target, id);
      }
    } else {
      assert !Due(c.waiters, target, id);
    }
  }

  /** The firing is one of the waiter's scheduled times. */
  ghost predicate OnSchedule(ws: Waiters, f: Firing) {
    f.id in ws && exists m: nat :: f.at == ws[f.id].deadline + Rounds(m, ws[f.id].period)
  }

  lemma OneLater(ws: Waiters, id: nat, f: Firing)
    requires id in ws && ws[id].period > 0
    requires OnSchedule(ws[id := ws[id].(deadline := ws[id].deadline + ws[id].period)], f)
    ensures OnSchedule(ws, f)
  {
    if f.id == id {
      var m: nat :| f.at == ws[id].deadline + ws[id].period + Rounds(m, ws[id].period);
      assert Rounds(m + 1, ws[id].period) == Rounds(m, ws[id].period) + ws[id].period;
    }
  }

  /** An advance keeps what was logged, and each new firing is at one of its waiter's scheduled times, so a
      tick carries when it was due and not when the clock got there. */
  lemma {:induction false} FiresOnSchedule(c: Clock, target: Time)
    requires c.Valid() && c.now <= target
    ensures c.log <= RunTo(c, target).log
    ensures forall i :: |c.log| <= i < |RunTo(c, target).log| ==> OnSchedule(c.waiters, RunTo(c, target).log[i])
    decreases target - c.now, |AtNow(c)|
  {
    if AnyDue(c.waiters, target) {
      var e := EarliestDue(c.waiters, target);
      FireProgress(c, target, e);
      var f, r := Fire(c, e), RunTo(c, target);
      FiresOnSchedule(f, target);
      forall i | |c.log| <= i < |r.log|
        ensures OnSchedule(c.waiters, r.log[i])
      {
        if i == |c.log| {
          assert r.log[i].at == c.waiters[e].deadline + Rounds(0, c.waiters[e].period);
        } else {
          assert OnSchedule(f.waiters, r.log[i]);
          if c.waiters[e].period > 0 {
            OneLater(c.waiters, e, r.log[i]);
          }
        }
      }
    }
  }

  // ---------------------------------------------------------------- the implementation

  /** Map iteration order is random, so the minimum is chosen explicitly. */
  method FindEarliest(ws: Waiters, target: Time) returns (best: Option<nat>)
    ensures best.None? <==> !AnyDue(ws, target)
    ensures best.Some? ==> Earliest(ws, target, best.value)
  {
    best := None;
    var left := ws.Keys;
    while left != {}
      invariant left <= ws.Keys
      invariant best.None? ==> forall j :: j in ws && j !in left ==> !Due(ws, target, j)
      invariant best.Some? ==> EarliestAmong(ws, target, ws.Keys - left, best.value)
      decreases |left|
    {
      var id :| id in left;
      var w := ws[id];
      if w.deadline <= target &&
        (best.None? || w.deadline < ws[best.value].deadline ||
        (w.deadline == ws[best.value].deadline && id < best.value)) {
        best := Some(id);
      }
      left := left - {id};
    }
  }

  method AdvanceTo(c: Clock, target: Time) returns (r: Clock)
    requires c.Valid() && c.now <= target
    ensures r == RunTo(c, target)
  {
    r := c;
    while true
      invariant r.Valid() && r.now <= target && RunTo(r, target) == RunTo(c, target)
      decreases target - r.now, |AtNow(r)|
    {
      var id := FindEarliest(r.waiters, target);
      if id.None? {
        break;
      }
      OneEarliest(r.waiters, target, target, id.value, EarliestDue(r.waiters, target));
      FireProgress(r, target, id.value);
      r := Fire(r, id.value);
    }
    r := r.(now := target);
  }

  class FakeClock {
    var state: Clock

    ghost predicate Valid()
      reads this
    {
      state.Valid()
    }

    constructor (start: Time)
      ensures Valid() && state == Clock(start, 0, map[], map[], [])
    {
      state := Clock(start, 0, map[], map[], []);
    }

    /** A non-positive delay is due at once, at the next advance. */
    method Register(d: int, period: nat) returns (id: nat)
      requires Valid()
      modifies this
      ensures Valid() && id !in old(state.inbox)
      ensures state == old(state).(
          nextId := id, waiters := old(state).waiters[id := Waiter(old(state).now + (if d < 0 then 0 else d), period)],
          inbox := old(state).inbox[id := None])
    {
      id := state.nextId + 1;
      state := state.(
        nextId := id, waiters := state.waiters[id := Waiter(state.now + (if d < 0 then 0 else d), period)],
        inbox := state.inbox[id := None]);
    }

    method Stop(id: nat) returns (active: bool)
      requires Valid()
      modifies this
      ensures Valid() && active == (id in old(state).waiters)
      ensures state == old(state).(waiters := old(state).waiters - {id})
    {
      active := id in state.waiters;
      state := state.(waiters := state.waiters - {id});
    }

    method Reset(id: nat, d: int, period: nat) returns (active: bool)
      requires Valid() && id in state.inbox
      modifies this
      ensures Valid() && active == (id in old(state).waiters)
      ensures state == old(state).(waiters :=
        old(state).waiters[id := Waiter(old(state).now + (if d < 0 then 0 else d), period)])
    {
      active := id in state.waiters;
      state := state.(waiters := state.waiters[id := Waiter(state.now + (if d < 0 then 0 else d), period)]);
    }

    /** Takes what is in a waiter's channel. */
    method Receive(id: nat) returns (tick: Option<Time>)
      requires Valid() && id in state.inbox
      modifies this
      ensures Valid() && tick == old(state).inbox[id] && state == old(state).(inbox := old(state).inbox[id := None])
    {
      tick := state.inbox[id];
      state := state.(inbox := state.inbox[id := None]);
    }

    method Advance(d: nat)
      requires Valid()
      modifies this
      ensures Valid() && state == RunTo(old(state), old(state).now + d)
      ensures state.now == old(state).now + d && forall id :: id in state.waiters ==>
        state.waiters[id].deadline > state.now
    {
      RunToSettles(state, state.now + d);
      state := AdvanceTo(state, state.now + d);
    }
  }

  /** Two advances with nothing in between are one. */
  method AdvanceTwice(a: FakeClock, b: FakeClock, d1: nat, d2: nat)
    requires a != b && a.Valid() && b.Valid() && a.state == b.state
    modifies a, b
    ensures a.state == b.state
  {
    AdvanceComposes(a.state, a.state.now + d1, a.state.now + d1 + d2);
    a.Advance(d1);
    a.Advance(d2);
    b.Advance(d1 + d2);
  }
}
