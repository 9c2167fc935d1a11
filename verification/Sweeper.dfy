/** The sweep and confirm passes (pkg/sweeper/sweeper.go, confirm.go).

    `Core` is what the sweeper's mutex guards. The functions on it are its critical sections; the
    class runs them in the order one sweep and one confirm cycle do. */
module Sweepers {
  import opened Events
  import opened Counting
  import opened OracleShard
  import opened Differ

  /** A disagreement waiting to be re-read. */
  datatype Candidate = Candidate(finding: Finding, version: nat, seenAt: Time, window: int)
  {
    function Key(): Key { finding.key }
    function DueAt(): Time { seenAt + window }
  }

  /** A disagreement confirmed a window later and not yet repaired. */
  datatype Episode = Episode(key: Key, finding: Finding, firstSeenAt: Time, confirmedAt: Time, window: int)

  /** The counters. `droppedNew` and `droppedBack` are the two causes of the source's
      ConfirmQueueDropped, `suspectSwept` and `suspectBack` those of its SuspectNotConfirmed;
      `displaced` is a loss the source does not count. */
  datatype Stats = Stats(
    enqueued: nat, droppedNew: nat, droppedBack: nat, displaced: nat,
    confirmations: nat, caughtUp: nat, advanced: nat, forgotten: nat, readFailed: nat, suspectBack: nat,
    suspectSwept: nat, fenceFailures: nat, compared: nat, driftResolved: nat, lastDriftDuration: int,
    episodesForgotten: nat, episodesSuperseded: nat)
  {
    /** Candidates decided, in one of six ways. */
    function Decided(): nat { confirmations + caughtUp + advanced + forgotten + readFailed + suspectBack }

    /** Candidates a put-back could not put back. */
    function Lost(): nat { droppedBack + displaced }
  }

  function ZeroStats(): Stats { Stats(0, 0, 0, 0, 0, 0, 0, 0, 0, 0, 0, 0, 0, 0, 0, 0, 0) }

  datatype Core = Core(
    queue: seq<Candidate>, queued: set<Key>, confirmed: map<Key, Episode>, requeued: set<Key>, stats: Stats)

  function EmptyCore(): Core { Core([], {}, map[], {}, ZeroStats()) }

  // ---------------------------------------------------------------- critical sections

  function Enqueue(s: Core, max: nat, f: Finding, version: nat, now: Time, w: int): Core {
    if f.key in s.queued then s
    else if |s.queue| >= max then s.(stats := s.stats.(droppedNew := s.stats.droppedNew + 1))
    else s.(queue := s.queue + [Candidate(f, version, now, w)], queued := s.queued + {f.key},
            stats := s.stats.(enqueued := s.stats.enqueued + 1))
  }

  function MarkRequeued(s: Core, k: Key): Core { s.(requeued := s.requeued + {k}) }

  /** An agreeing read closes the key's episode. */
  function Resolve(s: Core, k: Key, now: Time): Core {
    if k !in s.confirmed then s
    else s.(confirmed := s.confirmed - {k},
            stats := s.stats.(driftResolved := s.stats.driftResolved + 1,
              lastDriftDuration := now - s.confirmed[k].firstSeenAt))
  }

  function Refresh(s: Core, k: Key, f: Finding): Core {
    if k !in s.confirmed then s else s.(confirmed := s.confirmed[k := s.confirmed[k].(finding := f)])
  }

  /** Opens an episode, or renews one and keeps its start. */
  function Confirm(s: Core, ep: Episode): Core {
    var start := if ep.key in s.confirmed then s.confirmed[ep.key].firstSeenAt else ep.firstSeenAt;
    s.(confirmed := s.confirmed[ep.key := ep.(firstSeenAt := start, finding := ep.finding.(firstSeenAt := start))],
       stats := s.stats.(confirmations := s.stats.confirmations + 1))
  }

  /** The candidates whose wait has elapsed, in the order they were raised. */
  function Due(q: seq<Candidate>, now: Time): seq<Candidate> {
    if q == [] then [] else (if q[0].DueAt() <= now then [q[0]] else []) + Due(q[1..], now)
  }

  function NotDue(q: seq<Candidate>, now: Time): seq<Candidate> {
    if q == [] then [] else (if q[0].DueAt() <= now then [] else [q[0]]) + NotDue(q[1..], now)
  }

  function KeysIn(q: seq<Candidate>): set<Key> { set c | c in q :: c.Key() }

  function TakeDue(s: Core, now: Time): Core {
    s.(queue := NotDue(s.queue, now), queued := s.queued - KeysIn(Due(s.queue, now)))
  }

  /** Puts candidates back with their original timing. */
  function RequeueAll(s: Core, max: nat, cs: seq<Candidate>): Core
    decreases |cs|
  {
    if cs == [] then s else RequeueAll(RequeueOne(s, max, cs[0]), max, cs[1..])
  }

  function RequeueOne(s: Core, max: nat, c: Candidate): Core {
    if c.Key() in s.queued then s.(stats := s.stats.(displaced := s.stats.displaced + 1))
    else if |s.queue| >= max then s.(stats := s.stats.(droppedBack := s.stats.droppedBack + 1))
    else s.(queue := s.queue + [c], queued := s.queued + {c.Key()})
  }

  // ---------------------------------------------------------------- decisions

  /** What a confirmation sees: the version before the re-read, the re-read, the entry after it. */
  datatype Look = Look(version: Option<nat>, read: Read, entry: Option<Record>)

  function EpisodeOf(c: Candidate, f: Finding, now: Time): Episode {
    Episode(c.Key(), f.(confirmed := true, firstSeenAt := c.seenAt), c.seenAt, now, c.window)
  }

  /** Decides one candidate. */
  function ConfirmOne(s: Core, c: Candidate, look: Look, opts: Options, now: Time): Core {
    if look.version.None? then
      s.(stats := s.stats.(forgotten := s.stats.forgotten + 1))
    else if look.version.value != c.version then
      MarkRequeued(s.(stats := s.stats.(advanced := s.stats.advanced + 1)), c.Key())
    else if look.read.Failed? then
      MarkRequeued(s.(stats := s.stats.(readFailed := s.stats.readFailed + 1)), c.Key())
    else if look.entry.None? || look.entry.value.version != c.version then
      MarkRequeued(s.(stats := s.stats.(advanced := s.stats.advanced + 1)), c.Key())
    else if look.entry.value.flag.Suspect? then
      s.(stats := s.stats.(suspectBack := s.stats.suspectBack + 1))
    else
      var f := CompareRead(c.Key(), look.entry.value, look.read, opts, now);
      if f.None? then s.(stats := s.stats.(caughtUp := s.stats.caughtUp + 1))
      else Confirm(s, EpisodeOf(c, f.value, now))
  }

  /** Routes one comparison of a sweep: agreement, a suspect key, a known episode, or a candidate. */
  function HandleComparison(s: Core, max: nat, f: Option<Finding>, version: nat, k: Key, now: Time, w: int): Core {
    if f.None? then Resolve(s, k, now)
    else if f.value.trust.Suspect? then s.(stats := s.stats.(suspectSwept := s.stats.suspectSwept + 1))
    else if k in s.confirmed then
      Refresh(s, k, f.value.(confirmed := true, firstSeenAt := s.confirmed[k].firstSeenAt))
    else Enqueue(s, max, f.value.(firstSeenAt := now), version, now, w)
  }

  /** What a sweep sees of one key: the entry when it is batched, the read, the entry at the fence. */
  datatype Glimpse = Glimpse(batched: Option<Record>, read: Read, fenced: Option<Record>)

  predicate Skipped(g: Glimpse) { g.batched.None? || g.batched.value.flag.Adopted? }

  /** The fence held and the read answered. */
  predicate Comparable(g: Glimpse) {
    !Skipped(g) && g.fenced.Some? && g.fenced.value.version == g.batched.value.version && !g.read.Failed?
  }

  /** One key of a sweep. */
  function SweepKey(s: Core, max: nat, k: Key, g: Glimpse, opts: Options, now: Time, w: int): Core {
    if Skipped(g) then s
    else if g.fenced.None? || g.fenced.value.version != g.batched.value.version then
      MarkRequeued(s.(stats := s.stats.(fenceFailures := s.stats.fenceFailures + 1)), k)
    else
      var s' := s.(stats := s.stats.(compared := s.stats.compared + 1));
      if g.read.Failed? then s'
      else HandleComparison(s', max, CompareRead(k, g.fenced.value, g.read, opts, now), g.fenced.value.version, k,
        now, w)
  }

  /** The keys of a sweep up to the first whose read fails, which ends it. */
  function SweepKeys(s: Core, max: nat, keys: seq<Key>, see: Key -> Glimpse, opts: Options, now: Time, w: int): Core
    decreases |keys|
  {
    if keys == [] then s
    else
      var s' := SweepKey(s, max, keys[0], see(keys[0]), opts, now, w);
      if Aborts(see(keys[0])) then s' else SweepKeys(s', max, keys[1..], see, opts, now, w)
  }

  predicate Aborts(g: Glimpse) {
    !Skipped(g) && g.fenced.Some? && g.fenced.value.version == g.batched.value.version && g.read.Failed?
  }

  function ConfirmAll(s: Core, due: seq<Candidate>, look: Key -> Look, opts: Options, now: Time): Core
    decreases |due|
  {
    if due == [] then s else ConfirmAll(ConfirmOne(s, due[0], look(due[0].Key()), opts, now), due[1..], look, opts, now)
  }

  /** Withdraws the episodes of keys the oracle has forgotten or holds at another version. */
  function Prune(s: Core, version: Key -> Option<nat>): Core {
    s.(confirmed := map k | k in s.confirmed && version(k) == Some(s.confirmed[k].finding.oracleVersion) ::
         s.confirmed[k],
       stats := s.stats.(
         episodesForgotten := s.stats.episodesForgotten + |set k | k in s.confirmed && version(k) == None|,
         episodesSuperseded := s.stats.episodesSuperseded + |Superseded(s.confirmed, version)|))
  }

  /** The keys the oracle knows, at another version than the one found about. */
  function Superseded(confirmed: map<Key, Episode>, version: Key -> Option<nat>): set<Key> {
    set k | k in confirmed && version(k).Some? && version(k).value != confirmed[k].finding.oracleVersion
  }

  /** What a sweep does about one key, exactly when. An entry that is gone or adopted is passed over. A key
      whose version moved between batch and fence is only deferred. A read that fails is only counted. */
  lemma SweepKeyTells(s: Core, max: nat, k: Key, g: Glimpse, opts: Options, now: Time, w: int)
    ensures var s' := SweepKey(s, max, k, g, opts, now, w);
      && (g.batched == None || g.batched.value.flag == Adopted ==> s' == s)
      && (g.batched.Some? && g.batched.value.flag != Adopted ==>
            var held := g.fenced.Some? && g.fenced.value.version == g.batched.value.version;
            && s'.requeued == (if held then s.requeued else s.requeued + {k})
            && s'.stats.fenceFailures == s.stats.fenceFailures + (if held then 0 else 1)
            && s'.stats.compared == s.stats.compared + (if held then 1 else 0)
            && (!held || g.read == Failed ==> s'.queue == s.queue && s'.confirmed == s.confirmed))
  {
  }

  /** What a sweep makes of a comparison, exactly when. Agreement closes the key's episode, if it is open,
      and measures it from when it was first seen. A suspect disagreement is only counted. Any other is
      shown in the open episode, with its start, or queued with this sweep's time. */
  lemma HandleTells(s: Core, max: nat, f: Option<Finding>, version: nat, k: Key, now: Time, w: int)
    requires f.Some? ==> f.value.key == k
    ensures var s' := HandleComparison(s, max, f, version, k, now, w);
      && (f == None ==> s'.queue == s.queue && s'.confirmed == s.confirmed - {k})
      && (f == None && k in s.confirmed ==>
            && s'.stats.driftResolved == s.stats.driftResolved + 1
            && s'.stats.lastDriftDuration == now - s.confirmed[k].firstSeenAt)
      && (f.Some? && f.value.trust == Suspect ==>
            s' == s.(stats := s.stats.(suspectSwept := s.stats.suspectSwept + 1)))
      && (f.Some? && f.value.trust != Suspect && k in s.confirmed ==>
            && s'.queue == s.queue && s'.stats == s.stats && s'.confirmed.Keys == s.confirmed.Keys
            && s'.confirmed[k].finding == f.value.(confirmed := true, firstSeenAt := s.confirmed[k].firstSeenAt)
            && s'.confirmed[k].firstSeenAt == s.confirmed[k].firstSeenAt)
      && (f.Some? && f.value.trust != Suspect && k !in s.confirmed && k !in s.queued ==>
            if |s.queue| >= max then s' == s.(stats := s.stats.(droppedNew := s.stats.droppedNew + 1))
            else s'.queue == s.queue + [Candidate(f.value.(firstSeenAt := now), version, now, w)] &&
                 s'.confirmed == s.confirmed)
  {
  }

  /** How a candidate is decided, exactly when: forgotten if the oracle no longer knows the key; moved on if
      the oracle holds another version, before the re-read or after it; unread if the re-read failed;
      suspect; caught up if the re-read agrees; confirmed otherwise. Only what moved on or could not be
      read is deferred to a later sweep, and only a confirmation touches the episodes: it opens one, or
      renews one with its start, around what was found. */
  lemma ConfirmOneTells(s: Core, c: Candidate, look: Look, opts: Options, now: Time)
    ensures var s', t, t' := ConfirmOne(s, c, look, opts, now), s.stats, ConfirmOne(s, c, look, opts, now).stats;
      var known := look.version.Some? && look.version.value == c.version;
      var read := known && look.read != Failed;
      var still := read && look.entry.Some? && look.entry.value.version == c.version;
      var trusted := still && look.entry.value.flag != Suspect;
      var differs := trusted && CompareRead(c.Key(), look.entry.value, look.read, opts, now).Some?;
      && t'.forgotten == t.forgotten + (if look.version == None then 1 else 0)
      && t'.advanced == t.advanced + (if look.version.Some? && (!known || (read && !still)) then 1 else 0)
      && t'.readFailed == t.readFailed + (if known && !read then 1 else 0)
      && t'.suspectBack == t.suspectBack + (if still && !trusted then 1 else 0)
      && t'.caughtUp == t.caughtUp + (if trusted && !differs then 1 else 0)
      && t'.confirmations == t.confirmations + (if differs then 1 else 0)
      && s'.requeued ==
         (if look.version.Some? && (!known || !read || !still) then s.requeued + {c.Key()} else s.requeued)
      && s'.queue == s.queue && (!differs ==> s'.confirmed == s.confirmed)
      && (differs ==>
            var f := CompareRead(c.Key(), look.entry.value, look.read, opts, now).value;
            var start := if c.Key() in s.confirmed then s.confirmed[c.Key()].firstSeenAt else c.seenAt;
            s'.confirmed == s.confirmed[c.Key() :=
              Episode(c.Key(), f.(confirmed := true, firstSeenAt := start), start, now, c.window)])
  {
  }

  // ---------------------------------------------------------------- loops

  /** One pass over the queue separates what is due, keeping both halves in order. */
  method SplitDue(q: seq<Candidate>, queued: set<Key>, now: Time)
    returns (due: seq<Candidate>, keep: seq<Candidate>, rest: set<Key>)
    ensures due == Due(q, now) && keep == NotDue(q, now) && rest == queued - KeysIn(due)
  {
    due, keep, rest := [], [], queued;
    assert q[0..] == q;
    for i := 0 to |q|
      invariant due + Due(q[i..], now) == Due(q, now)
      invariant keep + NotDue(q[i..], now) == NotDue(q, now)
      invariant rest == queued - KeysIn(due)
    {
      assert q[i..][1..] == q[i + 1..] && q[i..][0] == q[i];
      if q[i].DueAt() > now {
        keep := keep + [q[i]];
      } else {
        assert KeysIn(due + [q[i]]) == KeysIn(due) + {q[i].Key()};
        due := due + [q[i]];
        rest := rest - {q[i].Key()};
      }
    }
  }

  /** Walks the confirmed map once, dropping the episodes the oracle has forgotten or moved past. */
  method PruneEpisodes(confirmed: map<Key, Episode>, version: Key -> Option<nat>)
    returns (live: map<Key, Episode>, forgotten: nat, superseded: nat)
    ensures forall k :: k in live <==> k in confirmed && version(k) == Some(confirmed[k].finding.oracleVersion)
    ensures forall k :: k in live ==> live[k] == confirmed[k]
    ensures forgotten == |set k | k in confirmed && version(k) == None|
    ensures superseded ==
      |set k | k in confirmed && version(k).Some? && version(k).value != confirmed[k].finding.oracleVersion|
  {
    live, forgotten, superseded := map[], 0, 0;
    ghost var gone, past := {}, {};
    var rest := confirmed.Keys;
    while rest != {}
      invariant rest <= confirmed.Keys
      invariant forgotten == |gone| && superseded == |past|
      invariant forall k :: k in gone <==> k in confirmed && k !in rest && version(k) == None
      invariant forall k :: k in past <==> k in Superseded(confirmed, version) && k !in rest
      invariant forall k :: k in live <==>
        k in confirmed && k !in rest && version(k) == Some(confirmed[k].finding.oracleVersion)
      invariant forall k :: k in live ==> live[k] == confirmed[k]
      decreases |rest|
    {
      var k :| k in rest;
      rest := rest - {k};
      var v := version(k);
      if v.None? {
        forgotten, gone := forgotten + 1, gone + {k};
      } else if v.value != confirmed[k].finding.oracleVersion {
        superseded, past := superseded + 1, past + {k};
      } else {
        live := live[k := confirmed[k]];
      }
    }
    assert gone == set k | k in confirmed && version(k) == None;
    assert past == Superseded(confirmed, version);
  }

  // ---------------------------------------------------------------- the sweeper

  class Sweeper {
    var queue: seq<Candidate>
    var queued: set<Key>
    var confirmed: map<Key, Episode>
    var requeued: set<Key>
    var stats: Stats
    const maxConfirmQueue: nat
    const opts: Options

    constructor (max: nat, opts: Options)
      requires max > 0
      ensures State() == EmptyCore() && maxConfirmQueue == max && this.opts == opts
    {
      queue, queued, confirmed, requeued, stats := [], {}, map[], {}, ZeroStats();
      maxConfirmQueue, this.opts := max, opts;
    }

    ghost function State(): Core
      reads this
    {
      Core(queue, queued, confirmed, requeued, stats)
    }

    method EnqueueFinding(f: Finding, version: nat, now: Time, w: int)
      modifies this
      ensures State() == Enqueue(old(State()), maxConfirmQueue, f, version, now, w)
    {
      if f.key in queued {
        return;
      }
      if |queue| >= maxConfirmQueue {
        stats := stats.(droppedNew := stats.droppedNew + 1);
        return;
      }
      queue := queue + [Candidate(f, version, now, w)];
      queued := queued + {f.key};
      stats := stats.(enqueued := stats.enqueued + 1);
    }

    method Handle(f: Option<Finding>, version: nat, k: Key, now: Time, w: int)
      requires f.Some? ==> f.value.key == k
      modifies this
      ensures State() == HandleComparison(old(State()), maxConfirmQueue, f, version, k, now, w)
    {
      if f.None? {
        if k in confirmed {
          stats := stats.(driftResolved := stats.driftResolved + 1,
            lastDriftDuration := now - confirmed[k].firstSeenAt);
          confirmed := confirmed - {k};
        }
        return;
      }
      if f.value.trust.Suspect? {
        stats := stats.(suspectSwept := stats.suspectSwept + 1);
        return;
      }
      if k in confirmed {
        var seen := f.value.(confirmed := true, firstSeenAt := confirmed[k].firstSeenAt);
        confirmed := confirmed[k := confirmed[k].(finding := seen)];
        return;
      }
      EnqueueFinding(f.value.(firstSeenAt := now), version, now, w);
    }

    /** Walks the settled keys: batch, read, fence, compare. `fetched` says how many keys lie in
        batches that were read: a cancellation or a batch read that fails ends the sweep before
        the others. */
    method Sweep(
      keys: seq<Key>, fetched: nat, see: Key -> Glimpse, now: Time, w: int, version: Key -> Option<nat>)
      returns (finished: bool)
      requires fetched <= |keys|
      modifies this
      ensures finished <==> fetched == |keys| && forall k :: k in keys ==> !Aborts(see(k))
      ensures
        var swept := SweepKeys(old(State()).(requeued := {}), maxConfirmQueue, keys[..fetched], see, opts, now, w);
        State() == if finished then Prune(swept, version) else swept
    {
      requeued := {};
      finished := fetched == |keys|;
      ghost var start := State();
      ghost var walked := keys[..fetched];
      assert walked[0..] == walked;
      for i := 0 to fetched
        invariant finished == (fetched == |keys|)
        invariant forall j :: 0 <= j < i ==> !Aborts(see(keys[j]))
        invariant SweepKeys(State(), maxConfirmQueue, walked[i..], see, opts, now, w) ==
          SweepKeys(start, maxConfirmQueue, walked, see, opts, now, w)
      {
        assert walked[i..][0] == keys[i] && walked[i..][1..] == walked[i + 1..];
        var k, g := keys[i], see(keys[i]);
        if g.batched.None? || g.batched.value.flag.Adopted? {
          continue;
        }
        if g.fenced.None? || g.fenced.value.version != g.batched.value.version {
          stats := stats.(fenceFailures := stats.fenceFailures + 1);
          requeued := requeued + {k};
          continue;
        }
        stats := stats.(compared := stats.compared + 1);
        if g.read.Failed? {
          finished := false;
          return;
        }
        var f := CompareRead(k, g.fenced.value, g.read, opts, now);
        Handle(f, g.fenced.value.version, k, now, w);
      }
      if finished {
        LiveEpisodes(version);
      }
    }

    /** Withdraws the findings the oracle has forgotten or moved past. */
    method LiveEpisodes(version: Key -> Option<nat>)
      modifies this`confirmed, this`stats
      ensures State() == Prune(old(State()), version)
      ensures forall k :: k in confirmed <==>
        k in old(confirmed) && version(k) == Some(old(confirmed)[k].finding.oracleVersion)
      ensures stats.episodesSuperseded == old(stats.episodesSuperseded) +
        |set k | k in old(confirmed) && version(k).Some? && version(k).value != old(confirmed)[k].finding.oracleVersion|
      ensures stats.episodesForgotten ==
        old(stats.episodesForgotten) + |set k | k in old(confirmed) && version(k) == None|
    {
      var live, forgotten, superseded := PruneEpisodes(confirmed, version);
      confirmed := live;
      stats := stats.(episodesForgotten := stats.episodesForgotten + forgotten,
        episodesSuperseded := stats.episodesSuperseded + superseded);
    }

    method Decide(c: Candidate, look: Look, now: Time)
      modifies this
      ensures State() == ConfirmOne(old(State()), c, look, opts, now)
    {
      var k := c.finding.key;
      if look.version.None? {
        stats := stats.(forgotten := stats.forgotten + 1);
      } else if look.version.value != c.version {
        stats, requeued := stats.(advanced := stats.advanced + 1), requeued + {k};
      } else if look.read.Failed? {
        stats, requeued := stats.(readFailed := stats.readFailed + 1), requeued + {k};
      } else if look.entry.None? || look.entry.value.version != c.version {
        stats, requeued := stats.(advanced := stats.advanced + 1), requeued + {k};
      } else if look.entry.value.flag.Suspect? {
        stats := stats.(suspectBack := stats.suspectBack + 1);
      } else {
        var f := CompareRead(k, look.entry.value, look.read, opts, now);
        if f.None? {
          stats := stats.(caughtUp := stats.caughtUp + 1);
        } else {
          var start := if k in confirmed then confirmed[k].firstSeenAt else c.seenAt;
          confirmed := confirmed[k :=
            Episode(k, f.value.(confirmed := true, firstSeenAt := start), start, now, c.window)];
          stats := stats.(confirmations := stats.confirmations + 1);
        }
      }
    }

    /** Re-reads every candidate whose window has elapsed. An unreachable target puts them all
        back; a cancellation after `budget` of them puts the others back. */
    method ConfirmDue(now: Time, reachable: bool, budget: nat, look: Key -> Look) returns (decided: nat)
      modifies this
      ensures var due, taken := Due(old(queue), now), TakeDue(old(State()), now);
        && decided == (if !reachable then 0 else if |due| <= budget then |due| else budget)
        && State() == RequeueAll(ConfirmAll(taken, due[..decided], look, opts, now), maxConfirmQueue, due[decided..])
    {
      var due;
      due, queue, queued := SplitDue(queue, queued, now);
      decided := 0;
      ghost var taken := State();
      if reachable {
        while decided < |due| && decided < budget
          invariant decided <= |due| && decided <= budget
          invariant State() == ConfirmAll(taken, due[..decided], look, opts, now)
        {
          Decide(due[decided], look(due[decided].finding.key), now);
          ConfirmAllAppend(taken, due[..decided], due[decided], look, opts, now);
          assert due[..decided + 1] == due[..decided] + [due[decided]];
          decided := decided + 1;
        }
      } else {
        assert due[..0] == [];
      }
      PutBack(due[decided..]);
    }

    method PutBack(cs: seq<Candidate>)
      modifies this
      ensures State() == RequeueAll(old(State()), maxConfirmQueue, cs)
    {
      ghost var start := State();
      assert cs[0..] == cs;
      for i := 0 to |cs|
        invariant RequeueAll(State(), maxConfirmQueue, cs[i..]) == RequeueAll(start, maxConfirmQueue, cs)
      {
        assert cs[i..][0] == cs[i] && cs[i..][1..] == cs[i + 1..];
        var k := cs[i].finding.key;
        if k in queued {
          stats := stats.(displaced := stats.displaced + 1);
          continue;
        }
        if |queue| >= maxConfirmQueue {
          stats := stats.(droppedBack := stats.droppedBack + 1);
          continue;
        }
        queue := queue + [cs[i]];
        queued := queued + {k};
      }
    }
  }

  lemma {:induction false} ConfirmAllAppend(s: Core, cs: seq<Candidate>, c: Candidate, look: Key -> Look,
      opts: Options, now: Time)
    ensures ConfirmAll(s, cs + [c], look, opts, now) ==
      ConfirmOne(ConfirmAll(s, cs, look, opts, now), c, look(c.Key()), opts, now)
    decreases |cs|
  {
    if cs == [] {
      assert cs + [c] == [c];
      assert [c][1..] == [];
    } else {
      assert (cs + [c])[1..] == cs[1..] + [c];
      ConfirmAllAppend(ConfirmOne(s, cs[0], look(cs[0].Key()), opts, now), cs[1..], c, look, opts, now);
    }
  }
}
