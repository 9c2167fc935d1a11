/** The interleaved sweeper, left alone, is the sequential one: the critical sections of SweepRuns, taken in
    a row for one key or one candidate, do what Sweepers says of it. */
module SweepRows {
  import opened Events
  import opened OracleShard
  import opened Differ
  import opened Sweepers
  import opened Detection
  import opened SweepRuns

  lemma OneAct(p: Setup, w: World, a: Act, more: seq<Act>)
    requires Enabled(w, a) && AllEnabled(p, Step(p, w, a), more)
    ensures AllEnabled(p, w, [a] + more) && Run(p, w, [a] + more) == Run(p, Step(p, w, a), more)
  {
    assert ([a] + more)[1..] == more;
  }

  lemma LastAct(p: Setup, w: World, a: Act)
    requires Enabled(w, a)
    ensures AllEnabled(p, w, [a]) && Run(p, w, [a]) == Step(p, w, a)
  {
    assert [a][1..] == [];
  }

  // ---------------------------------------------------------------- one key of a sweep

  /** The sweep does not hold the key, as before, and nothing but the core has moved. */
  ghost predicate OnlyCore(w: World, w': World) {
    && w'.sweep == w.sweep && w'.cycles == w.cycles && w'.lastSweep == w.lastSweep
    && w'.openedBy == w.openedBy && w'.lastBy == w.lastBy
  }

  lemma InAndOut(items: map<Key, Item>, k: Key, i: Item, j: Item)
    requires k !in items
    ensures items[k := i] - {k} == items && items[k := i][k := j] == items[k := j]
  {
  }

  /** How a compared key is routed, the effect included. */
  lemma RoutedRow(p: Setup, w: World, k: Key, version: nat, read: Read, e: Record, core: Core)
    returns (acts: seq<Act>)
    requires w.sweep.Some? && k !in w.sweep.value.items && !read.Failed? && e.version == version
    requires core == w.core.(stats := w.core.stats.(compared := w.core.stats.compared + 1))
    ensures var w0 := WithItem(w, k, WasRead(version, read)); var at := w.sweep.value.at;
      && AllEnabled(p, w0, acts) && OnlyCore(w, Run(p, w0, acts))
      && Run(p, w0, acts).core ==
         HandleComparison(core, p.max, CompareRead(k, e, read, p.opts, at), e.version, k, at, w.sweep.value.w)
  {
    var w0, at := WithItem(w, k, WasRead(version, read)), w.sweep.value.at;
    var compare := CompareKeys(k, Some(e));
    var f := CompareRead(k, e, read, p.opts, at);
    FindingOk(k, e, read, p.opts, at);
    var w1 := Step(p, w0, compare);
    InAndOut(w.sweep.value.items, k, WasRead(version, read), WasRead(version, read));
    if f.None? || f.value.trust.Suspect? {
      acts := [compare];
      LastAct(p, w0, compare);
    } else {
      var act := if k in w.core.confirmed then DoRefresh(k) else DoEnqueue(k);
      var i := w1.sweep.value.items[k];
      InAndOut(w.sweep.value.items, k, WasRead(version, read), i);
      RoutedEffect(p, w, w1, k, i, act);
      LastAct(p, w1, act);
      OneAct(p, w0, compare, [act]);
      acts := [compare] + [act];
    }
  }

  lemma RoutedEffect(p: Setup, w: World, w1: World, k: Key, i: Item, act: Act)
    requires w.sweep.Some? && k !in w.sweep.value.items && (act == DoRefresh(k) || act == DoEnqueue(k))
    requires w1 == WithItem(w, k, i).(core := w1.core) && (if act.DoRefresh? then i.ToRefresh? else i.ToEnqueue?)
    ensures Enabled(w1, act) && OnlyCore(w, Step(p, w1, act))
  {
    InAndOut(w.sweep.value.items, k, i, i);
  }

  /** A sweep that takes a key from listing to its effect with nothing in between does what SweepKey says. */
  lemma SweepRow(p: Setup, w: World, k: Key, g: Glimpse) returns (acts: seq<Act>)
    requires w.sweep.Some? && k !in w.sweep.value.items
    ensures AllEnabled(p, w, acts)
    ensures Run(p, w, acts).core == SweepKey(w.core, p.max, k, g, p.opts, w.sweep.value.at, w.sweep.value.w)
    ensures if Aborts(g) then Run(p, w, acts).sweep == None else OnlyCore(w, Run(p, w, acts))
  {
    var list, batch, read := ListKey(k), Batch(k, g.batched), ReadKey(k, g.read);
    var w1 := Step(p, w, list);
    var w2 := Step(p, w1, batch);
    InAndOut(w.sweep.value.items, k, Listed, Listed);
    if Skipped(g) {
      LastAct(p, w1, batch);
      OneAct(p, w, list, [batch]);
      acts := [list] + [batch];
    } else {
      var v := g.batched.value.version;
      InAndOut(w.sweep.value.items, k, Listed, Batched(v));
      InAndOut(w.sweep.value.items, k, Batched(v), WasRead(v, g.read));
      assert Step(p, w2, read) == WithItem(w, k, WasRead(v, g.read));
      var rest := ComparedRow(p, w, k, g);
      OneAct(p, w2, read, rest);
      OneAct(p, w1, batch, [read] + rest);
      OneAct(p, w, list, [batch] + ([read] + rest));
      acts := [list] + ([batch] + ([read] + rest));
    }
  }

  lemma ComparedRow(p: Setup, w: World, k: Key, g: Glimpse) returns (acts: seq<Act>)
    requires w.sweep.Some? && k !in w.sweep.value.items && !Skipped(g)
    ensures var w0 := WithItem(w, k, WasRead(g.batched.value.version, g.read));
      && AllEnabled(p, w0, acts)
      && Run(p, w0, acts).core == SweepKey(w.core, p.max, k, g, p.opts, w.sweep.value.at, w.sweep.value.w)
      && (if Aborts(g) then Run(p, w0, acts).sweep == None else OnlyCore(w, Run(p, w0, acts)))
  {
    var v := g.batched.value.version;
    var w0, compare := WithItem(w, k, WasRead(v, g.read)), CompareKeys(k, g.fenced);
    InAndOut(w.sweep.value.items, k, WasRead(v, g.read), WasRead(v, g.read));
    if g.fenced.Some? && g.fenced.value.version == v && !g.read.Failed? {
      var core := w.core.(stats := w.core.stats.(compared := w.core.stats.compared + 1));
      acts := RoutedRow(p, w, k, v, g.read, g.fenced.value, core);
    } else {
      acts := [compare];
      LastAct(p, w0, compare);
    }
  }

  lemma {:induction false} Together(p: Setup, w: World, first: seq<Act>, more: seq<Act>)
    requires AllEnabled(p, w, first) && AllEnabled(p, Run(p, w, first), more)
    ensures AllEnabled(p, w, first + more) && Run(p, w, first + more) == Run(p, Run(p, w, first), more)
    decreases |first|
  {
    if first == [] {
      assert first + more == more;
    } else {
      Together(p, Step(p, w, first[0]), first[1..], more);
      assert (first + more)[1..] == first[1..] + more;
    }
  }

  /** A sweep that takes its keys one after the other does what SweepKeys says, and is over early exactly when
      a key's read failed. */
  lemma {:induction false} SweepInARow(p: Setup, w: World, keys: seq<Key>, see: Key -> Glimpse)
    returns (acts: seq<Act>)
    requires w.sweep.Some? && forall k :: k in keys ==> k !in w.sweep.value.items
    ensures AllEnabled(p, w, acts)
    ensures Run(p, w, acts).core ==
      SweepKeys(w.core, p.max, keys, see, p.opts, w.sweep.value.at, w.sweep.value.w)
    ensures if forall k :: k in keys ==> !Aborts(see(k)) then OnlyCore(w, Run(p, w, acts))
      else Run(p, w, acts).sweep == None
    decreases |keys|
  {
    if keys == [] {
      acts := [];
    } else {
      assert forall k :: k in keys <==> k == keys[0] || k in keys[1..];
      acts := SweepRow(p, w, keys[0], see(keys[0]));
      if !Aborts(see(keys[0])) {
        var rest := SweepInARow(p, Run(p, w, acts), keys[1..], see);
        Together(p, w, acts, rest);
        acts := acts + rest;
      }
    }
  }

  // ---------------------------------------------------------------- one candidate of a cycle

  /** A cycle that decides its first candidate with nothing in between does what ConfirmOne says. */
  lemma CycleRow(p: Setup, w: World, i: nat, look: Look) returns (acts: seq<Act>)
    requires HeadIs(w, i) && w.cycles[i].head.Untouched?
    ensures AllEnabled(p, w, acts)
    ensures Run(p, w, acts).core == ConfirmOne(w.core, w.cycles[i].due[0], look, p.opts, w.cycles[i].now)
    ensures Run(p, w, acts).cycles == w.cycles[i := w.cycles[i].(due := w.cycles[i].due[1..])]
    ensures Run(p, w, acts).sweep == w.sweep
  {
    var c, check := w.cycles[i].due[0], CheckVersion(i, look.version);
    if look.version != Some(c.version) {
      acts := [check];
      LastAct(p, w, check);
    } else {
      var w1 := Step(p, w, check);
      var rest := RereadRow(p, w, w1, i, look);
      OneAct(p, w, check, rest);
      acts := [check] + rest;
    }
  }

  /** A cycle that decides its candidates one after the other does what ConfirmAll says. */
  lemma {:induction false} CycleInARow(p: Setup, w: World, i: nat, look: Key -> Look) returns (acts: seq<Act>)
    requires i < |w.cycles| && w.cycles[i].head.Untouched?
    ensures AllEnabled(p, w, acts)
    ensures Run(p, w, acts).core == ConfirmAll(w.core, w.cycles[i].due, look, p.opts, w.cycles[i].now)
    ensures Run(p, w, acts).cycles == w.cycles[i := w.cycles[i].(due := [])]
    decreases |w.cycles[i].due|
  {
    var cy := w.cycles[i];
    if cy.due == [] {
      acts := [];
      assert cy.(due := []) == cy;
    } else {
      acts := CycleRow(p, w, i, look(cy.due[0].Key()));
      var rest := CycleInARow(p, Run(p, w, acts), i, look);
      Together(p, w, acts, rest);
      acts := acts + rest;
    }
  }

  lemma RereadRow(p: Setup, w: World, w1: World, i: nat, look: Look) returns (acts: seq<Act>)
    requires HeadIs(w, i) && w.cycles[i].head.Untouched? && w1 == WithHead(w, i, Versioned)
    requires look.version == Some(w.cycles[i].due[0].version)
    ensures AllEnabled(p, w1, acts)
    ensures Run(p, w1, acts).core == ConfirmOne(w.core, w.cycles[i].due[0], look, p.opts, w.cycles[i].now)
    ensures Run(p, w1, acts).cycles == w.cycles[i := w.cycles[i].(due := w.cycles[i].due[1..])]
    ensures Run(p, w1, acts).sweep == w.sweep
  {
    var reread := RereadKey(i, look.read);
    if look.read.Failed? {
      acts := [reread];
      LastAct(p, w1, reread);
    } else {
      var w2 := Step(p, w1, reread);
      var rest := JudgeRow(p, w, w2, i, look);
      OneAct(p, w1, reread, rest);
      acts := [reread] + rest;
    }
  }

  lemma JudgeRow(p: Setup, w: World, w2: World, i: nat, look: Look) returns (acts: seq<Act>)
    requires HeadIs(w, i) && w.cycles[i].head.Untouched? && !look.read.Failed?
    requires w2 == w.(cycles := w.cycles[i := w.cycles[i].(head := Reread(look.read))])
    requires look.version == Some(w.cycles[i].due[0].version)
    ensures AllEnabled(p, w2, acts)
    ensures Run(p, w2, acts).core == ConfirmOne(w.core, w.cycles[i].due[0], look, p.opts, w.cycles[i].now)
    ensures Run(p, w2, acts).cycles == w.cycles[i := w.cycles[i].(due := w.cycles[i].due[1..])]
    ensures Run(p, w2, acts).sweep == w.sweep
  {
    var c, judge := w.cycles[i].due[0], Judge(i, look.entry);
    var w3 := Step(p, w2, judge);
    if w3.cycles[i].due == w.cycles[i].due && w3.cycles[i].head.ToConfirm? {
      LastAct(p, w3, DoConfirm(i));
      OneAct(p, w2, judge, [DoConfirm(i)]);
      acts := [judge] + [DoConfirm(i)];
    } else {
      acts := [judge];
      LastAct(p, w2, judge);
    }
  }
}
