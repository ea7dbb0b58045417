/** The hook iterates a Python set of fact types. When no extracted type is one that rules
    create themselves, every iteration order gives the same rows. */
module Confluence {
  import opened BotTypes
  import opened DecisionEngine
  import opened RuleRunner

  /** The same rows in every table, possibly created in another order. */
  ghost predicate SameRows(a: Tables, b: Tables) {
    multiset(a.facts) == multiset(b.facts) && multiset(a.jobs) == multiset(b.jobs) && multiset(a.locks) == multiset(b.locks)
  }

  // ---------- performing effects in another order ----------

  lemma AppendTwo<T>(s: seq<T>, a: T, b: T)
    ensures multiset(s + [a] + [b]) == multiset(s + [b] + [a])
  {
    assert multiset(s + [a] + [b]) == multiset(s) + multiset{a} + multiset{b};
    assert multiset(s + [b] + [a]) == multiset(s) + multiset{b} + multiset{a};
  }

  lemma SwapTwo(t: Tables, at: Place, x: Effect, y: Effect)
    ensures SameRows(Perform(Perform(t, at, x), at, y), Perform(Perform(t, at, y), at, x))
  {
    var a, b := Perform(t, at, x), Perform(t, at, y);
    if x.MakeJob? && y.MakeJob? {
      AppendTwo(t.jobs, a.jobs[|t.jobs|], b.jobs[|t.jobs|]);
    } else if x.MakeLock? && y.MakeLock? {
      AppendTwo(t.locks, a.locks[|t.locks|], b.locks[|t.locks|]);
    } else if x.MakeFact? && y.MakeFact? {
      AppendTwo(t.facts, a.facts[|t.facts|], b.facts[|t.facts|]);
    }
  }

  lemma RemoveOne<T>(front: seq<T>, x: T, p: seq<T>, q: seq<T>)
    requires multiset(front + [x]) == multiset(p + ([x] + q))
    ensures multiset(front) == multiset(p + q)
  {
    assert multiset(front + [x]) == multiset(front) + multiset{x};
    assert multiset(p + ([x] + q)) == multiset(p) + multiset{x} + multiset(q);
    assert multiset(front) == multiset(front + [x]) - multiset{x};
    assert multiset(p) + multiset(q) == multiset(p + ([x] + q)) - multiset{x};
  }

  lemma {:induction false} PerformSnoc(t: Tables, at: Place, es: seq<Effect>, x: Effect)
    ensures PerformAll(t, at, es + [x]) == Perform(PerformAll(t, at, es), at, x)
  {
    assert (es + [x])[..|es|] == es;
  }

  lemma SameRowsStep(a: Tables, b: Tables, at: Place, e: Effect)
    requires SameRows(a, b)
    ensures SameRows(Perform(a, at, e), Perform(b, at, e))
  {
  }

  lemma {:induction false} MoveLast(t: Tables, at: Place, x: Effect, q: seq<Effect>)
    ensures SameRows(PerformAll(t, at, [x] + q), PerformAll(t, at, q + [x]))
    decreases |q|
  {
    hide Perform, PerformAll;
    if |q| == 0 {
      assert [x] + q == q + [x];
    } else {
      var front, y := q[..|q| - 1], q[|q| - 1];
      assert [x] + q == [x] + front + [y] && q == front + [y];
      var u := PerformAll(t, at, front);
      PerformSnoc(t, at, [x] + front, y);
      PerformSnoc(t, at, front, x);
      PerformSnoc(t, at, front, y);
      PerformSnoc(t, at, q, x);
      MoveLast(t, at, x, front);
      SameRowsStep(PerformAll(t, at, [x] + front), PerformAll(t, at, front + [x]), at, y);
      SwapTwo(u, at, x, y);
    }
  }

  /** Only the multiset of effects matters for the rows created. */
  lemma {:induction false} EffectsInAnyOrder(t: Tables, at: Place, a: seq<Effect>, b: seq<Effect>)
    requires multiset(a) == multiset(b)
    ensures SameRows(PerformAll(t, at, a), PerformAll(t, at, b))
    decreases |a|
  {
    hide Perform, PerformAll;
    if |a| == 0 {
      assert |multiset(b)| == |b|;
    } else {
      var front, x := a[..|a| - 1], a[|a| - 1];
      assert a == front + [x] && x in multiset(a);
      var i :| 0 <= i < |b| && b[i] == x;
      var p, q := b[..i], b[i + 1..];
      assert b == p + ([x] + q);
      RemoveOne(front, x, p, q);
      EffectsInAnyOrder(t, at, front, p + q);
      PerformSnoc(t, at, front, x);
      PerformSnoc(t, at, p + q, x);
      SameRowsStep(PerformAll(t, at, front), PerformAll(t, at, p + q), at, x);
      MoveToEnd(t, at, p, x, q);
    }
  }

  lemma {:induction false} MoveToEnd(t: Tables, at: Place, p: seq<Effect>, x: Effect, q: seq<Effect>)
    ensures SameRows(PerformAll(t, at, p + q + [x]), PerformAll(t, at, p + ([x] + q)))
  {
    hide Perform, PerformAll;
    PerformConcat(t, at, p, [x] + q);
    PerformConcat(t, at, p, q + [x]);
    assert p + (q + [x]) == p + q + [x];
    MoveLast(PerformAll(t, at, p), at, x, q);
  }

  // ---------- queries do not see rule effects ----------

  lemma {:induction false} MatchingSkipsOwn(t: Tables, at: Place, es: seq<Effect>, ftype: string)
    requires OwnEffects(es) && !OwnType(ftype)
    ensures Matching(PerformAll(t, at, es).facts, at, ftype) == Matching(t.facts, at, ftype)
    decreases |es|
  {
    if |es| > 0 {
      var b := PerformAll(t, at, es[..|es| - 1]);
      MatchingSkipsOwn(t, at, es[..|es| - 1], ftype);
      if es[|es| - 1].MakeFact? {
        assert Perform(b, at, es[|es| - 1]).facts[..|b.facts|] == b.facts;
      }
    }
  }

  // ---------- the hook as one list of effects ----------

  function FactsEffects(fs: seq<Fact>, rules: seq<Json>, ctx: Context, ev: Evaluators): seq<Effect> {
    if |fs| == 0 then []
    else FactsEffects(fs[..|fs| - 1], rules, ctx, ev) + RuleEffects(rules, ctx, ev, fs[|fs| - 1])
  }

  /** Everything the hook does, computed from the tables it starts with. */
  function HookEffects(t: Tables, at: Place, types: seq<string>, rules: seq<Json>, ev: Evaluators): seq<Effect> {
    if |types| == 0 then []
    else HookEffects(t, at, types[..|types| - 1], rules, ev)
         + FactsEffects(Query(t.facts, at, types[|types| - 1]), rules, ContextFromDb(t.facts, at), ev)
  }

  lemma OwnConcat(a: seq<Effect>, b: seq<Effect>)
    requires OwnEffects(a) && OwnEffects(b)
    ensures OwnEffects(a + b)
  {
  }

  lemma {:induction false} RunFactsPerforms(b: Progress, at: Place, fs: seq<Fact>, rules: seq<Json>, ev: Evaluators)
    requires !b.raised
    ensures var es, r := FactsEffects(fs, rules, ContextFromDb(b.t.facts, at), ev), RunFacts(b, at, fs, rules, ev);
            r.t == PerformAll(b.t, at, Cut(es)) && r.raised == Raises(es) && OwnEffects(es)
    decreases |fs|
  {
    if |fs| > 0 {
      var ctx := ContextFromDb(b.t.facts, at);
      var front, f := fs[..|fs| - 1], fs[|fs| - 1];
      RunFactsPerforms(b, at, front, rules, ev);
      var es, own := FactsEffects(front, rules, ctx, ev), RuleEffects(rules, ctx, ev, f);
      RulesOwn(rules, ctx, ev, f);
      AppendCut(b.t, at, es, own);
    }
  }

  /** Going on after effects that did not raise; the context is still the first one. */
  lemma {:induction false} AppendCut(t: Tables, at: Place, es: seq<Effect>, own: seq<Effect>)
    requires OwnEffects(es) && OwnEffects(own)
    ensures OwnEffects(es + own)
    ensures Raises(es) ==> Cut(es + own) == Cut(es) && Raises(es + own)
    ensures !Raises(es) ==>
              && Cut(es) == es && (Raises(es + own) <==> Raises(own))
              && ContextFromDb(PerformAll(t, at, Cut(es)).facts, at) == ContextFromDb(t.facts, at)
              && PerformAll(t, at, Cut(es + own)) == PerformAll(PerformAll(t, at, Cut(es)), at, Cut(own))
  {
    OwnConcat(es, own);
    CutConcat(es, own);
    CutNothing(es);
    ContextStable(t, at, es, at);
    PerformConcat(t, at, es, Cut(own));
  }

  ghost predicate Avoids(types: seq<string>) {
    forall i | 0 <= i < |types| :: !OwnType(types[i])
  }

  lemma {:induction false} HookPerforms(t: Tables, at: Place, types: seq<string>, rules: seq<Json>, ev: Evaluators)
    requires Avoids(types)
    ensures var es, r := HookEffects(t, at, types, rules, ev), HookRun(t, at, types, rules, ev);
            r.t == PerformAll(t, at, Cut(es)) && r.raised == Raises(es) && OwnEffects(es)
    decreases |types|
  {
    if |types| > 0 {
      var front, ft := types[..|types| - 1], types[|types| - 1];
      HookPerforms(t, at, front, rules, ev);
      var es, b := HookEffects(t, at, front, rules, ev), HookRun(t, at, front, rules, ev);
      var fs := FactsEffects(Query(t.facts, at, ft), rules, ContextFromDb(t.facts, at), ev);
      RunFactsPerforms(Progress(t, false, 0), at, Query(t.facts, at, ft), rules, ev);
      AppendCut(t, at, es, fs);
      if !b.raised {
        MatchingSkipsOwn(t, at, es, ft);
        RunFactsPerforms(b, at, Query(t.facts, at, ft), rules, ev);
      }
    }
  }

  lemma {:induction false} HookEffectsSnoc(t: Tables, at: Place, types: seq<string>, ft: string, rules: seq<Json>, ev: Evaluators)
    ensures HookEffects(t, at, types + [ft], rules, ev)
         == HookEffects(t, at, types, rules, ev) + FactsEffects(Query(t.facts, at, ft), rules, ContextFromDb(t.facts, at), ev)
  {
    assert (types + [ft])[..|types|] == types;
  }

  lemma {:induction false} HookEffectsConcat(t: Tables, at: Place, a: seq<string>, b: seq<string>, rules: seq<Json>, ev: Evaluators)
    ensures HookEffects(t, at, a + b, rules, ev) == HookEffects(t, at, a, rules, ev) + HookEffects(t, at, b, rules, ev)
    decreases |b|
  {
    hide HookEffects, FactsEffects, Query, ContextFromDb;
    if |b| == 0 {
      assert a + b == a;
      NoHookEffects(t, at, rules, ev);
    } else {
      var front, ft := b[..|b| - 1], b[|b| - 1];
      assert a + b == (a + front) + [ft] && b == front + [ft];
      HookEffectsConcat(t, at, a, front, rules, ev);
      HookEffectsSnoc(t, at, a + front, ft, rules, ev);
      HookEffectsSnoc(t, at, front, ft, rules, ev);
    }
  }

  lemma {:induction false} NoHookEffects(t: Tables, at: Place, rules: seq<Json>, ev: Evaluators)
    ensures HookEffects(t, at, [], rules, ev) == []
  {
  }

  lemma Regroup<T>(front: seq<T>, p: seq<T>, x: seq<T>, q: seq<T>)
    requires multiset(front) == multiset(p + q)
    ensures multiset(front + x) == multiset(p + (x + q))
  {
    assert multiset(front + x) == multiset(p) + multiset(q) + multiset(x);
    assert multiset(p + (x + q)) == multiset(p) + (multiset(x) + multiset(q));
  }

  lemma {:induction false} TypesInAnyOrder(t: Tables, at: Place, a: seq<string>, b: seq<string>, rules: seq<Json>, ev: Evaluators)
    requires multiset(a) == multiset(b)
    ensures multiset(HookEffects(t, at, a, rules, ev)) == multiset(HookEffects(t, at, b, rules, ev))
    decreases |a|
  {
    hide HookEffects, FactsEffects, Query, ContextFromDb;
    if |a| == 0 {
      assert |multiset(b)| == |b|;
    } else {
      var front, x := a[..|a| - 1], a[|a| - 1];
      assert a == front + [x] && x in multiset(a);
      var i :| 0 <= i < |b| && b[i] == x;
      var p, q := b[..i], b[i + 1..];
      assert b == p + ([x] + q);
      RemoveOne(front, x, p, q);
      TypesInAnyOrder(t, at, front, p + q, rules, ev);
      HookEffectsSnoc(t, at, front, x, rules, ev);
      HookEffectsConcat(t, at, p, q, rules, ev);
      HookEffectsConcat(t, at, p, [x] + q, rules, ev);
      HookEffectsConcat(t, at, [x], q, rules, ev);
      HookEffectsSnoc(t, at, [], x, rules, ev);
      NoHookEffects(t, at, rules, ev);
      assert [] + [x] == [x];
      Regroup(HookEffects(t, at, front, rules, ev), HookEffects(t, at, p, rules, ev), HookEffects(t, at, [x], rules, ev),
              HookEffects(t, at, q, rules, ev));
    }
  }

  /** Confluence: for every order in which the set of extracted types is iterated the hook
      raises or not alike and, when it does not raise, the same jobs, locks and facts are
      created, provided no type is `Flag`, `Event` or `Computed`. */
  lemma {:induction false} HookIsConfluent(t: Tables, at: Place, types: seq<string>, others: seq<string>, rules: seq<Json>, ev: Evaluators)
    requires multiset(types) == multiset(others) && Avoids(types)
    ensures var a, b := HookRun(t, at, types, rules, ev), HookRun(t, at, others, rules, ev);
            a.raised == b.raised && (!a.raised ==> SameRows(a.t, b.t))
  {
    forall i | 0 <= i < |others| ensures !OwnType(others[i]) {
      assert others[i] in multiset(types);
      assert others[i] in types;
    }
    HookPerforms(t, at, types, rules, ev);
    HookPerforms(t, at, others, rules, ev);
    TypesInAnyOrder(t, at, types, others, rules, ev);
    var es, fs := HookEffects(t, at, types, rules, ev), HookEffects(t, at, others, rules, ev);
    assert Raise in multiset(es) <==> Raise in multiset(fs);
    CutNothing(es);
    CutNothing(fs);
    EffectsInAnyOrder(t, at, es, fs);
  }

  // ---------- modules that never raise ----------

  lemma {:induction false} ComputesGoOn(exprs: seq<Json>, ctx: Context, ev: Evaluators)
    requires NeverRaises(ev)
    ensures !Raises(ComputeEffects(exprs, ctx, ev))
    decreases |exprs|
  {
    if |exprs| > 0 { ComputesGoOn(exprs[..|exprs| - 1], ctx, ev); }
  }

  lemma {:induction false} RulesGoOn(rules: seq<Json>, ctx: Context, ev: Evaluators, f: Fact)
    requires NeverRaises(ev)
    ensures !Raises(RuleEffects(rules, ctx, ev, f))
    decreases |rules|
  {
    if |rules| > 0 {
      var front, body := rules[..|rules| - 1], ThenOf(rules[|rules| - 1]);
      RulesGoOn(front, ctx, ev, f);
      ComputesGoOn(ListAt(body, "compute"), ctx, ev);
      ThenCut(body, ctx, ev, f);
      CutConcat(RuleEffects(front, ctx, ev, f), ThenEffects(body, ctx, ev, f));
      hide ThenEffects;
    }
  }

  lemma {:induction false} FactsGoOn(b: Progress, at: Place, fs: seq<Fact>, rules: seq<Json>, ev: Evaluators)
    requires NeverRaises(ev) && !b.raised
    ensures !RunFacts(b, at, fs, rules, ev).raised
    decreases |fs|
  {
    if |fs| > 0 {
      FactsGoOn(b, at, fs[..|fs| - 1], rules, ev);
      var c := RunFacts(b, at, fs[..|fs| - 1], rules, ev);
      RulesGoOn(rules, ContextFromDb(c.t.facts, at), ev, fs[|fs| - 1]);
    }
  }

  lemma {:induction false} HookGoesOn(t: Tables, at: Place, types: seq<string>, rules: seq<Json>, ev: Evaluators)
    requires NeverRaises(ev)
    ensures !HookRun(t, at, types, rules, ev).raised
    decreases |types|
  {
    if |types| > 0 {
      HookGoesOn(t, at, types[..|types| - 1], rules, ev);
      var b := HookRun(t, at, types[..|types| - 1], rules, ev);
      FactsGoOn(b, at, Query(b.t.facts, at, types[|types| - 1]), rules, ev);
    }
  }
}
