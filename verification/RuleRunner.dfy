/** The loops of the decision engine, and the runner's hook that applies the rules to the
    facts extracted from one snapshot, fact type by fact type. */
module RuleRunner {
  import opened BotTypes
  import opened DecisionEngine

  /** The `result` dict of one rule application. */
  datatype Totals = Totals(enqueued: nat, locksOpened: nat, flagsSet: nat, eventsEmitted: nat, computed: seq<string>)

  class Counters {
    var r: Totals

    constructor ()
      ensures r == Totals(0, 0, 0, 0, [])
    {
      r := Totals(0, 0, 0, 0, []);
    }
  }

  /** What one block, and what a list of blocks, adds to the counters: one for every lock,
      flag and event created, but one for every entry of the enqueue list. */
  function AddBlock(r: Totals, body: Json, reason: string): Totals {
    var es := SimpleEffects(body, reason);
    Totals(r.enqueued + |EnqueueList(body)|, r.locksOpened + Tally(es, LockKind), r.flagsSet + Tally(es, FlagKind),
           r.eventsEmitted + Tally(es, EventKind), r.computed)
  }

  function AddBlocks(r: Totals, blocks: seq<Json>, reason: string): Totals {
    if |blocks| == 0 then r else AddBlock(AddBlocks(r, blocks[..|blocks| - 1], reason), blocks[|blocks| - 1], reason)
  }

  /** Conservation: locks, flags, events and computed values are reported exactly as many
      as rows were created; `enqueued` counts the entries of the applied blocks, which are
      as many as the jobs created exactly when they are all strings, and never fewer. */
  ghost predicate Conserved(r: Totals, es: seq<Effect>, blocks: seq<Json>) {
    && r.locksOpened == Tally(es, LockKind)
    && r.flagsSet == Tally(es, FlagKind)
    && r.eventsEmitted == Tally(es, EventKind)
    && |r.computed| == Tally(es, ComputedKind)
    && r.enqueued == EnqueuedBy(blocks) >= Tally(es, JobKind)
    && (r.enqueued == Tally(es, JobKind) <==> AllStrings(blocks))
  }

  // ---------- spec of the hook ----------

  /** `Fact.objects.filter(case, snapshot, fact_type).order_by("-created_at")[:50]`. */
  function Matching(facts: seq<Fact>, at: Place, ftype: string): seq<Fact> {
    if |facts| == 0 then []
    else
      var f := facts[|facts| - 1];
      (if f.caseId == at.caseId && f.snapshot == at.snapshot && f.ftype == ftype then [f] else [])
      + Matching(facts[..|facts| - 1], at, ftype)
  }

  function Query(facts: seq<Fact>, at: Place, ftype: string): seq<Fact> {
    var all := Matching(facts, at, ftype);
    if |all| <= 50 then all else all[..50]
  }

  /** The hook so far: the tables, whether an exception has ended it, and how often the rules
      were run. */
  datatype Progress = Progress(t: Tables, raised: bool, passes: nat)

  function RunFact(b: Progress, at: Place, f: Fact, rules: seq<Json>, ev: Evaluators): Progress {
    var es := RuleEffects(rules, ContextFromDb(b.t.facts, at), ev, f);
    Progress(PerformAll(b.t, at, Cut(es)), Raises(es), b.passes + 1)
  }

  function RunFacts(b: Progress, at: Place, fs: seq<Fact>, rules: seq<Json>, ev: Evaluators): Progress {
    if |fs| == 0 then b
    else
      var c := RunFacts(b, at, fs[..|fs| - 1], rules, ev);
      if c.raised then c else RunFact(c, at, fs[|fs| - 1], rules, ev)
  }

  function HookRun(t: Tables, at: Place, types: seq<string>, rules: seq<Json>, ev: Evaluators): Progress {
    if |types| == 0 then Progress(t, false, 0)
    else
      var b := HookRun(t, at, types[..|types| - 1], rules, ev);
      if b.raised then b else RunFacts(b, at, Query(b.t.facts, at, types[|types| - 1]), rules, ev)
  }

  /** Rules whose `when` accepts the fact. */
  function Matched(rules: seq<Json>, f: Fact, ev: Evaluators): seq<Json> {
    if |rules| == 0 then []
    else
      var r := rules[|rules| - 1];
      Matched(rules[..|rules| - 1], f, ev) + (if Matches(r, f, ev) then [r] else [])
  }

  lemma {:induction false} FactPasses(b: Progress, at: Place, fs: seq<Fact>, rules: seq<Json>, ev: Evaluators)
    ensures b.passes <= RunFacts(b, at, fs, rules, ev).passes <= b.passes + |fs|
    decreases |fs|
  {
    if |fs| > 0 { FactPasses(b, at, fs[..|fs| - 1], rules, ev); }
  }

  lemma {:induction false} PassesBounded(t: Tables, at: Place, types: seq<string>, rules: seq<Json>, ev: Evaluators)
    ensures HookRun(t, at, types, rules, ev).passes <= 50 * |types|
    decreases |types|
  {
    if |types| > 0 {
      var front, ft := types[..|types| - 1], types[|types| - 1];
      PassesBounded(t, at, front, rules, ev);
      var b := HookRun(t, at, front, rules, ev);
      FactPasses(b, at, Query(b.t.facts, at, ft), rules, ev);
    }
  }

  class DecisionStore {
    var facts: seq<Fact>
    var jobs: seq<NewJob>
    var locks: seq<NewLock>

    function T(): Tables
      reads this
    {
      Tables(facts, jobs, locks)
    }

    method Make(at: Place, e: Effect)
      modifies this
      ensures T() == PerformAll(old(T()), at, [e])
    {
      assert [e][..0] == [];
      match e {
        case MakeJob(r) => jobs := jobs + [NewJob(at.caseId, at.debtor, r, ReadOnly)];
        case MakeLock(l, why) => locks := locks + [NewLock(at.caseId, l, why)];
        case MakeFact(ft, k, v) => facts := facts + [Fact(at.caseId, at.debtor, ft, k, v, at.snapshot)];
        case Raise =>
      }
    }

    method EnqueueJobs(at: Place, items: seq<Json>)
      modifies this
      ensures T() == PerformAll(old(T()), at, Jobs(items))
    {
      var i := 0;
      while i < |items|
        invariant 0 <= i <= |items| && T() == PerformAll(old(T()), at, Jobs(items[..i]))
      {
        assert items[..i + 1][..i] == items[..i];
        if items[i].JStr? {
          PerformConcat(old(T()), at, Jobs(items[..i]), [MakeJob(items[i].s)]);
          Make(at, MakeJob(items[i].s));
        } else {
          assert Jobs(items[..i + 1]) == Jobs(items[..i]);
        }
        i := i + 1;
      }
      assert items[..i] == items;
    }

    method OpenLocks(at: Place, items: seq<Json>, reason: string, result: Counters)
      modifies this, result
      ensures T() == PerformAll(old(T()), at, LocksOf(items, reason))
      ensures result.r == old(result.r).(locksOpened := old(result.r).locksOpened + |LocksOf(items, reason)|)
    {
      var i := 0;
      while i < |items|
        invariant 0 <= i <= |items| && T() == PerformAll(old(T()), at, LocksOf(items[..i], reason))
        invariant result.r == old(result.r).(locksOpened := old(result.r).locksOpened + |LocksOf(items[..i], reason)|)
      {
        assert items[..i + 1][..i] == items[..i];
        if items[i].JStr? {
          PerformConcat(old(T()), at, LocksOf(items[..i], reason), [MakeLock(items[i].s, reason)]);
          Make(at, MakeLock(items[i].s, reason));
          result.r := result.r.(locksOpened := result.r.locksOpened + 1);
        } else {
          assert LocksOf(items[..i + 1], reason) == LocksOf(items[..i], reason);
        }
        i := i + 1;
      }
      assert items[..i] == items;
    }

    method SetFlags(at: Place, fields: seq<(string, Json)>, result: Counters)
      modifies this, result
      ensures T() == PerformAll(old(T()), at, Flags(fields))
      ensures result.r == old(result.r).(flagsSet := old(result.r).flagsSet + |Flags(fields)|)
    {
      var i := 0;
      while i < |fields|
        invariant 0 <= i <= |fields| && T() == PerformAll(old(T()), at, Flags(fields[..i]))
        invariant result.r == old(result.r).(flagsSet := old(result.r).flagsSet + |Flags(fields[..i])|)
      {
        assert fields[..i + 1][..i] == fields[..i];
        var flag := MakeFact("Flag", fields[i].0, JObj([("value", fields[i].1)]));
        PerformConcat(old(T()), at, Flags(fields[..i]), [flag]);
        Make(at, flag);
        result.r := result.r.(flagsSet := result.r.flagsSet + 1);
        i := i + 1;
      }
      assert fields[..i] == fields;
    }

    method EmitEvents(at: Place, items: seq<Json>, result: Counters)
      modifies this, result
      ensures T() == PerformAll(old(T()), at, Events(items))
      ensures result.r == old(result.r).(eventsEmitted := old(result.r).eventsEmitted + |Events(items)|)
    {
      var i := 0;
      while i < |items|
        invariant 0 <= i <= |items| && T() == PerformAll(old(T()), at, Events(items[..i]))
        invariant result.r == old(result.r).(eventsEmitted := old(result.r).eventsEmitted + |Events(items[..i])|)
      {
        assert items[..i + 1][..i] == items[..i];
        if items[i].JStr? {
          PerformConcat(old(T()), at, Events(items[..i]), [EventFact(items[i].s)]);
          Make(at, EventFact(items[i].s));
          result.r := result.r.(eventsEmitted := result.r.eventsEmitted + 1);
        } else {
          assert Events(items[..i + 1]) == Events(items[..i]);
        }
        i := i + 1;
      }
      assert items[..i] == items;
    }

    method ApplyEnqueue(at: Place, body: Json, result: Counters)
      modifies this, result
      ensures T() == PerformAll(old(T()), at, Jobs(EnqueueList(body)))
      ensures result.r == old(result.r).(enqueued := old(result.r).enqueued + |EnqueueList(body)|)
    {
      var enqueue := EnqueueList(body);
      if enqueue != [] {
        EnqueueJobs(at, enqueue);
        result.r := result.r.(enqueued := result.r.enqueued + |enqueue|);
      }
    }

    method ApplyLocks(at: Place, body: Json, reason: string, result: Counters)
      modifies this, result
      ensures T() == PerformAll(old(T()), at, LockEffects(body, reason))
      ensures result.r == old(result.r).(locksOpened := old(result.r).locksOpened + |LockEffects(body, reason)|)
    {
      var openLock := LockSpec(body);
      if openLock.JStr? {
        Make(at, MakeLock(openLock.s, reason));
        result.r := result.r.(locksOpened := result.r.locksOpened + 1);
      } else if openLock.JArr? {
        OpenLocks(at, openLock.items, reason, result);
      }
    }

    method ApplyFlags(at: Place, body: Json, result: Counters)
      modifies this, result
      ensures T() == PerformAll(old(T()), at, FlagEffects(body))
      ensures result.r == old(result.r).(flagsSet := old(result.r).flagsSet + |FlagEffects(body)|)
    {
      var setFlag := Get(body, "set_flag");
      if setFlag.JObj? {
        SetFlags(at, setFlag.fields, result);
      }
    }

    method ApplyEvents(at: Place, body: Json, result: Counters)
      modifies this, result
      ensures T() == PerformAll(old(T()), at, EventEffects(body))
      ensures result.r == old(result.r).(eventsEmitted := old(result.r).eventsEmitted + |EventEffects(body)|)
    {
      var emit := Get(body, "emit");
      if emit.JStr? {
        Make(at, EventFact(emit.s));
        result.r := result.r.(eventsEmitted := result.r.eventsEmitted + 1);
      } else if emit.JArr? {
        EmitEvents(at, emit.items, result);
      }
    }

    method ApplySimpleActions(at: Place, body: Json, reason: string, result: Counters)
      modifies this, result
      ensures T() == PerformAll(old(T()), at, SimpleEffects(body, reason))
      ensures result.r == AddBlock(old(result.r), body, reason)
    {
      ghost var t := T();
      SimpleTallies(body, reason);
      PerformFour(t, at, Jobs(EnqueueList(body)), LockEffects(body, reason), FlagEffects(body), EventEffects(body));
      hide PerformAll, Tally, Jobs, EnqueueList, LockEffects, FlagEffects, EventEffects;
      ApplyEnqueue(at, body, result);
      ApplyLocks(at, body, reason, result);
      ApplyFlags(at, body, result);
      ApplyEvents(at, body, result);
    }

    /** One module's output, its fact or the exception, after the effects `es` of all those
        listed in `all`. */
    method Emit(at: Place, key: string, out: Option<Json>, result: Counters, ghost t: Tables, ghost es: seq<Effect>, ghost all: seq<Effect>)
      returns (raised: bool)
      requires !Raises(es) && T() == PerformAll(t, at, es) && es + Output(key, out) <= all
      modifies this, result
      ensures raised == out.None?
      ensures raised ==> Raises(all) && T() == PerformAll(t, at, Cut(all)) && result.r == old(result.r)
      ensures !raised ==> !Raises(es + Output(key, out)) && T() == PerformAll(t, at, es + Output(key, out)) && |Output(key, out)| == 1
      ensures !raised ==> result.r == old(result.r).(computed := old(result.r).computed + [key])
    {
      CutConcat(es, Output(key, out));
      hide PerformAll;
      raised := out.None?;
      if raised {
        CutPrefix(es + Output(key, out), all);
        assert Cut(Output(key, out)) == [] && es + [] == es;
      } else {
        PerformConcat(t, at, es, Output(key, out));
        Make(at, MakeFact("Computed", key, out.value));
        result.r := result.r.(computed := result.r.computed + [key]);
      }
    }

    method RunComputes(at: Place, exprs: seq<Json>, ev: Evaluators, result: Counters) returns (c: Computed, raised: bool)
      modifies this, result
      ensures var es := ComputeRun(exprs, ContextFromDb(old(facts), at), ev);
              && raised == Raises(es) && T() == PerformAll(old(T()), at, Cut(es))
              && (!raised ==> |result.r.computed| == |old(result.r).computed| + |es|)
      ensures !raised ==> c == ComputedBy(exprs, ContextFromDb(old(facts), at), ev)
      ensures result.r == old(result.r).(computed := result.r.computed)
    {
      var ctx := ContextFromDb(facts, at);
      c := NOTHING_COMPUTED;
      hide ContextFromDb, Mentions, PerformAll;
      if exprs != [] && ev.contextFails(ctx) {
        CutPrefix([Raise], ComputeRun(exprs, ctx, ev));
        NothingToDo(T(), at);
        return c, true;
      }
      assert ComputeRun(exprs, ctx, ev) == ComputeEffects(exprs, ctx, ev);
      NothingToDo(T(), at);
      hide ComputeRun;
      var i := 0;
      while i < |exprs|
        invariant 0 <= i <= |exprs| && !Raises(ComputeEffects(exprs[..i], ctx, ev))
        invariant T() == PerformAll(old(T()), at, ComputeEffects(exprs[..i], ctx, ev))
        invariant c == ComputedBy(exprs[..i], ctx, ev)
        invariant result.r == old(result.r).(computed := result.r.computed)
        invariant |result.r.computed| == |old(result.r).computed| + |ComputeEffects(exprs[..i], ctx, ev)|
      {
        c, raised := RunCompute(at, exprs, i, ctx, c, ev, result, old(T()));
        if raised { return; }
        i := i + 1;
      }
      assert exprs[..i] == exprs;
      CutNothing(ComputeEffects(exprs, ctx, ev));
      raised := false;
    }

    /** One expression, which may name both modules. */
    method RunCompute(at: Place, exprs: seq<Json>, i: nat, ctx: Context, before: Computed, ev: Evaluators, result: Counters,
                      ghost t: Tables)
      returns (c: Computed, raised: bool)
      requires i < |exprs| && before == ComputedBy(exprs[..i], ctx, ev) && !Raises(ComputeEffects(exprs[..i], ctx, ev))
      requires T() == PerformAll(t, at, ComputeEffects(exprs[..i], ctx, ev))
      modifies this, result
      ensures result.r == old(result.r).(computed := result.r.computed)
      ensures raised ==> Raises(ComputeEffects(exprs, ctx, ev)) && T() == PerformAll(t, at, Cut(ComputeEffects(exprs, ctx, ev)))
      ensures !raised ==> var es := ComputeEffects(exprs[..i + 1], ctx, ev);
                && !Raises(es) && T() == PerformAll(t, at, es) && c == ComputedBy(exprs[..i + 1], ctx, ev)
                && |result.r.computed| == |old(result.r).computed| + |es| - |ComputeEffects(exprs[..i], ctx, ev)|
    {
      ComputeSnoc(exprs, i, ctx, ev);
      ghost var all, es := ComputeEffects(exprs, ctx, ev), ComputeEffects(exprs[..i], ctx, ev);
      var x := exprs[i];
      ghost var risk := if Wants(x, "RiskScoring") then Output("risk", ev.riskScoring(ctx)) else [];
      ghost var recovery := if Wants(x, "RecoverySimulator") then Output("expected_recovery", ev.recoverySimulator(ctx)) else [];
      hide PerformAll, Wants, Cut, Raises, Output, ComputeEffects, ComputedBy;
      StartsWith(es + risk, recovery, all);
      NothingMore(es);
      c, raised := before, false;
      if Wants(x, "RiskScoring") {
        var out := ev.riskScoring(ctx);
        raised := Emit(at, "risk", out, result, t, es, all);
        if raised { return; }
        c := c.(risk := out.value);
      }
      NothingMore(es + risk);
      if Wants(x, "RecoverySimulator") {
        var out := ev.recoverySimulator(ctx);
        raised := Emit(at, "expected_recovery", out, result, t, es + risk, all);
        if raised { return; }
        c := c.(recovery := out.value);
      }
    }

    /** `apply_then`: its effects up to the first exception and, if there is none, a `result`
        that conserves the rows created. */
    method ApplyThen(at: Place, body: Json, f: Fact, ev: Evaluators) returns (result: Counters, raised: bool)
      modifies this
      ensures fresh(result)
      ensures var ctx := ContextFromDb(old(facts), at);
              var es := ThenEffects(body, ctx, ev, f);
              && raised == Raises(es) && T() == PerformAll(old(T()), at, Cut(es))
              && (!raised ==> Conserved(result.r, es, Blocks(body, ctx, ev)))
    {
      ghost var t0, ctx := T(), ContextFromDb(facts, at);
      var reason := ReasonFor(f);
      result := new Counters();
      ThenCut(body, ctx, ev, f);
      hide PerformAll, Tally, BlockEffects, SimpleEffects, EnqueuedBy, EnqueueList, ComputeEffects, ComputeRun, ComputedBy, FiredBlocks,
           ContextFromDb, ListAt, EnvOf, ReasonFor, Conserved, ThenEffects, AddBlocks, Cut, Raises;
      var computed, failed := RunComputes(at, ListAt(body, "compute"), ev, result);
      if failed {
        return result, true;
      }
      raised := false;
      ghost var t1, r1 := T(), result.r;
      ghost var fired := ApplyDecisions(at, ListAt(body, "decisions"), EnvOf(computed), reason, ev, result);
      ApplySimpleActions(at, body, reason, result);
      BlockSnoc(t1, at, r1, fired, body, reason);
      ThenTotals(t0, at, r1, body, ctx, ev, f);
    }

    /** The nested decisions, in order; returns the blocks that were applied. */
    method ApplyDecisions(at: Place, decisions: seq<Json>, env: Json, reason: string, ev: Evaluators, result: Counters)
      returns (ghost fired: seq<Json>)
      modifies this, result
      ensures fired == FiredBlocks(decisions, env, ev)
      ensures T() == PerformAll(old(T()), at, BlockEffects(fired, reason))
      ensures result.r == AddBlocks(old(result.r), fired, reason)
    {
      ghost var t0, r0 := T(), result.r;
      assert T() == PerformAll(t0, at, BlockEffects([], reason)) && r0 == AddBlocks(r0, [], reason);
      hide PerformAll, Tally, BlockEffects, SimpleEffects, EnqueueList, Fires, Get, AddBlock, AddBlocks;
      fired := [];
      assert fired == FiredBlocks(decisions[..0], env, ev);
      hide FiredBlocks;
      var i := 0;
      while i < |decisions|
        invariant 0 <= i <= |decisions| && fired == FiredBlocks(decisions[..i], env, ev)
        invariant T() == PerformAll(t0, at, BlockEffects(fired, reason))
        invariant result.r == AddBlocks(r0, fired, reason)
      {
        FiredSnoc(decisions, i, env, ev);
        if Fires(decisions[i], env, ev) {
          var block := Get(decisions[i], "then");
          ApplySimpleActions(at, block, reason, result);
          BlockSnoc(t0, at, r0, fired, block, reason);
          fired := fired + [block];
        }
        i := i + 1;
      }
      assert decisions[..i] == decisions;
    }

    method RunDecisionRules(at: Place, f: Fact, rules: seq<Json>, ev: Evaluators) returns (matched: nat, raised: bool)
      modifies this
      ensures var es := RuleEffects(rules, ContextFromDb(old(facts), at), ev, f);
              raised == Raises(es) && T() == PerformAll(old(T()), at, Cut(es))
      ensures !raised ==> matched == |Matched(rules, f, ev)|
    {
      ghost var t0, ctx := T(), ContextFromDb(facts, at);
      NothingToDo(t0, at);
      hide ContextFromDb, PerformAll, ThenEffects, Matches, ThenOf, Cut, Raises;
      NoRuleNoRaise(ctx, ev, f);
      matched, raised := 0, false;
      var i := 0;
      while i < |rules|
        invariant 0 <= i <= |rules| && matched == |Matched(rules[..i], f, ev)|
        invariant !Raises(RuleEffects(rules[..i], ctx, ev, f))
        invariant T() == PerformAll(t0, at, RuleEffects(rules[..i], ctx, ev, f))
      {
        assert rules[..i + 1][..i] == rules[..i];
        if Matches(rules[i], f, ev) {
          matched := matched + 1;
          if ThenOf(rules[i]).JObj? {
            raised := RunRule(at, f, rules, i, ctx, ev, t0);
            if raised { return; }
          }
        }
        assert !(Matches(rules[i], f, ev) && ThenOf(rules[i]).JObj?) ==>
                 RuleEffects(rules[..i + 1], ctx, ev, f) == RuleEffects(rules[..i], ctx, ev, f);
        i := i + 1;
      }
      assert rules[..i] == rules;
      CutNothing(RuleEffects(rules, ctx, ev, f));
    }

    /** The `i`-th rule, which matches; rules before it have not changed the context. */
    method RunRule(at: Place, f: Fact, rules: seq<Json>, i: nat, ghost ctx: Context, ev: Evaluators, ghost t: Tables)
      returns (raised: bool)
      requires i < |rules| && Matches(rules[i], f, ev) && ThenOf(rules[i]).JObj? && ctx == ContextFromDb(t.facts, at)
      requires !Raises(RuleEffects(rules[..i], ctx, ev, f)) && T() == PerformAll(t, at, RuleEffects(rules[..i], ctx, ev, f))
      modifies this
      ensures raised ==> Raises(RuleEffects(rules, ctx, ev, f)) && T() == PerformAll(t, at, Cut(RuleEffects(rules, ctx, ev, f)))
      ensures !raised ==> !Raises(RuleEffects(rules[..i + 1], ctx, ev, f))
                          && T() == PerformAll(t, at, RuleEffects(rules[..i + 1], ctx, ev, f))
    {
      ghost var before, own := RuleEffects(rules[..i], ctx, ev, f), ThenEffects(ThenOf(rules[i]), ctx, ev, f);
      assert rules[..i + 1][..i] == rules[..i];
      assert RuleEffects(rules[..i + 1], ctx, ev, f) == before + own;
      RulesOwn(rules[..i], ctx, ev, f);
      ContextStable(t, at, before, at);
      RulePrefix(rules, i + 1, ctx, ev, f);
      CutConcat(before, own);
      CutNothing(own);
      PerformConcat(t, at, before, Cut(own));
      hide ContextFromDb, PerformAll, ThenEffects, RuleEffects, Cut, Raises;
      var _, failed := ApplyThen(at, ThenOf(rules[i]), f, ev);
      raised := failed;
      if raised {
        CutPrefix(before + own, RuleEffects(rules, ctx, ev, f));
      }
    }

    ghost function Now(raised: bool, passes: nat): Progress
      reads this
    {
      Progress(T(), raised, passes)
    }

    /** The hook after a table was read. The order of `types` is the order in which Python
        happens to iterate the set of fact types. An exception ends it. */
    method ProcessSnapshot(at: Place, types: seq<string>, rules: seq<Json>, ev: Evaluators) returns (passes: nat, raised: bool)
      modifies this
      ensures Now(raised, passes) == HookRun(old(T()), at, types, rules, ev) && passes <= 50 * |types|
    {
      PassesBounded(T(), at, types, rules, ev);
      hide RunFacts, Query, PerformAll;
      passes, raised := 0, false;
      var i := 0;
      while i < |types|
        invariant 0 <= i <= |types| && !raised
        invariant Now(false, passes) == HookRun(old(T()), at, types[..i], rules, ev)
      {
        assert types[..i + 1][..i] == types[..i];
        var fs := Query(facts, at, types[i]);
        passes, raised := RunRulesOn(at, fs, rules, ev, passes);
        i := i + 1;
        if raised {
          RaisedStays(old(T()), at, types, i, rules, ev);
          return;
        }
      }
      assert types[..i] == types;
    }

    method RunRulesOn(at: Place, fs: seq<Fact>, rules: seq<Json>, ev: Evaluators, before: nat) returns (passes: nat, raised: bool)
      modifies this
      ensures Now(raised, passes) == RunFacts(Progress(old(T()), false, before), at, fs, rules, ev)
    {
      ghost var b := Progress(T(), false, before);
      hide RuleEffects, PerformAll, Cut, Raises;
      passes, raised := before, false;
      var k := 0;
      while k < |fs|
        invariant 0 <= k <= |fs| && !raised
        invariant Now(false, passes) == RunFacts(b, at, fs[..k], rules, ev)
      {
        assert fs[..k + 1][..k] == fs[..k];
        var _, failed := RunDecisionRules(at, fs[k], rules, ev);
        passes, raised, k := passes + 1, failed, k + 1;
        if raised {
          FactRaisedStays(b, at, fs, k, rules, ev);
          return;
        }
      }
      assert fs[..k] == fs;
    }
  }

  lemma {:induction false} NoRuleNoRaise(ctx: Context, ev: Evaluators, f: Fact)
    ensures !Raises(RuleEffects([], ctx, ev, f))
  {
  }

  lemma {:induction false} FactRaisedStays(b: Progress, at: Place, fs: seq<Fact>, k: nat, rules: seq<Json>, ev: Evaluators)
    requires k <= |fs| && RunFacts(b, at, fs[..k], rules, ev).raised
    ensures RunFacts(b, at, fs, rules, ev) == RunFacts(b, at, fs[..k], rules, ev)
    decreases |fs|
  {
    if k < |fs| {
      assert fs[..|fs| - 1][..k] == fs[..k];
      FactRaisedStays(b, at, fs[..|fs| - 1], k, rules, ev);
    } else {
      assert fs[..k] == fs;
    }
  }

  lemma {:induction false} RaisedStays(t: Tables, at: Place, types: seq<string>, i: nat, rules: seq<Json>, ev: Evaluators)
    requires i <= |types| && HookRun(t, at, types[..i], rules, ev).raised
    ensures HookRun(t, at, types, rules, ev) == HookRun(t, at, types[..i], rules, ev)
    decreases |types|
  {
    if i < |types| {
      assert types[..|types| - 1][..i] == types[..i];
      RaisedStays(t, at, types[..|types| - 1], i, rules, ev);
    } else {
      assert types[..i] == types;
    }
  }

  /** Only the computes of a `then` can raise. */
  lemma ThenCut(body: Json, ctx: Context, ev: Evaluators, f: Fact)
    ensures var c := ComputeRun(ListAt(body, "compute"), ctx, ev);
            var es := ThenEffects(body, ctx, ev, f);
            && (Raises(es) <==> Raises(c))
            && Cut(es) == (if Raises(c) then Cut(c) else es)
            && (!Raises(c) ==> Cut(c) == c)
  {
    var c, b := ComputeRun(ListAt(body, "compute"), ctx, ev), BlockEffects(Blocks(body, ctx, ev), ReasonFor(f));
    BlocksNeverRaise(Blocks(body, ctx, ev), ReasonFor(f));
    CutConcat(c, b);
    CutNothing(b);
    CutNothing(c);
  }

  lemma {:induction false} BlocksNeverRaise(blocks: seq<Json>, reason: string)
    ensures !Raises(BlockEffects(blocks, reason))
    decreases |blocks|
  {
    if |blocks| > 0 {
      var front, last := blocks[..|blocks| - 1], blocks[|blocks| - 1];
      BlocksNeverRaise(front, reason);
      SimpleNeverRaises(last, reason);
      CutConcat(BlockEffects(front, reason), SimpleEffects(last, reason));
    }
  }

  lemma SimpleNeverRaises(body: Json, reason: string)
    ensures !Raises(SimpleEffects(body, reason))
  {
    ListKinds(EnqueueList(body), if Get(body, "set_flag").JObj? then Get(body, "set_flag").fields else [], reason);
    if LockSpec(body).JArr? { ListKinds(LockSpec(body).items, [], reason); }
    if Get(body, "emit").JArr? { ListKinds(Get(body, "emit").items, [], reason); }
    KindNeverRaises(Jobs(EnqueueList(body)), JobKind);
    KindNeverRaises(LockEffects(body, reason), LockKind);
    KindNeverRaises(FlagEffects(body), FlagKind);
    KindNeverRaises(EventEffects(body), EventKind);
  }

  lemma KindNeverRaises(es: seq<Effect>, k: Kind)
    requires AllKind(es, k)
    ensures !Raises(es)
  {
  }

  lemma {:induction false} PerformFour(t: Tables, at: Place, j: seq<Effect>, l: seq<Effect>, f: seq<Effect>, e: seq<Effect>)
    ensures PerformAll(t, at, j + l + f + e) == PerformAll(PerformAll(PerformAll(PerformAll(t, at, j), at, l), at, f), at, e)
  {
    PerformConcat(t, at, j, l);
    PerformConcat(t, at, j + l, f);
    PerformConcat(t, at, j + l + f, e);
    hide PerformAll;
  }

  lemma StartsWith(a: seq<Effect>, b: seq<Effect>, all: seq<Effect>)
    requires a + b <= all
    ensures a <= all
  {
    assert a <= a + b;
  }

  lemma NothingMore(a: seq<Effect>)
    ensures a + [] == a
  {
  }

  lemma {:induction false} NothingToDo(t: Tables, at: Place)
    ensures PerformAll(t, at, []) == t
  {
  }

  lemma {:induction false} BlockSnoc(t: Tables, at: Place, r: Totals, blocks: seq<Json>, block: Json, reason: string)
    ensures PerformAll(t, at, BlockEffects(blocks + [block], reason))
         == PerformAll(PerformAll(t, at, BlockEffects(blocks, reason)), at, SimpleEffects(block, reason))
    ensures AddBlocks(r, blocks + [block], reason) == AddBlock(AddBlocks(r, blocks, reason), block, reason)
  {
    assert (blocks + [block])[..|blocks|] == blocks;
    PerformConcat(t, at, BlockEffects(blocks, reason), SimpleEffects(block, reason));
  }

  lemma {:induction false} BlockTotals(r: Totals, blocks: seq<Json>, reason: string)
    ensures var es := BlockEffects(blocks, reason);
            AddBlocks(r, blocks, reason) ==
              Totals(r.enqueued + EnqueuedBy(blocks), r.locksOpened + Tally(es, LockKind), r.flagsSet + Tally(es, FlagKind),
                     r.eventsEmitted + Tally(es, EventKind), r.computed)
    decreases |blocks|
  {
    if |blocks| > 0 {
      var front, last := blocks[..|blocks| - 1], blocks[|blocks| - 1];
      BlockTotals(r, front, reason);
      forall k: Kind ensures Tally(BlockEffects(blocks, reason), k)
                             == Tally(BlockEffects(front, reason), k) + Tally(SimpleEffects(last, reason), k) {
        TallyConcat(BlockEffects(front, reason), SimpleEffects(last, reason), k);
      }
    }
  }

  lemma {:induction false} ComputeAllKind(exprs: seq<Json>, ctx: Context, ev: Evaluators)
    ensures !Raises(ComputeEffects(exprs, ctx, ev)) ==> AllKind(ComputeEffects(exprs, ctx, ev), ComputedKind)
    decreases |exprs|
  {
    if |exprs| > 0 {
      var front, x := exprs[..|exprs| - 1], exprs[|exprs| - 1];
      ComputeAllKind(front, ctx, ev);
      ComputePrefix(exprs, |exprs| - 1, ctx, ev);
      if Raises(ComputeEffects(front, ctx, ev)) {
        CutPrefix(ComputeEffects(front, ctx, ev), ComputeEffects(exprs, ctx, ev));
      } else {
        KindOrRaise(ComputeEffects(front, ctx, ev), if Wants(x, "RiskScoring") then Output("risk", ev.riskScoring(ctx)) else [],
                    if Wants(x, "RecoverySimulator") then Output("expected_recovery", ev.recoverySimulator(ctx)) else []);
      }
    }
  }

  lemma KindOrRaise(a: seq<Effect>, b: seq<Effect>, c: seq<Effect>)
    requires AllKind(a, ComputedKind) && (Raises(b) || AllKind(b, ComputedKind)) && (Raises(c) || AllKind(c, ComputedKind))
    ensures !Raises(a + b + c) ==> AllKind(a + b + c, ComputedKind)
  {
    CutConcat(a + b, c);
    CutConcat(a, b);
  }

  lemma {:induction false} ThenTotals(t: Tables, at: Place, r: Totals, body: Json, ctx: Context, ev: Evaluators, f: Fact)
    requires !Raises(ComputeRun(ListAt(body, "compute"), ctx, ev))
    requires r == Totals(0, 0, 0, 0, r.computed) && |r.computed| == |ComputeRun(ListAt(body, "compute"), ctx, ev)|
    ensures PerformAll(t, at, ThenEffects(body, ctx, ev, f))
         == PerformAll(PerformAll(t, at, ComputeRun(ListAt(body, "compute"), ctx, ev)), at,
                       BlockEffects(Blocks(body, ctx, ev), ReasonFor(f)))
    ensures Conserved(AddBlocks(r, Blocks(body, ctx, ev), ReasonFor(f)), ThenEffects(body, ctx, ev, f), Blocks(body, ctx, ev))
  {
    var c, b := ComputeRun(ListAt(body, "compute"), ctx, ev), BlockEffects(Blocks(body, ctx, ev), ReasonFor(f));
    RunIsEffects(ListAt(body, "compute"), ctx, ev);
    ComputeAllKind(ListAt(body, "compute"), ctx, ev);
    assert ThenEffects(body, ctx, ev, f) == c + b;
    hide *;
    PerformConcat(t, at, c, b);
    TotalsConserved(r, c, Blocks(body, ctx, ev), ReasonFor(f));
  }

  /** The counters of one `then`, whose modules made the facts `c`. */
  lemma {:induction false} TotalsConserved(r: Totals, c: seq<Effect>, blocks: seq<Json>, reason: string)
    requires AllKind(c, ComputedKind) && r == Totals(0, 0, 0, 0, r.computed) && |r.computed| == |c|
    ensures Conserved(AddBlocks(r, blocks, reason), c + BlockEffects(blocks, reason), blocks)
  {
    EnqueuedIsAnUpperBound(blocks, reason);
    BlockTotals(r, blocks, reason);
    ComputesTally(c, BlockEffects(blocks, reason));
    hide Tally, BlockEffects, EnqueuedBy, AddBlocks, AllStrings, AllKind;
  }

  lemma {:induction false} ComputesTally(c: seq<Effect>, b: seq<Effect>)
    requires AllKind(c, ComputedKind)
    ensures forall k: Kind :: Tally(c + b, k) == (if k == ComputedKind then |c| else 0) + Tally(b, k)
  {
    hide Tally;
    forall k: Kind ensures Tally(c + b, k) == (if k == ComputedKind then |c| else 0) + Tally(b, k) {
      TallyConcat(c, b, k);
      TallyPure(c, ComputedKind, k);
    }
  }

  lemma {:induction false} RunIsEffects(exprs: seq<Json>, ctx: Context, ev: Evaluators)
    requires !Raises(ComputeRun(exprs, ctx, ev))
    ensures ComputeRun(exprs, ctx, ev) == ComputeEffects(exprs, ctx, ev)
  {
    if exprs != [] && ev.contextFails(ctx) {
      CutConcat([Raise], ComputeEffects(exprs, ctx, ev));
    }
  }
}
