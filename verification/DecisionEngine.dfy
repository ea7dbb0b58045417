/** The decision-rule engine: what a fact makes the matching rules do, how the reported
    counters relate to the rows created, and the per-snapshot hook of the runner. */
module DecisionEngine {
  import opened BotTypes

  // ---------- bundle values ----------

  datatype Json =
    | JNull | JBool(b: bool) | JNum(n: real) | JStr(s: string)
    | JArr(items: seq<Json>) | JObj(fields: seq<(string, Json)>)
  {
    predicate Truthy() {
      match this
      case JNull => false
      case JBool(b) => b
      case JNum(n) => n != 0.0
      case JStr(s) => s != ""
      case JArr(items) => items != []
      case JObj(fields) => fields != []
    }
  }

  function Lookup(fields: seq<(string, Json)>, key: string): Json {
    if |fields| == 0 then JNull else if fields[0].0 == key then fields[0].1 else Lookup(fields[1..], key)
  }

  /** `o.get(key)`: null when the key is missing. */
  function Get(o: Json, key: string): Json {
    if o.JObj? then Lookup(o.fields, key) else JNull
  }

  predicate Mentions(text: string, word: string) {
    word <= text || (|text| > 0 && Mentions(text[1..], word))
  }

  // ---------- tables ----------

  type Id = nat

  datatype Fact = Fact(caseId: Id, debtor: Option<Id>, ftype: string, key: string, value: Json, snapshot: Id)

  datatype NewJob = NewJob(caseId: Id, debtor: Option<Id>, recipe: string, risk: RiskLevel)

  datatype NewLock = NewLock(caseId: Id, lockId: string, reason: string)

  /** The three tables a rule writes to, rows in order of creation. */
  datatype Tables = Tables(facts: seq<Fact>, jobs: seq<NewJob>, locks: seq<NewLock>)

  /** Where a rule acts: the case and debtor of the job, and the triggering fact's snapshot. */
  datatype Place = Place(caseId: Id, debtor: Option<Id>, snapshot: Id)

  /** A row to be created; `Raise` stands for an exception, after which nothing more is done. */
  datatype Effect = MakeJob(recipe: string) | MakeLock(lockId: string, reason: string)
                  | MakeFact(ftype: string, key: string, value: Json) | Raise

  function Perform(t: Tables, at: Place, e: Effect): Tables {
    match e
    case MakeJob(r) => t.(jobs := t.jobs + [NewJob(at.caseId, at.debtor, r, ReadOnly)])
    case MakeLock(l, why) => t.(locks := t.locks + [NewLock(at.caseId, l, why)])
    case MakeFact(ft, k, v) => t.(facts := t.facts + [Fact(at.caseId, at.debtor, ft, k, v, at.snapshot)])
    case Raise => t
  }

  function PerformAll(t: Tables, at: Place, es: seq<Effect>): Tables {
    if |es| == 0 then t else Perform(PerformAll(t, at, es[..|es| - 1]), at, es[|es| - 1])
  }

  lemma {:induction false} PerformConcat(t: Tables, at: Place, a: seq<Effect>, b: seq<Effect>)
    ensures PerformAll(t, at, a + b) == PerformAll(PerformAll(t, at, a), at, b)
    decreases |b|
  {
    if |b| == 0 {
      assert a + b == a;
    } else {
      assert (a + b)[..|a + b| - 1] == a + b[..|b| - 1];
      PerformConcat(t, at, a, b[..|b| - 1]);
    }
  }

  predicate Raises(es: seq<Effect>) {
    Raise in es
  }

  /** What is done of a list of effects: everything before the first exception. */
  function Cut(es: seq<Effect>): seq<Effect> {
    if |es| == 0 || es[0].Raise? then [] else [es[0]] + Cut(es[1..])
  }

  lemma {:induction false} CutConcat(a: seq<Effect>, b: seq<Effect>)
    ensures Cut(a + b) == if Raises(a) then Cut(a) else a + Cut(b)
    ensures Raises(a + b) <==> Raises(a) || Raises(b)
  {
    if |a| == 0 {
      assert a + b == b;
    } else {
      assert (a + b)[1..] == a[1..] + b && a == [a[0]] + a[1..];
      CutConcat(a[1..], b);
    }
  }

  lemma {:induction false} CutNothing(es: seq<Effect>)
    ensures !Raises(es) ==> Cut(es) == es
  {
    CutConcat(es, []);
    assert es + [] == es && Cut([]) == [];
  }

  /** An exception in a prefix settles what is done of the whole. */
  lemma {:induction false} CutPrefix(es: seq<Effect>, all: seq<Effect>)
    requires es <= all && Raises(es)
    ensures Cut(all) == Cut(es) && Raises(all)
  {
    CutConcat(es, all[|es|..]);
    assert es + all[|es|..] == all;
  }

  // ---------- the parts not modelled further ----------

  /** The facts `_context_from_db` reads: the newest valuation and the newest context
      updates, as stored. */
  datatype Context = Context(valuation: Option<Json>, rank: Option<Json>, priorClaims: Option<Json>,
                             unknownAmounts: Option<Json>, unknownActivity: Option<Json>, priorLiens: Option<Json>)

  /** Regular-expression parsing and evaluation of predicates and conditions; whether
      building the context dict raises; and the two compute modules as functions of the
      context, `None` where a conversion raises. */
  datatype Evaluators = Evaluators(
    parseWhen: string -> (Option<string>, Option<string>),
    evalPredicate: (string, Json) -> bool,
    evalCondition: (string, Json) -> bool,
    contextFails: Context -> bool,
    riskScoring: Context -> Option<Json>,
    recoverySimulator: Context -> Option<Json>)

  ghost predicate NeverRaises(ev: Evaluators) {
    forall ctx: Context :: !ev.contextFails(ctx) && ev.riskScoring(ctx).Some? && ev.recoverySimulator(ctx).Some?
  }

  function Newest(facts: seq<Fact>, at: Place, ftype: string, key: Option<string>): Option<Json> {
    if |facts| == 0 then None
    else
      var f := facts[|facts| - 1];
      if f.caseId == at.caseId && f.debtor == at.debtor && f.ftype == ftype && (key.None? || f.key == key.value)
      then Some(f.value) else Newest(facts[..|facts| - 1], at, ftype, key)
  }

  function ContextFromDb(facts: seq<Fact>, at: Place): Context {
    Context(Newest(facts, at, "ValuationEstimate", None),
            Newest(facts, at, "ContextUpdated", Some("our_rank")),
            Newest(facts, at, "ContextUpdated", Some("prior_claims_estimate")),
            Newest(facts, at, "ContextUpdated", Some("unknown_amounts_count")),
            Newest(facts, at, "ContextUpdated", Some("unknown_activity_count")),
            Newest(facts, at, "ContextUpdated", Some("active_prior_liens_count")))
  }

  // ---------- what one action block does ----------

  function Jobs(items: seq<Json>): seq<Effect> {
    if |items| == 0 then []
    else Jobs(items[..|items| - 1]) + (if items[|items| - 1].JStr? then [MakeJob(items[|items| - 1].s)] else [])
  }

  function LocksOf(items: seq<Json>, reason: string): seq<Effect> {
    if |items| == 0 then []
    else LocksOf(items[..|items| - 1], reason) + (if items[|items| - 1].JStr? then [MakeLock(items[|items| - 1].s, reason)] else [])
  }

  function Flags(fields: seq<(string, Json)>): seq<Effect> {
    if |fields| == 0 then []
    else
      var kv := fields[|fields| - 1];
      Flags(fields[..|fields| - 1]) + [MakeFact("Flag", kv.0, JObj([("value", kv.1)]))]
  }

  function EventFact(name: string): Effect {
    MakeFact("Event", name, JObj([("from", JStr("decision_rule"))]))
  }

  function Events(items: seq<Json>): seq<Effect> {
    if |items| == 0 then []
    else Events(items[..|items| - 1]) + (if items[|items| - 1].JStr? then [EventFact(items[|items| - 1].s)] else [])
  }

  function EnqueueList(body: Json): seq<Json> {
    var q := Get(body, "enqueue");
    if q.JArr? then q.items else []
  }

  function LockSpec(body: Json): Json {
    if Get(body, "open_lock").Truthy() then Get(body, "open_lock") else Get(body, "open_locks")
  }

  function LockEffects(body: Json, reason: string): seq<Effect> {
    var l := LockSpec(body);
    if l.JStr? then [MakeLock(l.s, reason)] else if l.JArr? then LocksOf(l.items, reason) else []
  }

  function FlagEffects(body: Json): seq<Effect> {
    var f := Get(body, "set_flag");
    if f.JObj? then Flags(f.fields) else []
  }

  function EventEffects(body: Json): seq<Effect> {
    var e := Get(body, "emit");
    if e.JStr? then [EventFact(e.s)] else if e.JArr? then Events(e.items) else []
  }

  function SimpleEffects(body: Json, reason: string): seq<Effect> {
    Jobs(EnqueueList(body)) + LockEffects(body, reason) + FlagEffects(body) + EventEffects(body)
  }

  // ---------- what a `then` does ----------

  /** The outputs computed so far, as conditions see them. */
  datatype Computed = Computed(risk: Json, recovery: Json)

  const NOTHING_COMPUTED := Computed(JObj([]), JObj([]))

  predicate Wants(x: Json, word: string) {
    x.JStr? && Mentions(x.s, word)
  }

  function Output(key: string, out: Option<Json>): seq<Effect> {
    if out.None? then [Raise] else [MakeFact("Computed", key, out.value)]
  }

  function ComputeEffects(exprs: seq<Json>, ctx: Context, ev: Evaluators): seq<Effect> {
    if |exprs| == 0 then []
    else
      var x := exprs[|exprs| - 1];
      ComputeEffects(exprs[..|exprs| - 1], ctx, ev)
      + (if Wants(x, "RiskScoring") then Output("risk", ev.riskScoring(ctx)) else [])
      + (if Wants(x, "RecoverySimulator") then Output("expected_recovery", ev.recoverySimulator(ctx)) else [])
  }

  /** The context is built first, if there is anything to compute. */
  function ComputeRun(exprs: seq<Json>, ctx: Context, ev: Evaluators): seq<Effect> {
    (if exprs != [] && ev.contextFails(ctx) then [Raise] else []) + ComputeEffects(exprs, ctx, ev)
  }

  lemma {:induction false} ComputePrefix(exprs: seq<Json>, i: nat, ctx: Context, ev: Evaluators)
    requires i <= |exprs|
    ensures ComputeEffects(exprs[..i], ctx, ev) <= ComputeEffects(exprs, ctx, ev)
    decreases |exprs|
  {
    if i < |exprs| {
      ComputePrefix(exprs[..|exprs| - 1], i, ctx, ev);
      assert exprs[..|exprs| - 1][..i] == exprs[..i];
    } else {
      assert exprs[..i] == exprs;
    }
  }

  function ComputedBy(exprs: seq<Json>, ctx: Context, ev: Evaluators): Computed {
    if |exprs| == 0 then NOTHING_COMPUTED
    else
      var x := exprs[|exprs| - 1];
      var c := ComputedBy(exprs[..|exprs| - 1], ctx, ev);
      Computed(if Wants(x, "RiskScoring") && ev.riskScoring(ctx).Some? then ev.riskScoring(ctx).value else c.risk,
               if Wants(x, "RecoverySimulator") && ev.recoverySimulator(ctx).Some? then ev.recoverySimulator(ctx).value
               else c.recovery)
  }

  /** One expression more: its outputs come last, and win. */
  lemma {:induction false} ComputeSnoc(exprs: seq<Json>, i: nat, ctx: Context, ev: Evaluators)
    requires i < |exprs|
    ensures var x, c := exprs[i], ComputedBy(exprs[..i], ctx, ev);
            var risk := if Wants(x, "RiskScoring") then Output("risk", ev.riskScoring(ctx)) else [];
            var recovery := if Wants(x, "RecoverySimulator") then Output("expected_recovery", ev.recoverySimulator(ctx)) else [];
            && ComputeEffects(exprs[..i + 1], ctx, ev) == ComputeEffects(exprs[..i], ctx, ev) + risk + recovery
            && ComputeEffects(exprs[..i], ctx, ev) + risk + recovery <= ComputeEffects(exprs, ctx, ev)
            && ComputedBy(exprs[..i + 1], ctx, ev)
               == Computed(if Wants(x, "RiskScoring") && ev.riskScoring(ctx).Some? then ev.riskScoring(ctx).value else c.risk,
                           if Wants(x, "RecoverySimulator") && ev.recoverySimulator(ctx).Some? then ev.recoverySimulator(ctx).value
                           else c.recovery)
  {
    assert exprs[..i + 1][..i] == exprs[..i] && exprs[..i + 1][i] == exprs[i];
    ComputePrefix(exprs, i + 1, ctx, ev);
    hide Wants, Output;
  }

  lemma {:induction false} FiredSnoc(decisions: seq<Json>, i: nat, env: Json, ev: Evaluators)
    requires i < |decisions|
    ensures FiredBlocks(decisions[..i + 1], env, ev)
         == FiredBlocks(decisions[..i], env, ev) + (if Fires(decisions[i], env, ev) then [Get(decisions[i], "then")] else [])
  {
    assert decisions[..i + 1][..i] == decisions[..i] && decisions[..i + 1][i] == decisions[i];
  }

  function ListAt(body: Json, key: string): seq<Json> {
    if Get(body, key).JArr? then Get(body, key).items else []
  }

  predicate Fires(d: Json, env: Json, ev: Evaluators) {
    d.JObj? && Get(d, "if").JStr? && Get(d, "then").JObj? && ev.evalCondition(Get(d, "if").s, env)
  }

  function EnvOf(c: Computed): Json {
    JObj([("risk", c.risk), ("expected_recovery", c.recovery)])
  }

  /** The action blocks applied for the first `n` decisions. */
  function FiredBlocks(decisions: seq<Json>, env: Json, ev: Evaluators): seq<Json> {
    if |decisions| == 0 then []
    else
      var d := decisions[|decisions| - 1];
      FiredBlocks(decisions[..|decisions| - 1], env, ev) + (if Fires(d, env, ev) then [Get(d, "then")] else [])
  }

  /** All blocks a `then` applies: those of the decisions that fire, then its own. */
  function Blocks(body: Json, ctx: Context, ev: Evaluators): seq<Json> {
    FiredBlocks(ListAt(body, "decisions"), EnvOf(ComputedBy(ListAt(body, "compute"), ctx, ev)), ev) + [body]
  }

  function BlockEffects(blocks: seq<Json>, reason: string): seq<Effect> {
    if |blocks| == 0 then []
    else BlockEffects(blocks[..|blocks| - 1], reason) + SimpleEffects(blocks[|blocks| - 1], reason)
  }

  function ReasonFor(f: Fact): string {
    "rule_lock from fact " + f.ftype + ":" + f.key
  }

  function ThenEffects(body: Json, ctx: Context, ev: Evaluators, f: Fact): seq<Effect> {
    ComputeRun(ListAt(body, "compute"), ctx, ev) + BlockEffects(Blocks(body, ctx, ev), ReasonFor(f))
  }

  // ---------- what the rules do for a fact ----------

  predicate Matches(rule: Json, f: Fact, ev: Evaluators) {
    rule.JObj? && Get(rule, "when").JStr?
    && var (ft, pred) := ev.parseWhen(Get(rule, "when").s);
       ft == Some(f.ftype) && (pred.None? || pred.value == "" || ev.evalPredicate(pred.value, if f.value.Truthy() then f.value else JObj([])))
  }

  function ThenOf(rule: Json): Json {
    if Get(rule, "then").Truthy() then Get(rule, "then") else JObj([])
  }

  function RuleEffects(rules: seq<Json>, ctx: Context, ev: Evaluators, f: Fact): seq<Effect> {
    if |rules| == 0 then []
    else
      var r := rules[|rules| - 1];
      RuleEffects(rules[..|rules| - 1], ctx, ev, f)
      + (if Matches(r, f, ev) && ThenOf(r).JObj? then ThenEffects(ThenOf(r), ctx, ev, f) else [])
  }

  lemma {:induction false} RulePrefix(rules: seq<Json>, i: nat, ctx: Context, ev: Evaluators, f: Fact)
    requires i <= |rules|
    ensures RuleEffects(rules[..i], ctx, ev, f) <= RuleEffects(rules, ctx, ev, f)
    decreases |rules|
  {
    if i < |rules| {
      RulePrefix(rules[..|rules| - 1], i, ctx, ev, f);
      assert rules[..|rules| - 1][..i] == rules[..i];
    } else {
      assert rules[..i] == rules;
    }
  }

  // ---------- effects never touch what the context reads ----------

  predicate OwnType(ftype: string) {
    ftype == "Flag" || ftype == "Event" || ftype == "Computed"
  }

  ghost predicate OwnEffects(es: seq<Effect>) {
    forall i | 0 <= i < |es| && es[i].MakeFact? :: OwnType(es[i].ftype)
  }

  lemma {:induction false} JobsOwn(items: seq<Json>)
    ensures OwnEffects(Jobs(items))
    decreases |items|
  {
    if |items| > 0 { JobsOwn(items[..|items| - 1]); }
  }

  lemma {:induction false} LocksOwn(items: seq<Json>, reason: string)
    ensures OwnEffects(LocksOf(items, reason))
    decreases |items|
  {
    if |items| > 0 { LocksOwn(items[..|items| - 1], reason); }
  }

  lemma {:induction false} FlagsOwn(fields: seq<(string, Json)>)
    ensures OwnEffects(Flags(fields))
    decreases |fields|
  {
    if |fields| > 0 { FlagsOwn(fields[..|fields| - 1]); }
  }

  lemma {:induction false} EventsOwn(items: seq<Json>)
    ensures OwnEffects(Events(items))
    decreases |items|
  {
    if |items| > 0 { EventsOwn(items[..|items| - 1]); }
  }

  lemma SimpleOwn(body: Json, reason: string)
    ensures OwnEffects(SimpleEffects(body, reason))
  {
    JobsOwn(EnqueueList(body));
    if LockSpec(body).JArr? { LocksOwn(LockSpec(body).items, reason); }
    if Get(body, "set_flag").JObj? { FlagsOwn(Get(body, "set_flag").fields); }
    if Get(body, "emit").JArr? { EventsOwn(Get(body, "emit").items); }
  }

  lemma {:induction false} BlocksOwn(blocks: seq<Json>, reason: string)
    ensures OwnEffects(BlockEffects(blocks, reason))
    decreases |blocks|
  {
    if |blocks| > 0 {
      BlocksOwn(blocks[..|blocks| - 1], reason);
      SimpleOwn(blocks[|blocks| - 1], reason);
    }
  }

  lemma {:induction false} ComputeOwn(exprs: seq<Json>, ctx: Context, ev: Evaluators)
    ensures OwnEffects(ComputeEffects(exprs, ctx, ev))
    decreases |exprs|
  {
    if |exprs| > 0 { ComputeOwn(exprs[..|exprs| - 1], ctx, ev); }
  }

  lemma {:induction false} RulesOwn(rules: seq<Json>, ctx: Context, ev: Evaluators, f: Fact)
    ensures OwnEffects(RuleEffects(rules, ctx, ev, f))
    decreases |rules|
  {
    if |rules| > 0 {
      RulesOwn(rules[..|rules| - 1], ctx, ev, f);
      var body := ThenOf(rules[|rules| - 1]);
      ComputeOwn(ListAt(body, "compute"), ctx, ev);
      BlocksOwn(Blocks(body, ctx, ev), ReasonFor(f));
    }
  }

  lemma {:induction false} NewestSkipsOwn(t: Tables, at: Place, es: seq<Effect>, where: Place, ftype: string, key: Option<string>)
    requires OwnEffects(es) && !OwnType(ftype)
    ensures Newest(PerformAll(t, at, es).facts, where, ftype, key) == Newest(t.facts, where, ftype, key)
    decreases |es|
  {
    if |es| > 0 {
      var b := PerformAll(t, at, es[..|es| - 1]);
      NewestSkipsOwn(t, at, es[..|es| - 1], where, ftype, key);
      if es[|es| - 1].MakeFact? {
        assert Perform(b, at, es[|es| - 1]).facts[..|b.facts|] == b.facts;
      }
    }
  }

  /** Rule effects never change the context that later rules compute with. */
  lemma {:induction false} ContextStable(t: Tables, at: Place, es: seq<Effect>, where: Place)
    requires OwnEffects(es)
    ensures ContextFromDb(PerformAll(t, at, es).facts, where) == ContextFromDb(t.facts, where)
  {
    NewestSkipsOwn(t, at, es, where, "ValuationEstimate", None);
    NewestSkipsOwn(t, at, es, where, "ContextUpdated", Some("our_rank"));
    NewestSkipsOwn(t, at, es, where, "ContextUpdated", Some("prior_claims_estimate"));
    NewestSkipsOwn(t, at, es, where, "ContextUpdated", Some("unknown_amounts_count"));
    NewestSkipsOwn(t, at, es, where, "ContextUpdated", Some("unknown_activity_count"));
    NewestSkipsOwn(t, at, es, where, "ContextUpdated", Some("active_prior_liens_count"));
  }

  // ---------- counting ----------

  datatype Kind = JobKind | LockKind | FlagKind | EventKind | ComputedKind

  predicate IsKind(e: Effect, k: Kind) {
    match k
    case JobKind => e.MakeJob?
    case LockKind => e.MakeLock?
    case FlagKind => e.MakeFact? && e.ftype == "Flag"
    case EventKind => e.MakeFact? && e.ftype == "Event"
    case ComputedKind => e.MakeFact? && e.ftype == "Computed"
  }

  function Tally(es: seq<Effect>, k: Kind): nat {
    if |es| == 0 then 0 else Tally(es[..|es| - 1], k) + (if IsKind(es[|es| - 1], k) then 1 else 0)
  }

  lemma {:induction false} TallyConcat(a: seq<Effect>, b: seq<Effect>, k: Kind)
    ensures Tally(a + b, k) == Tally(a, k) + Tally(b, k)
    decreases |b|
  {
    if |b| == 0 {
      assert a + b == a;
    } else {
      assert (a + b)[..|a + b| - 1] == a + b[..|b| - 1];
      TallyConcat(a, b[..|b| - 1], k);
    }
  }

  /** A list whose effects are all of one kind. */
  ghost predicate AllKind(es: seq<Effect>, k: Kind) {
    forall i | 0 <= i < |es| :: IsKind(es[i], k)
  }

  lemma {:induction false} TallyPure(es: seq<Effect>, k: Kind, l: Kind)
    requires AllKind(es, k)
    ensures Tally(es, l) == if k == l then |es| else 0
    decreases |es|
  {
    if |es| > 0 { TallyPure(es[..|es| - 1], k, l); }
  }

  lemma {:induction false} ListKinds(items: seq<Json>, fields: seq<(string, Json)>, reason: string)
    ensures AllKind(Jobs(items), JobKind) && AllKind(LocksOf(items, reason), LockKind) && AllKind(Events(items), EventKind)
    ensures AllKind(Flags(fields), FlagKind) && |Flags(fields)| == |fields|
    ensures |Jobs(items)| <= |items|
    ensures |Jobs(items)| == |items| <==> forall i | 0 <= i < |items| :: items[i].JStr?
    decreases |items| + |fields|
  {
    if |items| > 0 { ListKinds(items[..|items| - 1], fields, reason); }
    if |fields| > 0 { ListKinds(items, fields[..|fields| - 1], reason); }
  }

  /** What one block adds to each counter is what it adds to each table, except that
      `enqueued` counts every entry of the list. */
  lemma SimpleTallies(body: Json, reason: string)
    ensures var es := SimpleEffects(body, reason);
            && Tally(es, JobKind) == |Jobs(EnqueueList(body))| <= |EnqueueList(body)|
            && (Tally(es, JobKind) == |EnqueueList(body)| <==> OnlyStrings(body))
            && Tally(es, LockKind) == |LockEffects(body, reason)|
            && Tally(es, FlagKind) == |FlagEffects(body)|
            && Tally(es, EventKind) == |EventEffects(body)|
            && Tally(es, ComputedKind) == 0
  {
    var j, l, f, e := Jobs(EnqueueList(body)), LockEffects(body, reason), FlagEffects(body), EventEffects(body);
    ListKinds(EnqueueList(body), if Get(body, "set_flag").JObj? then Get(body, "set_flag").fields else [], reason);
    if LockSpec(body).JArr? { ListKinds(LockSpec(body).items, [], reason); }
    if Get(body, "emit").JArr? { ListKinds(Get(body, "emit").items, [], reason); }
    FourKinds(j, l, f, e);
    hide Tally, AllKind;
  }

  lemma FourKinds(j: seq<Effect>, l: seq<Effect>, f: seq<Effect>, e: seq<Effect>)
    requires AllKind(j, JobKind) && AllKind(l, LockKind) && AllKind(f, FlagKind) && AllKind(e, EventKind)
    ensures var es := j + l + f + e;
            && Tally(es, JobKind) == |j| && Tally(es, LockKind) == |l| && Tally(es, FlagKind) == |f|
            && Tally(es, EventKind) == |e| && Tally(es, ComputedKind) == 0
  {
    forall k: Kind ensures Tally(j + l + f + e, k) == (if k == JobKind then |j| else 0) + (if k == LockKind then |l| else 0)
                           + (if k == FlagKind then |f| else 0) + (if k == EventKind then |e| else 0) {
      TallyConcat(j + l + f, e, k);
      TallyConcat(j + l, f, k);
      TallyConcat(j, l, k);
      TallyPure(j, JobKind, k);
      TallyPure(l, LockKind, k);
      TallyPure(f, FlagKind, k);
      TallyPure(e, EventKind, k);
      hide Tally, AllKind;
    }
  }

  function EnqueuedBy(blocks: seq<Json>): nat {
    if |blocks| == 0 then 0 else EnqueuedBy(blocks[..|blocks| - 1]) + |EnqueueList(blocks[|blocks| - 1])|
  }

  ghost predicate OnlyStrings(block: Json) {
    forall i | 0 <= i < |EnqueueList(block)| :: EnqueueList(block)[i].JStr?
  }

  ghost predicate AllStrings(blocks: seq<Json>) {
    forall b | 0 <= b < |blocks| :: OnlyStrings(blocks[b])
  }

  /** Over any list of applied blocks the jobs created never exceed the entries counted
      as enqueued, and are as many exactly when every entry of every block is a string. */
  lemma {:induction false} EnqueuedIsAnUpperBound(blocks: seq<Json>, reason: string)
    ensures Tally(BlockEffects(blocks, reason), JobKind) <= EnqueuedBy(blocks)
    ensures Tally(BlockEffects(blocks, reason), JobKind) == EnqueuedBy(blocks) <==> AllStrings(blocks)
    ensures Tally(BlockEffects(blocks, reason), ComputedKind) == 0
    decreases |blocks|
  {
    if |blocks| > 0 {
      var front, last := blocks[..|blocks| - 1], blocks[|blocks| - 1];
      EnqueuedIsAnUpperBound(front, reason);
      SimpleTallies(last, reason);
      TallyConcat(BlockEffects(front, reason), SimpleEffects(last, reason), JobKind);
      TallyConcat(BlockEffects(front, reason), SimpleEffects(last, reason), ComputedKind);
      AllStringsSnoc(blocks);
      hide SimpleEffects, EnqueueList;
    }
  }

  lemma AllStringsSnoc(blocks: seq<Json>)
    requires |blocks| > 0
    ensures AllStrings(blocks) <==> AllStrings(blocks[..|blocks| - 1]) && OnlyStrings(blocks[|blocks| - 1])
  {
    var front := blocks[..|blocks| - 1];
    assert forall b | 0 <= b < |front| :: front[b] == blocks[b];
    if AllStrings(front) && OnlyStrings(blocks[|blocks| - 1]) {
      forall b | 0 <= b < |blocks| ensures OnlyStrings(blocks[b]) {
        if b < |front| { assert OnlyStrings(front[b]); }
      }
    }
  }
}
