/** Exactly when the order in which the hook iterates the fact types matters. */
module OrderMatters {
  import opened BotTypes
  import opened DecisionEngine
  import opened RuleRunner
  import opened Confluence

  // ---------- two rules ----------

  /** An action block that creates one fact of the given own type. */
  function Creating(own: string): Json {
    if own == "Flag" then JObj([("set_flag", JObj([("k", JNull)]))])
    else if own == "Event" then JObj([("emit", JStr("k"))])
    else JObj([("compute", JArr([JStr("RiskScoring")]))])
  }

  const ENQUEUEING := JObj([("enqueue", JArr([JStr("R")]))])

  function RuleFor(when: string, body: Json): Json {
    JObj([("when", JStr(when)), ("then", body)])
  }

  /** The first rule creates for each fact of type `x`, the second enqueues a recipe for each
      fact of type `y`. */
  function TwoRules(x: string, own: string, y: string): seq<Json> {
    [RuleFor(x, Creating(own)), RuleFor(y, ENQUEUEING)]
  }

  /** Conditions that name a fact type, and modules that all raise or never do. */
  function Plain(fails: bool): Evaluators {
    Evaluators((w: string) => (Some(w), None), (p: string, v: Json) => true, (c: string, e: Json) => true, (c: Context) => false,
               (c: Context) => if fails then None else Some(JNull), (c: Context) => if fails then None else Some(JNull))
  }

  const HERE := Place(1, None, 5)

  /** What `Creating(own)` does. */
  function Made(own: string, fails: bool): Effect {
    if own == "Flag" then MakeFact("Flag", "k", JObj([("value", JNull)]))
    else if own == "Event" then EventFact("k")
    else if fails then Raise
    else MakeFact("Computed", "risk", JNull)
  }

  lemma LookupOne(key: string, v: Json, k: string)
    ensures Get(JObj([(key, v)]), k) == if k == key then v else JNull
  {
    var fields: seq<(string, Json)> := [(key, v)];
    assert fields[1..] == [];
    assert Lookup(fields[1..], k) == JNull;
    assert Get(JObj(fields), k) == Lookup(fields, k);
  }

  /** The four parts of a block with a single entry. */
  lemma OneEntryBlock(key: string, v: Json, reason: string)
    ensures var b := JObj([(key, v)]);
            && EnqueueList(b) == (if key == "enqueue" && v.JArr? then v.items else [])
            && (key == "set_flag" || key == "emit" || key == "compute" || key == "enqueue" ==> LockEffects(b, reason) == [])
            && FlagEffects(b) == (if key == "set_flag" && v.JObj? then Flags(v.fields) else [])
            && (key != "emit" ==> EventEffects(b) == [])
            && (key == "emit" && v.JStr? ==> EventEffects(b) == [EventFact(v.s)])
            && ListAt(b, "compute") == (if key == "compute" && v.JArr? then v.items else [])
            && (key != "decisions" ==> ListAt(b, "decisions") == [])
  {
    LookupOne(key, v, "enqueue");
    LookupOne(key, v, "open_lock");
    LookupOne(key, v, "open_locks");
    LookupOne(key, v, "set_flag");
    LookupOne(key, v, "emit");
    LookupOne(key, v, "compute");
    LookupOne(key, v, "decisions");
  }

  lemma {:induction false} BlockOf(body: Json, ctx: Context, fails: bool, f: Fact)
    requires ListAt(body, "decisions") == []
    ensures ThenEffects(body, ctx, Plain(fails), f)
         == ComputeEffects(ListAt(body, "compute"), ctx, Plain(fails)) + SimpleEffects(body, ReasonFor(f))
  {
    assert Blocks(body, ctx, Plain(fails)) == [body];
    assert [body][..0] == [];
    assert BlockEffects([body], ReasonFor(f)) == SimpleEffects(body, ReasonFor(f));
    assert ComputeRun(ListAt(body, "compute"), ctx, Plain(fails)) == ComputeEffects(ListAt(body, "compute"), ctx, Plain(fails));
  }

  /** Lists with one entry, written out. */
  lemma SingleLists(fails: bool)
    ensures Flags([("k", JNull)]) == [Made("Flag", fails)] && Jobs([JStr("R")]) == [MakeJob("R")]
    ensures Jobs([]) == [] && forall ctx: Context :: ComputeEffects([], ctx, Plain(fails)) == []
  {
    var fields, items := [("k", JNull)], [JStr("R")];
    assert fields[..0] == [] && items[..0] == [];
    assert Flags(fields[..0]) == [] && Jobs(items[..0]) == [];
  }

  lemma FlagBlock(ctx: Context, fails: bool, f: Fact)
    ensures ThenEffects(Creating("Flag"), ctx, Plain(fails), f) == [Made("Flag", fails)]
  {
    SingleLists(fails);
    hide ThenEffects, ComputeEffects, ReasonFor, Get, ListAt, Flags, Jobs, EnqueueList, LockEffects, FlagEffects, EventEffects, Plain;
    OneEntryBlock("set_flag", JObj([("k", JNull)]), ReasonFor(f));
    BlockOf(Creating("Flag"), ctx, fails, f);
  }

  lemma EventBlock(ctx: Context, fails: bool, f: Fact)
    ensures ThenEffects(Creating("Event"), ctx, Plain(fails), f) == [Made("Event", fails)]
  {
    SingleLists(fails);
    hide ThenEffects, ComputeEffects, ReasonFor, Get, ListAt, Flags, Jobs, EnqueueList, LockEffects, FlagEffects, EventEffects, Plain;
    OneEntryBlock("emit", JStr("k"), ReasonFor(f));
    BlockOf(Creating("Event"), ctx, fails, f);
  }

  lemma ComputedBlock(ctx: Context, fails: bool, f: Fact)
    ensures ThenEffects(Creating("Computed"), ctx, Plain(fails), f) == [Made("Computed", fails)]
  {
    SingleLists(fails);
    RiskEffect(ctx, fails);
    hide ThenEffects, ComputeEffects, ReasonFor, Get, ListAt, Flags, Jobs, EnqueueList, LockEffects, FlagEffects, EventEffects, Plain;
    OneEntryBlock("compute", JArr([JStr("RiskScoring")]), ReasonFor(f));
    BlockOf(Creating("Computed"), ctx, fails, f);
  }

  lemma {:induction false} RiskEffect(ctx: Context, fails: bool)
    ensures ComputeEffects([JStr("RiskScoring")], ctx, Plain(fails)) == [Made("Computed", fails)]
  {
    var exprs := [JStr("RiskScoring")];
    assert exprs[..0] == [];
    assert Mentions("RiskScoring", "RiskScoring");
    RiskIsNotRecovery();
    hide Mentions;
  }

  lemma RiskIsNotRecovery()
    ensures !Mentions("RiskScoring", "RecoverySimulator")
  {
    ShorterDoesNotMention("RiskScoring", "RecoverySimulator");
  }

  lemma {:induction false} ShorterDoesNotMention(text: string, word: string)
    requires |text| < |word|
    ensures !Mentions(text, word)
    decreases |text|
  {
    if |text| > 0 {
      ShorterDoesNotMention(text[1..], word);
    }
  }

  lemma EnqueueBlock(ctx: Context, fails: bool, f: Fact)
    ensures ThenEffects(ENQUEUEING, ctx, Plain(fails), f) == [MakeJob("R")]
  {
    SingleLists(fails);
    hide ThenEffects, ComputeEffects, ReasonFor, Get, ListAt, Flags, Jobs, EnqueueList, LockEffects, FlagEffects, EventEffects, Plain;
    OneEntryBlock("enqueue", JArr([JStr("R")]), ReasonFor(f));
    BlockOf(ENQUEUEING, ctx, fails, f);
  }

  lemma CreatingBlock(own: string, ctx: Context, fails: bool, f: Fact)
    requires OwnType(own)
    ensures Creating(own).JObj? && Creating(own).Truthy() && ThenEffects(Creating(own), ctx, Plain(fails), f) == [Made(own, fails)]
  {
    FlagBlock(ctx, fails, f);
    EventBlock(ctx, fails, f);
    ComputedBlock(ctx, fails, f);
    hide ThenEffects, Made, Plain;
  }

  lemma RuleParts(when: string, body: Json, f: Fact, fails: bool)
    requires body.Truthy()
    ensures Matches(RuleFor(when, body), f, Plain(fails)) <==> f.ftype == when
    ensures ThenOf(RuleFor(when, body)) == body
  {
    var fields := [("when", JStr(when)), ("then", body)];
    assert fields[1..] == [("then", body)];
    LookupOne("then", body, "then");
    assert Get(RuleFor(when, body), "then") == body;
  }

  /** One effect for a fact of either type. */
  lemma {:induction false} TwoRulesEffects(x: string, own: string, y: string, ctx: Context, fails: bool, f: Fact)
    requires OwnType(own) && x != y && (f.ftype == x || f.ftype == y)
    ensures RuleEffects(TwoRules(x, own, y), ctx, Plain(fails), f) == if f.ftype == x then [Made(own, fails)] else [MakeJob("R")]
  {
    hide ThenEffects, Matches, ThenOf, Made, Creating, RuleFor, Plain;
    var first, second := RuleFor(x, Creating(own)), RuleFor(y, ENQUEUEING);
    CreatingBlock(own, ctx, fails, f);
    RuleParts(x, Creating(own), f, fails);
    RuleParts(y, ENQUEUEING, f, fails);
    EnqueueBlock(ctx, fails, f);
    assert [first][..0] == [] && [first, second][..1] == [first];
    assert RuleEffects([first], ctx, Plain(fails), f) == if f.ftype == x then [Made(own, fails)] else [];
  }

  // ---------- one type of a hook run ----------

  function TypeRun(b: Progress, ft: string, rules: seq<Json>, fails: bool): Progress {
    if b.raised then b else RunFacts(b, HERE, Query(b.t.facts, HERE, ft), rules, Plain(fails))
  }

  lemma {:induction false} HookSnoc(t: Tables, types: seq<string>, ft: string, rules: seq<Json>, fails: bool)
    ensures HookRun(t, HERE, types + [ft], rules, Plain(fails)) == TypeRun(HookRun(t, HERE, types, rules, Plain(fails)), ft, rules, fails)
  {
    assert (types + [ft])[..|types|] == types;
  }

  lemma {:induction false} NoFactNoRun(b: Progress, ft: string, rules: seq<Json>, fails: bool)
    requires Query(b.t.facts, HERE, ft) == []
    ensures TypeRun(b, ft, rules, fails) == b
  {
  }

  lemma {:induction false} NoneMatching(facts: seq<Fact>, ft: string)
    requires forall i | 0 <= i < |facts| :: facts[i].ftype != ft
    ensures Query(facts, HERE, ft) == []
    decreases |facts|
  {
    if |facts| > 0 {
      NoneMatching(facts[..|facts| - 1], ft);
    }
  }

  lemma {:induction false} OneMatching(facts: seq<Fact>, f: Fact, ft: string)
    requires forall i | 0 <= i < |facts| :: facts[i].ftype != ft
    requires f.caseId == HERE.caseId && f.snapshot == HERE.snapshot && f.ftype == ft
    ensures Query(facts + [f], HERE, ft) == [f]
  {
    NoneMatching(facts, ft);
    assert (facts + [f])[..|facts|] == facts;
    assert Matching(facts + [f], HERE, ft) == [f] + Matching(facts, HERE, ft);
  }

  lemma {:induction false} OneEffect(t: Tables, e: Effect)
    ensures PerformAll(t, HERE, Cut([e])) == if e.Raise? then t else Perform(t, HERE, e)
    ensures Raises([e]) == e.Raise?
  {
    assert [e][..0] == [] && [e][1..] == [];
    assert Cut([e]) == if e.Raise? then [] else [e];
    assert PerformAll(t, HERE, [e]) == Perform(PerformAll(t, HERE, [e][..0]), HERE, e);
  }

  /** Running one fact that has one effect. */
  lemma {:induction false} OneFactRun(b: Progress, f: Fact, ft: string, rules: seq<Json>, fails: bool, e: Effect)
    requires !b.raised && Query(b.t.facts, HERE, ft) == [f]
    requires RuleEffects(rules, ContextFromDb(b.t.facts, HERE), Plain(fails), f) == [e]
    ensures TypeRun(b, ft, rules, fails) == Progress(if e.Raise? then b.t else Perform(b.t, HERE, e), e.Raise?, b.passes + 1)
  {
    assert [f][..0] == [] && RunFacts(b, HERE, [], rules, Plain(fails)) == b;
    OneEffect(b.t, e);
    hide RuleEffects, Query, ContextFromDb, Plain, PerformAll, Cut;
  }

  /** Types without facts change nothing when they come after. */
  lemma {:induction false} OthersAddNothing(t: Tables, types: seq<string>, rest: seq<string>, rules: seq<Json>, fails: bool)
    requires forall i, k | 0 <= i < |rest| && 0 <= k < |HookRun(t, HERE, types, rules, Plain(fails)).t.facts| ::
               HookRun(t, HERE, types, rules, Plain(fails)).t.facts[k].ftype != rest[i]
    ensures HookRun(t, HERE, types + rest, rules, Plain(fails)) == HookRun(t, HERE, types, rules, Plain(fails))
    decreases |rest|
  {
    hide HookRun, RunFacts, Query, TypeRun, Plain;
    if |rest| == 0 {
      assert types + rest == types;
    } else {
      var front, ft := rest[..|rest| - 1], rest[|rest| - 1];
      OthersAddNothing(t, types, front, rules, fails);
      assert types + rest == types + front + [ft];
      HookSnoc(t, types + front, ft, rules, fails);
      NoneMatching(HookRun(t, HERE, types, rules, Plain(fails)).t.facts, ft);
      NoFactNoRun(HookRun(t, HERE, types, rules, Plain(fails)), ft, rules, fails);
    }
  }

  lemma {:induction false} TwoTypes(t: Tables, x: string, y: string, rules: seq<Json>, fails: bool)
    ensures HookRun(t, HERE, [x, y], rules, Plain(fails)) == TypeRun(TypeRun(Progress(t, false, 0), x, rules, fails), y, rules, fails)
  {
    assert HookRun(t, HERE, [], rules, Plain(fails)) == Progress(t, false, 0);
    hide HookRun, TypeRun, Plain;
    HookSnoc(t, [], x, rules, fails);
    HookSnoc(t, [x], y, rules, fails);
    assert [] + [x] == [x] && [x] + [y] == [x, y];
  }

  // ---------- a type that rules create ----------

  function PlainFact(x: string): Fact {
    Fact(1, None, x, "x", JNull, 5)
  }

  /** One fact of type `x` and nothing else. */
  function Start(x: string): Tables {
    Tables([PlainFact(x)], [], [])
  }

  function AfterX(x: string, own: string): Tables {
    Perform(Start(x), HERE, Made(own, false))
  }

  lemma FactsAfterX(x: string, own: string)
    requires OwnType(own)
    ensures |AfterX(x, own).facts| == 2 && AfterX(x, own).facts[0] == PlainFact(x) && AfterX(x, own).facts[1].ftype == own
    ensures AfterX(x, own).facts[1].caseId == 1 && AfterX(x, own).facts[1].snapshot == 5
    ensures AfterX(x, own).jobs == [] && !Made(own, false).Raise?
  {
  }

  lemma XRun(x: string, own: string)
    requires OwnType(own) && x != own
    ensures TypeRun(Progress(Start(x), false, 0), x, TwoRules(x, own, own), false) == Progress(AfterX(x, own), false, 1)
  {
    assert [] + [PlainFact(x)] == Start(x).facts;
    OneMatching([], PlainFact(x), x);
    FactsAfterX(x, own);
    hide RunFacts, Query, TwoRules, RuleEffects, PerformAll, ContextFromDb, Made, Plain, TypeRun;
    TwoRulesEffects(x, own, own, ContextFromDb(Start(x).facts, HERE), false, PlainFact(x));
    OneFactRun(Progress(Start(x), false, 0), PlainFact(x), x, TwoRules(x, own, own), false, Made(own, false));
  }

  /** After `x` has run, `own` finds the new fact and enqueues. */
  lemma OwnRun(x: string, own: string)
    requires OwnType(own) && x != own
    ensures TypeRun(Progress(AfterX(x, own), false, 1), own, TwoRules(x, own, own), false)
         == Progress(Perform(AfterX(x, own), HERE, MakeJob("R")), false, 2)
  {
    var t := AfterX(x, own);
    FactsAfterX(x, own);
    var f := t.facts[1];
    assert t.facts == [PlainFact(x)] + [f];
    OneMatching([PlainFact(x)], f, own);
    hide RunFacts, Query, TwoRules, RuleEffects, PerformAll, ContextFromDb, AfterX, Plain, TypeRun;
    TwoRulesEffects(x, own, own, ContextFromDb(t.facts, HERE), false, f);
    OneFactRun(Progress(t, false, 1), f, own, TwoRules(x, own, own), false, MakeJob("R"));
  }

  /** Whatever the other types are, with `x` first a job is created, with `own` first none. */
  lemma {:induction false} PairDisagrees(x: string, own: string, rest: seq<string>)
    requires OwnType(own) && x != own && x !in rest && own !in rest
    ensures var s, rules := Start(x), TwoRules(x, own, own);
            !SameRows(HookRun(s, HERE, [x, own] + rest, rules, Plain(false)).t, HookRun(s, HERE, [own, x] + rest, rules, Plain(false)).t)
  {
    var s, rules := Start(x), TwoRules(x, own, own);
    XRun(x, own);
    OwnRun(x, own);
    NoneMatching(s.facts, own);
    NoFactNoRun(Progress(s, false, 0), own, rules, false);
    FactsAfterX(x, own);
    TwoTypes(s, x, own, rules, false);
    TwoTypes(s, own, x, rules, false);
    hide HookRun, TypeRun, TwoRules, AfterX, SameRows, Start, Made, Query, Plain;
    var none := AfterX(x, own);
    forall i, k | 0 <= i < |rest| && 0 <= k < |none.facts| ensures none.facts[k].ftype != rest[i] {
      assert rest[i] != x && rest[i] != own && (k == 0 || k == 1);
    }
    OthersAddNothing(s, [x, own], rest, rules, false);
    OthersAddNothing(s, [own, x], rest, rules, false);
    OneJobIsNotNone(Perform(none, HERE, MakeJob("R")), none);
  }

  // ---------- a module that raises ----------

  /** One fact of each of two types. */
  function Both(x: string, y: string): Tables {
    Tables([PlainFact(x), PlainFact(y)], [], [])
  }

  lemma FindsBoth(x: string, y: string)
    requires x != y
    ensures Query(Both(x, y).facts, HERE, x) == [PlainFact(x)] && Query(Both(x, y).facts, HERE, y) == [PlainFact(y)]
  {
    var fx, fy := PlainFact(x), PlainFact(y);
    OneMatching([fx], fy, y);
    OneMatching([], fx, x);
    assert [] + [fx] == [fx] && [fx] + [fy] == Both(x, y).facts && Both(x, y).facts[..1] == [fx];
    assert Matching(Both(x, y).facts, HERE, x) == [] + Matching([fx], HERE, x);
    assert Matching([fx], HERE, x) == [fx] + Matching([fx][..0], HERE, x);
  }

  /** Any two types disagree when a module may raise: with `x` first the exception ends the
      hook before any job is created, with `y` first one is. */
  lemma {:induction false} RaisingPairDisagrees(x: string, y: string, rest: seq<string>)
    requires x != y && x !in rest && y !in rest
    ensures var s, rules := Both(x, y), TwoRules(x, "Computed", y);
            !SameRows(HookRun(s, HERE, [x, y] + rest, rules, Plain(true)).t, HookRun(s, HERE, [y, x] + rest, rules, Plain(true)).t)
  {
    var s, rules := Both(x, y), TwoRules(x, "Computed", y);
    FirstRaises(x, y);
    SecondRaises(x, y);
    hide HookRun, TypeRun, TwoRules, SameRows, Query, Plain;
    forall i, k | 0 <= i < |rest| && 0 <= k < |s.facts| ensures s.facts[k].ftype != rest[i] {
      assert rest[i] != x && rest[i] != y && (k == 0 || k == 1);
    }
    OthersAddNothing(s, [x, y], rest, rules, true);
    OthersAddNothing(s, [y, x], rest, rules, true);
    OneJobIsNotNone(Perform(s, HERE, MakeJob("R")), s);
  }

  lemma {:induction false} FirstRaises(x: string, y: string)
    requires x != y
    ensures var s, rules := Both(x, y), TwoRules(x, "Computed", y);
            HookRun(s, HERE, [x, y], rules, Plain(true)) == Progress(s, true, 1)
  {
    var s, rules, raise := Both(x, y), TwoRules(x, "Computed", y), Made("Computed", true);
    assert raise == Raise;
    FindsBoth(x, y);
    TwoTypes(s, x, y, rules, true);
    TwoRulesEffects(x, "Computed", y, ContextFromDb(s.facts, HERE), true, PlainFact(x));
    OneFactRun(Progress(s, false, 0), PlainFact(x), x, rules, true, raise);
    assert TypeRun(Progress(s, true, 1), y, rules, true) == Progress(s, true, 1);
    hide HookRun, TypeRun, TwoRules, Query, Plain, RuleEffects, ContextFromDb, Made;
  }

  lemma {:induction false} SecondRaises(x: string, y: string)
    requires x != y
    ensures var s, rules := Both(x, y), TwoRules(x, "Computed", y);
            HookRun(s, HERE, [y, x], rules, Plain(true)).t == Perform(s, HERE, MakeJob("R"))
  {
    var s, rules, raise := Both(x, y), TwoRules(x, "Computed", y), Made("Computed", true);
    assert raise == Raise;
    var one := Perform(s, HERE, MakeJob("R"));
    FindsBoth(x, y);
    TwoTypes(s, y, x, rules, true);
    TwoRulesEffects(x, "Computed", y, ContextFromDb(s.facts, HERE), true, PlainFact(x));
    TwoRulesEffects(x, "Computed", y, ContextFromDb(s.facts, HERE), true, PlainFact(y));
    OneFactRun(Progress(s, false, 0), PlainFact(y), y, rules, true, MakeJob("R"));
    OneFactRun(Progress(one, false, 1), PlainFact(x), x, rules, true, raise);
    hide HookRun, TypeRun, TwoRules, Query, Plain, RuleEffects, ContextFromDb, Made;
  }

  // ---------- the exact conditions ----------

  ghost predicate Distinct(types: seq<string>) {
    forall i, k | 0 <= i < k < |types| :: types[i] != types[k]
  }

  /** Two orders of the types create the same rows and raise alike. */
  ghost predicate Agree(a: Progress, b: Progress) {
    a.raised == b.raised && SameRows(a.t, b.t)
  }

  /** All orders of the types agree, whatever the rules, the tables, the place and the
      evaluators. */
  ghost predicate OrdersAgree(types: seq<string>) {
    forall a: seq<string>, b: seq<string>, t: Tables, at: Place, rules: seq<Json>, ev: Evaluators
      | multiset(a) == multiset(types) && multiset(b) == multiset(types) ::
        Agree(HookRun(t, at, a, rules, ev), HookRun(t, at, b, rules, ev))
  }

  /** The same for evaluators that never raise. */
  ghost predicate OrdersAgreeUnraised(types: seq<string>) {
    forall a: seq<string>, b: seq<string>, t: Tables, at: Place, rules: seq<Json>, ev: Evaluators
      | multiset(a) == multiset(types) && multiset(b) == multiset(types) && NeverRaises(ev) ::
        Agree(HookRun(t, at, a, rules, ev), HookRun(t, at, b, rules, ev))
  }

  lemma OneJobIsNotNone(one: Tables, none: Tables)
    requires |one.jobs| == 1 && none.jobs == []
    ensures !SameRows(one, none)
  {
    assert one.jobs[0] in multiset(one.jobs);
  }

  /** The list with the entries at `i` and `k` taken out. */
  lemma TakeTwo(types: seq<string>, i: nat, k: nat) returns (rest: seq<string>)
    requires Distinct(types) && i < |types| && k < |types| && i != k
    ensures multiset([types[i], types[k]] + rest) == multiset(types)
    ensures multiset([types[k], types[i]] + rest) == multiset(types)
    ensures types[i] !in rest && types[k] !in rest
  {
    if i < k { rest := Without(types, i, k); } else { rest := Without(types, k, i); }
  }

  lemma Without(types: seq<string>, lo: nat, hi: nat) returns (rest: seq<string>)
    requires Distinct(types) && lo < hi < |types|
    ensures multiset([types[lo], types[hi]] + rest) == multiset(types)
    ensures multiset([types[hi], types[lo]] + rest) == multiset(types)
    ensures types[lo] !in rest && types[hi] !in rest
  {
    var p, q, r := types[..lo], types[lo + 1..hi], types[hi + 1..];
    rest := p + q + r;
    NotAmong(types, lo, hi);
    FivePieces(types, lo, hi);
    hide Distinct;
    PickTwo(p, types[lo], q, types[hi], r);
  }

  lemma NotAmong(types: seq<string>, lo: nat, hi: nat)
    requires Distinct(types) && lo < hi < |types|
    ensures forall x | x == types[lo] || x == types[hi] :: x !in types[..lo] && x !in types[lo + 1..hi] && x !in types[hi + 1..]
  {
  }

  lemma FivePieces<T>(s: seq<T>, lo: nat, hi: nat)
    requires lo < hi < |s|
    ensures s == s[..lo] + [s[lo]] + s[lo + 1..hi] + [s[hi]] + s[hi + 1..]
  {
  }

  lemma PickTwo<T>(p: seq<T>, x: T, q: seq<T>, y: T, r: seq<T>)
    ensures multiset([x, y] + (p + q + r)) == multiset(p + [x] + q + [y] + r)
    ensures multiset([y, x] + (p + q + r)) == multiset(p + [x] + q + [y] + r)
  {
    Pick(p, x, q, y, r);
    assert multiset([y, x] + (p + q + r)) == multiset([x, y] + (p + q + r));
  }

  lemma Pick<T>(p: seq<T>, x: T, q: seq<T>, y: T, r: seq<T>)
    ensures multiset([x, y] + (p + q + r)) == multiset(p + [x] + q + [y] + r)
  {
    assert multiset(p + [x] + q + [y] + r) == multiset(p) + multiset{x} + multiset(q) + multiset{y} + multiset(r);
    assert multiset([x, y] + (p + q + r)) == multiset{x, y} + (multiset(p) + multiset(q) + multiset(r));
  }

  lemma {:induction false} WitnessAgainst(types: seq<string>, a: seq<string>, b: seq<string>, t: Tables, rules: seq<Json>, fails: bool)
    requires multiset(a) == multiset(types) && multiset(b) == multiset(types)
    requires !SameRows(HookRun(t, HERE, a, rules, Plain(fails)).t, HookRun(t, HERE, b, rules, Plain(fails)).t)
    ensures !OrdersAgree(types) && (!fails ==> !OrdersAgreeUnraised(types))
  {
    assert !fails ==> NeverRaises(Plain(fails));
    hide HookRun, SameRows, NeverRaises, Plain;
    assert !Agree(HookRun(t, HERE, a, rules, Plain(fails)), HookRun(t, HERE, b, rules, Plain(fails)));
  }

  lemma FewTypesAgree(types: seq<string>)
    requires |types| < 2
    ensures OrdersAgree(types) && OrdersAgreeUnraised(types)
  {
    forall a: seq<string>, b: seq<string>, t: Tables, at: Place, rules: seq<Json>, ev: Evaluators
      | multiset(a) == multiset(types) && multiset(b) == multiset(types)
      ensures Agree(HookRun(t, at, a, rules, ev), HookRun(t, at, b, rules, ev))
    {
      OneOrder(types, a, b);
    }
    hide HookRun, NeverRaises, Agree;
  }

  lemma AvoidingAgree(types: seq<string>)
    requires Avoids(types)
    ensures OrdersAgreeUnraised(types)
  {
    hide HookRun, NeverRaises, SameRows, Avoids;
    forall a: seq<string>, b: seq<string>, t: Tables, at: Place, rules: seq<Json>, ev: Evaluators
      | multiset(a) == multiset(types) && multiset(b) == multiset(types) && NeverRaises(ev)
      ensures Agree(HookRun(t, at, a, rules, ev), HookRun(t, at, b, rules, ev))
    {
      HookIsConfluent(t, at, types, a, rules, ev);
      HookIsConfluent(t, at, types, b, rules, ev);
      HookGoesOn(t, at, types, rules, ev);
      SameRowsChain(HookRun(t, at, a, rules, ev).t, HookRun(t, at, types, rules, ev).t, HookRun(t, at, b, rules, ev).t);
    }
  }

  lemma SameRowsChain(a: Tables, m: Tables, b: Tables)
    requires SameRows(m, a) && SameRows(m, b)
    ensures SameRows(a, b)
  {
  }

  /** With modules that never raise, the orders of a list of distinct fact types all agree
      if and only if there are fewer than two types or none of them is `Flag`, `Event` or
      `Computed`. */
  lemma ConfluentExactly(types: seq<string>)
    requires Distinct(types)
    ensures OrdersAgreeUnraised(types) <==> |types| < 2 || Avoids(types)
  {
    hide OrdersAgreeUnraised, SameRows, HookRun;
    if |types| < 2 {
      FewTypesAgree(types);
    } else if Avoids(types) {
      AvoidingAgree(types);
    } else {
      var k :| 0 <= k < |types| && OwnType(types[k]);
      var i := if k == 0 then 1 else 0;
      var x, own := types[i], types[k];
      assert x != own;
      var rest := TakeTwo(types, i, k);
      PairDisagrees(x, own, rest);
      WitnessAgainst(types, [x, own] + rest, [own, x] + rest, Start(x), TwoRules(x, own, own), false);
    }
  }

  /** With modules that may raise, they all agree if and only if there are fewer than two
      types. */
  lemma RaisingConfluentExactly(types: seq<string>)
    requires Distinct(types)
    ensures OrdersAgree(types) <==> |types| < 2
  {
    hide OrdersAgree, SameRows, HookRun;
    if |types| < 2 {
      FewTypesAgree(types);
    } else {
      var x, y := types[0], types[1];
      var rest := TakeTwo(types, 0, 1);
      RaisingPairDisagrees(x, y, rest);
      WitnessAgainst(types, [x, y] + rest, [y, x] + rest, Both(x, y), TwoRules(x, "Computed", y), true);
    }
  }

  lemma OneOrder(types: seq<string>, a: seq<string>, b: seq<string>)
    requires multiset(a) == multiset(types) && multiset(b) == multiset(types)
    ensures |types| < 2 ==> a == b
  {
    assert |a| == |multiset(a)| && |b| == |multiset(b)| && |types| == |multiset(types)|;
    if |types| == 1 {
      assert a[0] in multiset(a) && b[0] in multiset(b);
      assert types == [types[0]];
    }
  }
}
