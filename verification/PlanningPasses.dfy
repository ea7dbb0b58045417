/** Any number of planning passes whose statements interleave, each of which is an execution
    of the planning method, and all of which together are a history of the cooldown test. */
module PlanningPasses {
  import opened BotTypes
  import opened JobTable
  import opened Planner
  import Cooldown

  type PlannerId = Cooldown.PlannerId

  /** An entry that is a dict with a recipe id. */
  type KnownItem = i: Item | i.Item? && i.recipe.Some? witness Item(Some(0), ReadOnly, 0, false, 0)

  /** What a pass has still to do. */
  datatype Work =
    | Consider(item: Item)
    | CountFailures(known: KnownItem, since: int, total: nat)
    | AskPaused(known: KnownItem, interval: int)
    | Try(slot: Slot)
    | Insert(slot: Slot)

  datatype Pass = Pass(info: CaseInfo, plan: Plan, todo: seq<Work>)

  datatype State = State(jobs: seq<Row>, now: int, passes: map<PlannerId, Pass>)

  /** Time passes; processes that do not plan act; a pass begins; a pass does the first thing
      it has to do, finding these recipes paused if it asks. */
  datatype Event = Passes(to: int) | OthersStep(later: seq<Row>)
                 | Begins(q: PlannerId, info: CaseInfo, plan: Plan) | Acts(p: PlannerId, paused: set<Id>)

  function Todo(s: State, p: PlannerId): seq<Work> {
    if p in s.passes then s.passes[p].todo else []
  }

  ghost predicate Enabled(s: State, e: Event) {
    match e
    case Passes(to) => to >= s.now
    case OthersStep(later) => Cooldown.OtherRows(s.jobs, later)
    case Begins(p, _, _) => Todo(s, p) == []
    case Acts(p, _) => Todo(s, p) != []
  }

  function Considered(items: seq<Item>): seq<Work> {
    seq(|items|, i requires 0 <= i < |items| => Consider(items[i]))
  }

  function DebtorSlots(info: CaseInfo, n: nat, item: KnownItem, base: int, interval: int): seq<Work>
    requires n <= |info.debtors|
  {
    seq(n, i requires 0 <= i < n => Try(SlotOf(info, Some(info.debtors[i]), item, base, interval)))
  }

  function Slots(info: CaseInfo, item: KnownItem, base: int, interval: int): seq<Work> {
    if item.perDebtor then DebtorSlots(info, |info.debtors|, item, base, interval)
    else [Try(SlotOf(info, None, item, base, interval))]
  }

  /** What replaces the first thing to do once it is done on this table. */
  function Done(p: Pass, jobs: seq<Row>, now: int, paused: set<Id>): seq<Work>
    requires p.todo != []
  {
    var d := p.plan.adaptive;
    match p.todo[0]
    case Consider(item) =>
      if item.NotADict? || item.recipe.None? then []
      else if d.enabled then [CountFailures(item, now - d.windowSeconds, Runs(jobs, item.recipe.value, now - d.windowSeconds))]
      else [AskPaused(item, BaseOf(item, p.plan))]
    case CountFailures(item, since, total) =>
      [AskPaused(item, AdjustInterval(BaseOf(item, p.plan), total, Failures(jobs, item.recipe.value, since), d.soft, d.hard, d.minSamples))]
    case AskPaused(item, interval) =>
      if item.recipe.value in paused then [] else Slots(p.info, item, BaseOf(item, p.plan), interval)
    case Try(slot) => if RecentExists(jobs, slot, now - slot.interval) then [] else [Insert(slot)]
    case Insert(_) => []
  }

  /** Everything but looking at an entry is a database statement, and that is one if the
      interval adapts. */
  predicate IsStatement(p: Pass)
    requires p.todo != []
  {
    p.todo[0].Consider? ==> p.todo[0].item.Item? && p.todo[0].item.recipe.Some? && p.plan.adaptive.enabled
  }

  function JobsAfter(p: Pass, jobs: seq<Row>, now: int): seq<Row>
    requires p.todo != []
  {
    if p.todo[0].Insert? then jobs + [NewRow(p.todo[0].slot, now)] else jobs
  }

  function Next(s: State, e: Event): State
    requires Enabled(s, e)
  {
    match e
    case Passes(to) => s.(now := to)
    case OthersStep(later) => s.(jobs := later)
    case Begins(p, info, plan) => s.(passes := s.passes[p := Pass(info, plan, Considered(plan.items))])
    case Acts(p, paused) =>
      var x := s.passes[p];
      State(JobsAfter(x, s.jobs, s.now), s.now, s.passes[p := x.(todo := Done(x, s.jobs, s.now, paused) + x.todo[1..])])
  }

  ghost predicate StepAt(ss: seq<State>, es: seq<Event>, i: nat)
    requires i < |es| && |ss| == |es| + 1
  {
    Enabled(ss[i], es[i]) && ss[i + 1] == Next(ss[i], es[i])
  }

  ghost predicate IsRun(ss: seq<State>, es: seq<Event>) {
    && |ss| == |es| + 1 && ss[0].passes == map[] && (forall k | 0 <= k < |ss[0].jobs| :: ss[0].jobs[k].origin.Other?)
    && forall i: nat | i < |es| :: StepAt(ss, es, i)
  }

  // ---------- together they are a history of the cooldown test ----------

  predicate AtInsert(todo: seq<Work>) { todo != [] && todo[0].Insert? }

  /** The history's view of a state: planners about to insert are pending. */
  function Seen(s: State): Cooldown.State {
    Cooldown.State(s.jobs, map p | p in s.passes && AtInsert(s.passes[p].todo) :: s.passes[p].todo[0].slot, s.now)
  }

  /** A pass inserts only after its test, and every interval covers its base. */
  predicate WorkFits(w: Work, plan: Plan) {
    match w
    case AskPaused(item, interval) => BaseOf(item, plan) >= 0 ==> BaseOf(item, plan) <= interval
    case Try(slot) => Cooldown.Fits(slot)
    case Insert(slot) => Cooldown.Fits(slot)
    case _ => true
  }

  predicate PassFits(p: Pass) {
    forall i | 0 <= i < |p.todo| :: WorkFits(p.todo[i], p.plan) && (p.todo[i].Insert? ==> i == 0)
  }

  ghost predicate AllFit(s: State) {
    forall p | p in s.passes :: PassFits(s.passes[p])
  }

  lemma DoneFits(p: Pass, jobs: seq<Row>, now: int, paused: set<Id>)
    requires p.todo != [] && PassFits(p)
    ensures PassFits(p.(todo := Done(p, jobs, now, paused) + p.todo[1..]))
  {
    assert WorkFits(p.todo[0], p.plan);
    if p.todo[0].CountFailures? {
      var d, item := p.plan.adaptive, p.todo[0].known;
      AdjustBounds(BaseOf(item, p.plan), p.todo[0].total, Failures(jobs, item.recipe.value, p.todo[0].since), d.soft, d.hard, d.minSamples);
    }
    hide RecentExists, Runs, Failures, AdjustInterval;
    assert forall i | 1 <= i < |p.todo| :: WorkFits(p.todo[i], p.plan) && !p.todo[i].Insert?;
  }

  lemma FitStep(s: State, e: Event)
    requires AllFit(s) && Enabled(s, e)
    ensures AllFit(Next(s, e))
  {
    if e.Acts? {
      DoneFits(s.passes[e.p], s.jobs, s.now, e.paused);
    }
    hide Done;
  }

  lemma HistoryStep(o: Cooldown.State, s: State, e: Event)
    requires Cooldown.Reaches(o, Seen(s)) && AllFit(s) && Enabled(s, e)
    ensures Cooldown.Reaches(o, Seen(Next(s, e)))
  {
    match e
    case Passes(to) => var x := Cooldown.Go(o, Seen(s), Cooldown.Passes(to));
    case OthersStep(later) => var x := Cooldown.Go(o, Seen(s), Cooldown.OthersStep(later));
    case Begins(_, _, _) => assert Seen(Next(s, e)) == Seen(s);
    case Acts(_, _) => ActStep(o, s, e);
    hide Cooldown.Reaches;
  }

  lemma ActStep(o: Cooldown.State, s: State, e: Event)
    requires Cooldown.Reaches(o, Seen(s)) && AllFit(s) && Enabled(s, e) && e.Acts?
    ensures Cooldown.Reaches(o, Seen(Next(s, e)))
  {
    var t, p := Next(s, e), e.p;
    assert PassFits(s.passes[p]);
    SeenAct(s, e);
    hide Cooldown.Reaches;
    if s.passes[p].todo[0].Insert? {
      var x := Cooldown.Go(o, Seen(s), Cooldown.Creates(p));
    } else if AtInsert(Todo(t, p)) {
      var x := Cooldown.Go(o, Seen(s), Cooldown.Tests(p, Todo(t, p)[0].slot));
    }
  }

  /** How the history sees a statement. */
  lemma SeenAct(s: State, e: Event)
    requires AllFit(s) && Enabled(s, e) && e.Acts?
    ensures var x, t := Seen(s), Seen(Next(s, e));
            t == if s.passes[e.p].todo[0].Insert? then Cooldown.State(JobsAfter(s.passes[e.p], s.jobs, s.now), x.pending - {e.p}, s.now)
                 else if AtInsert(Todo(Next(s, e), e.p)) then x.(pending := x.pending[e.p := Todo(Next(s, e), e.p)[0].slot]) else x
  {
    assert PassFits(s.passes[e.p]);
    DoneFits(s.passes[e.p], s.jobs, s.now, e.paused);
  }

  /** However many passes interleave, the tables they and the other processes leave are
      points of one history: what holds over histories holds of them. */
  lemma {:induction false} RunsAreHistories(ss: seq<State>, es: seq<Event>, k: nat)
    requires IsRun(ss, es) && k <= |es|
    ensures Cooldown.Reaches(Seen(ss[0]), Seen(ss[k])) && AllFit(ss[k])
  {
    if k == 0 {
      assert Cooldown.IsHistory([Seen(ss[0])], []);
    } else {
      RunsAreHistories(ss, es, k - 1);
      assert StepAt(ss, es, k - 1);
      FitStep(ss[k - 1], es[k - 1]);
      HistoryStep(Seen(ss[0]), ss[k - 1], es[k - 1]);
    }
  }

  // ---------- each of them is an execution of the method ----------

  /** What the method still does, in terms of its own functions. */
  function Perform(x: Work, info: CaseInfo, plan: Plan, s: Db, w: World): Db {
    match x
    case Consider(item) => PlanItem(s, info, item, plan, w)
    case CountFailures(item, since, total) =>
      var b := Look(s, w);
      var d := plan.adaptive;
      PlanSlots(info, item, plan, AdjustInterval(BaseOf(item, plan), total, Failures(b.jobs, item.recipe.value, since), d.soft, d.hard, d.minSamples), b, w)
    case AskPaused(item, interval) => PlanSlots(info, item, plan, interval, s, w)
    case Try(slot) => TrySlot(s, slot, w)
    case Insert(slot) => var b := Look(s, w); b.(jobs := b.jobs + [NewRow(slot, w.clock(s.step))])
  }

  function PlanSlots(info: CaseInfo, item: KnownItem, plan: Plan, interval: int, s: Db, w: World): Db {
    var b := Look(s, w);
    if item.recipe.value in w.paused(s.step) then b
    else if item.perDebtor then TryDebtors(b, info, |info.debtors|, item, BaseOf(item, plan), interval, w)
    else TrySlot(b, SlotOf(info, None, item, BaseOf(item, plan), interval), w)
  }

  function PerformAll(todo: seq<Work>, info: CaseInfo, plan: Plan, s: Db, w: World): Db
    decreases |todo|
  {
    if todo == [] then s else PerformAll(todo[1..], info, plan, Perform(todo[0], info, plan, s, w), w)
  }

  lemma {:induction false} PerformConcat(a: seq<Work>, b: seq<Work>, info: CaseInfo, plan: Plan, s: Db, w: World)
    ensures PerformAll(a + b, info, plan, s, w) == PerformAll(b, info, plan, PerformAll(a, info, plan, s, w), w)
    decreases |a|
  {
    if a == [] {
      assert a + b == b;
    } else {
      assert (a + b)[1..] == a[1..] + b;
      PerformConcat(a[1..], b, info, plan, Perform(a[0], info, plan, s, w), w);
    }
  }

  lemma {:induction false} PerformOne(x: Work, info: CaseInfo, plan: Plan, s: Db, w: World)
    ensures PerformAll([x], info, plan, s, w) == Perform(x, info, plan, s, w)
  {
    assert [x][1..] == [];
  }

  lemma {:induction false} PerformDebtors(info: CaseInfo, n: nat, item: KnownItem, base: int, interval: int, plan: Plan, s: Db, w: World)
    requires n <= |info.debtors|
    ensures PerformAll(DebtorSlots(info, n, item, base, interval), info, plan, s, w) == TryDebtors(s, info, n, item, base, interval, w)
  {
    hide TrySlot;
    if n > 0 {
      PerformDebtors(info, n - 1, item, base, interval, plan, s, w);
      var last := Try(SlotOf(info, Some(info.debtors[n - 1]), item, base, interval));
      assert DebtorSlots(info, n, item, base, interval) == DebtorSlots(info, n - 1, item, base, interval) + [last];
      PerformConcat(DebtorSlots(info, n - 1, item, base, interval), [last], info, plan, s, w);
      PerformOne(last, info, plan, TryDebtors(s, info, n - 1, item, base, interval, w), w);
    }
  }

  lemma {:induction false} PerformItems(info: CaseInfo, n: nat, plan: Plan, s: Db, w: World)
    requires n <= |plan.items|
    ensures PerformAll(Considered(plan.items[..n]), info, plan, s, w) == PlanItems(s, info, n, plan, w)
  {
    hide PlanItem;
    if n > 0 {
      PerformItems(info, n - 1, plan, s, w);
      var last := Consider(plan.items[n - 1]);
      assert Considered(plan.items[..n]) == Considered(plan.items[..n - 1]) + [last];
      PerformConcat(Considered(plan.items[..n - 1]), [last], info, plan, s, w);
      PerformOne(last, info, plan, PlanItems(s, info, n - 1, plan, w), w);
    }
  }

  /** Doing the first thing does not change what the whole comes to. */
  lemma {:induction false} DoneKeeps(p: Pass, s: Db, paused: set<Id>, w: World)
    requires p.todo != [] && (p.todo[0].AskPaused? ==> paused == w.paused(s.step))
    ensures var a := Look(s, w);
            PerformAll(p.todo, p.info, p.plan, s, w)
            == PerformAll(Done(p, a.jobs, w.clock(s.step), paused) + p.todo[1..], p.info, p.plan,
                          if IsStatement(p) then a.(jobs := JobsAfter(p, a.jobs, w.clock(s.step))) else s, w)
  {
    var a := Look(s, w);
    var done := Done(p, a.jobs, w.clock(s.step), paused);
    var s' := if IsStatement(p) then a.(jobs := JobsAfter(p, a.jobs, w.clock(s.step))) else s;
    PerformConcat(done, p.todo[1..], p.info, p.plan, s', w);
    DonePerforms(p, s, paused, w);
  }

  /** The first thing to do is what it is replaced by, after its own statement. */
  ghost predicate Replaces(p: Pass, s: Db, paused: set<Id>, w: World)
    requires p.todo != []
  {
    var a := Look(s, w);
    Perform(p.todo[0], p.info, p.plan, s, w)
    == PerformAll(Done(p, a.jobs, w.clock(s.step), paused), p.info, p.plan,
                  if IsStatement(p) then a.(jobs := JobsAfter(p, a.jobs, w.clock(s.step))) else s, w)
  }

  lemma DonePerforms(p: Pass, s: Db, paused: set<Id>, w: World)
    requires p.todo != [] && (p.todo[0].AskPaused? ==> paused == w.paused(s.step))
    ensures Replaces(p, s, paused, w)
  {
    match p.todo[0]
    case Consider(_) => ConsiderDone(p, s, paused, w);
    case CountFailures(_, _, _) => CountDone(p, s, paused, w);
    case AskPaused(_, _) => PauseDone(p, s, paused, w);
    case Try(_) => TryDone(p, s, paused, w);
    case Insert(_) => TryDone(p, s, paused, w);
  }

  lemma ConsiderDone(p: Pass, s: Db, paused: set<Id>, w: World)
    requires p.todo != [] && p.todo[0].Consider?
    ensures Replaces(p, s, paused, w)
  {
    var a := Look(s, w);
    var done := Done(p, a.jobs, w.clock(s.step), paused);
    if done != [] {
      PerformOne(done[0], p.info, p.plan, if IsStatement(p) then a else s, w);
      assert done == [done[0]];
    }
    hide Runs, Failures, AdjustInterval, TryDebtors, TrySlot, PerformAll;
  }

  lemma CountDone(p: Pass, s: Db, paused: set<Id>, w: World)
    requires p.todo != [] && p.todo[0].CountFailures?
    ensures Replaces(p, s, paused, w)
  {
    var a := Look(s, w);
    var done := Done(p, a.jobs, w.clock(s.step), paused);
    PerformOne(done[0], p.info, p.plan, a, w);
    assert done == [done[0]];
    hide Failures, AdjustInterval, PlanSlots, PerformAll;
  }

  lemma PauseDone(p: Pass, s: Db, paused: set<Id>, w: World)
    requires p.todo != [] && p.todo[0].AskPaused? && paused == w.paused(s.step)
    ensures Replaces(p, s, paused, w)
  {
    var a := Look(s, w);
    var item, interval := p.todo[0].known, p.todo[0].interval;
    if item.recipe.value !in paused {
      if item.perDebtor {
        PerformDebtors(p.info, |p.info.debtors|, item, BaseOf(item, p.plan), interval, p.plan, a, w);
      } else {
        PerformOne(Try(SlotOf(p.info, None, item, BaseOf(item, p.plan), interval)), p.info, p.plan, a, w);
      }
      hide TryDebtors, TrySlot, PerformAll, DebtorSlots;
    }
  }

  lemma TryDone(p: Pass, s: Db, paused: set<Id>, w: World)
    requires p.todo != [] && (p.todo[0].Try? || p.todo[0].Insert?)
    ensures Replaces(p, s, paused, w)
  {
    var a := Look(s, w);
    var done := Done(p, a.jobs, w.clock(s.step), paused);
    if done != [] {
      PerformOne(done[0], p.info, p.plan, a, w);
      assert done == [done[0]];
    }
    hide RecentExists;
  }

  /** The table after the last statement of the pass that began at `b`, and the number of
      its statements, when `k` events have happened. */
  function Progress(ss: seq<State>, es: seq<Event>, p: PlannerId, b: nat, k: nat): Db
    requires |ss| == |es| + 1 && b <= k <= |es|
  {
    if k == b then Db(ss[b].jobs, 0)
    else
      var d := Progress(ss, es, p, b, k - 1);
      if StatementOf(ss, es, p, k - 1) then Db(ss[k].jobs, d.step + 1) else d
  }

  predicate StatementOf(ss: seq<State>, es: seq<Event>, p: PlannerId, k: nat)
    requires |ss| == |es| + 1 && k < |es|
  {
    es[k].Acts? && es[k].p == p && p in ss[k].passes && ss[k].passes[p].todo != [] && IsStatement(ss[k].passes[p])
  }

  /** The world shows the `n`-th statement of the pass what it found in the run. */
  ghost predicate Shows(w: World, n: nat, s: State, paused: set<Id>) {
    (forall jobs :: w.others(n, jobs) == s.jobs) && w.clock(n) == s.now && w.paused(n) == paused
  }

  ghost predicate ShowsAll(w: World, ss: seq<State>, es: seq<Event>, p: PlannerId, b: nat, n: nat)
    requires |ss| == |es| + 1 && b <= n <= |es|
  {
    forall k: nat | b <= k < n && StatementOf(ss, es, p, k) :: Shows(w, Progress(ss, es, p, b, k).step, ss[k], es[k].paused)
  }

  lemma {:induction false} StepsGrow(ss: seq<State>, es: seq<Event>, p: PlannerId, b: nat, k: nat, n: nat)
    requires |ss| == |es| + 1 && b <= k < n <= |es| && StatementOf(ss, es, p, k)
    ensures Progress(ss, es, p, b, k).step < Progress(ss, es, p, b, n).step
  {
    if k < n - 1 {
      StepsGrow(ss, es, p, b, k, n - 1);
    }
  }

  /** Such a world exists. */
  lemma {:induction false} Observed(ss: seq<State>, es: seq<Event>, p: PlannerId, b: nat, n: nat) returns (w: World)
    requires |ss| == |es| + 1 && b <= n <= |es|
    ensures ShowsAll(w, ss, es, p, b, n)
  {
    if n == b {
      w := World((m: nat, jobs: seq<Row>) => jobs, (m: nat) => 0, (m: nat) => {});
    } else {
      w := Observed(ss, es, p, b, n - 1);
      if StatementOf(ss, es, p, n - 1) {
        var m, s, paused, v := Progress(ss, es, p, b, n - 1).step, ss[n - 1], es[n - 1].paused, w;
        w := World((i: nat, jobs: seq<Row>) => if i == m then s.jobs else v.others(i, jobs),
                   (i: nat) => if i == m then s.now else v.clock(i), (i: nat) => if i == m then paused else v.paused(i));
        forall k: nat | b <= k < n && StatementOf(ss, es, p, k) ensures Shows(w, Progress(ss, es, p, b, k).step, ss[k], es[k].paused) {
          if k < n - 1 {
            StepsGrow(ss, es, p, b, k, n - 1);
            assert Shows(v, Progress(ss, es, p, b, k).step, ss[k], es[k].paused);
          }
        }
      }
    }
  }

  /** Event `b` begins a pass of planner `p`, which begins no other before `n`. */
  ghost predicate PassFrom(ss: seq<State>, es: seq<Event>, p: PlannerId, info: CaseInfo, plan: Plan, b: nat, n: nat) {
    && IsRun(ss, es) && b < n <= |es| && es[b] == Begins(p, info, plan)
    && forall k | b < k < n :: !(es[k].Begins? && es[k].q == p)
  }

  /** What the method comes to is what it comes to from this point of the pass. */
  ghost predicate ComesTo(ss: seq<State>, es: seq<Event>, p: PlannerId, info: CaseInfo, plan: Plan, b: nat, n: nat, w: World)
    requires |ss| == |es| + 1 && b <= n <= |es|
  {
    && p in ss[n].passes && ss[n].passes[p].info == info && ss[n].passes[p].plan == plan
    && PlanCase(Db(ss[b].jobs, 0), info, plan, w) == PerformAll(ss[n].passes[p].todo, info, plan, Progress(ss, es, p, b, n), w)
  }

  lemma {:induction false} PassContinues(ss: seq<State>, es: seq<Event>, p: PlannerId, info: CaseInfo, plan: Plan, b: nat, n: nat, w: World)
    requires PassFrom(ss, es, p, info, plan, b, n) && ShowsAll(w, ss, es, p, b, n)
    ensures ComesTo(ss, es, p, info, plan, b, n, w)
  {
    assert StepAt(ss, es, n - 1);
    if n == b + 1 {
      PerformItems(info, |plan.items|, plan, Db(ss[b].jobs, 0), w);
      assert Progress(ss, es, p, b, b) == Progress(ss, es, p, b, n) == Db(ss[b].jobs, 0);
      assert plan.items[..|plan.items|] == plan.items;
    } else {
      PassContinues(ss, es, p, info, plan, b, n - 1, w);
      hide ComesTo;
      PassMoves(ss, es, p, info, plan, b, n - 1, w);
    }
  }

  lemma PassMoves(ss: seq<State>, es: seq<Event>, p: PlannerId, info: CaseInfo, plan: Plan, b: nat, n: nat, w: World)
    requires |ss| == |es| + 1 && b <= n < |es| && StepAt(ss, es, n) && !(es[n].Begins? && es[n].q == p)
    requires ComesTo(ss, es, p, info, plan, b, n, w) && ShowsAll(w, ss, es, p, b, n + 1)
    ensures ComesTo(ss, es, p, info, plan, b, n + 1, w)
  {
    var s, e, d := ss[n], es[n], Progress(ss, es, p, b, n);
    PassKept(s, e, p);
    if e.Acts? && e.p == p {
      ActKeeps(s, e, d, w);
    }
    hide PlanCase, PerformAll, Next, Done, Considered;
  }

  lemma PassKept(s: State, e: Event, p: PlannerId)
    requires Enabled(s, e) && p in s.passes && !(e.Begins? && e.q == p)
    ensures p in Next(s, e).passes && Next(s, e).passes[p].info == s.passes[p].info && Next(s, e).passes[p].plan == s.passes[p].plan
    ensures !(e.Acts? && e.p == p) ==> Next(s, e).passes[p] == s.passes[p]
  {
  }

  lemma {:induction false} ActKeeps(s: State, e: Event, d: Db, w: World)
    requires e.Acts? && Enabled(s, e) && (IsStatement(s.passes[e.p]) ==> Shows(w, d.step, s, e.paused))
    ensures var p, t := s.passes[e.p], Next(s, e);
            PerformAll(p.todo, p.info, p.plan, d, w)
            == PerformAll(t.passes[e.p].todo, p.info, p.plan, if IsStatement(p) then Db(t.jobs, d.step + 1) else d, w)
  {
    var p := s.passes[e.p];
    DoneKeeps(p, d, e.paused, w);
    if !IsStatement(p) {
      assert Done(p, s.jobs, s.now, e.paused) == Done(p, Look(d, w).jobs, w.clock(d.step), e.paused);
    }
    hide PerformAll, Done;
  }

  /** However its statements interleave with those of other passes and processes, a pass that
      has come to its end is an execution of the planning method: in the world made of the
      tables, times and pauses its statements found, the method ends with the table the last
      of them left, after as many statements. */
  lemma {:induction false} PassIsTheMethod(ss: seq<State>, es: seq<Event>, p: PlannerId, info: CaseInfo, plan: Plan, b: nat, n: nat)
    returns (w: World)
    requires PassFrom(ss, es, p, info, plan, b, n) && Todo(ss[n], p) == []
    ensures ShowsAll(w, ss, es, p, b, n)
    ensures PlanCase(Db(ss[b].jobs, 0), info, plan, w) == Progress(ss, es, p, b, n)
  {
    w := Observed(ss, es, p, b, n);
    PassContinues(ss, es, p, info, plan, b, n, w);
  }
}
