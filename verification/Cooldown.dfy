/** The spacing the cooldown test guarantees over whole histories: any number of planners
    whose tests and insertions interleave, among everything else that happens to the table. */
module Cooldown {
  import opened BotTypes
  import opened JobTable
  import opened Planner

  type PlannerId = nat

  /** `pending` holds the planners between a test that found nothing and their insertion. */
  datatype State = State(jobs: seq<Row>, pending: map<PlannerId, Slot>, now: int)

  datatype Event = Passes(to: int) | Tests(p: PlannerId, slot: Slot) | Creates(q: PlannerId) | OthersStep(later: seq<Row>)

  /** The other processes change statuses and priorities and add rows of their own. */
  ghost predicate OtherRows(jobs: seq<Row>, later: seq<Row>) {
    Kept(jobs, later) && forall k | |jobs| <= k < |later| :: later[k].origin.Other?
  }

  predicate Fits(slot: Slot) {
    slot.base >= 0 ==> slot.base <= slot.interval
  }

  ghost predicate Enabled(s: State, e: Event) {
    match e
    case Passes(to) => to >= s.now
    case Tests(p, slot) => p !in s.pending && Fits(slot) && !RecentExists(s.jobs, slot, s.now - slot.interval)
    case Creates(p) => p in s.pending
    case OthersStep(later) => OtherRows(s.jobs, later)
  }

  ghost function Next(s: State, e: Event): State
    requires Enabled(s, e)
  {
    match e
    case Passes(to) => s.(now := to)
    case Tests(p, slot) => s.(pending := s.pending[p := slot])
    case Creates(p) => State(s.jobs + [NewRow(s.pending[p], s.now)], s.pending - {p}, s.now)
    case OthersStep(later) => s.(jobs := later)
  }

  ghost predicate StepAt(ss: seq<State>, es: seq<Event>, i: nat)
    requires i < |es| && |ss| == |es| + 1
  {
    Enabled(ss[i], es[i]) && ss[i + 1] == Next(ss[i], es[i])
  }

  ghost predicate Starts(s: State) {
    s.pending == map[] && forall k | 0 <= k < |s.jobs| :: s.jobs[k].origin.Other?
  }

  ghost predicate IsHistory(ss: seq<State>, es: seq<Event>) {
    |ss| == |es| + 1 && Starts(ss[0]) && forall i: nat | i < |es| :: StepAt(ss, es, i)
  }

  // ---------- what a history keeps ----------

  lemma KeptTwice(a: seq<Row>, b: seq<Row>, c: seq<Row>)
    requires Kept(a, b) && Kept(b, c)
    ensures Kept(a, c)
  {
    forall k | 0 <= k < |a| ensures c[k] == a[k].(status := c[k].status, priority := c[k].priority) {
      assert b[k] == a[k].(status := b[k].status, priority := b[k].priority);
    }
  }

  lemma {:induction false} HistoryKeeps(ss: seq<State>, es: seq<Event>, m: nat, n: nat)
    requires IsHistory(ss, es) && m <= n <= |es|
    ensures Kept(ss[m].jobs, ss[n].jobs) && ss[m].now <= ss[n].now
    decreases n
  {
    if m < n {
      HistoryKeeps(ss, es, m, n - 1);
      assert StepAt(ss, es, n - 1);
      assert Kept(ss[n - 1].jobs, ss[n].jobs);
      KeptTwice(ss[m].jobs, ss[n - 1].jobs, ss[n].jobs);
    }
  }

  predicate ActsFor(e: Event, p: PlannerId) {
    (e.Tests? && e.p == p) || (e.Creates? && e.q == p)
  }

  /** Event `m` is the test that left planner `p` pending at `n`. */
  ghost predicate TestedAt(ss: seq<State>, es: seq<Event>, m: nat, n: nat, p: PlannerId)
    requires |ss| == |es| + 1
  {
    && m < n <= |es| && p in ss[n].pending && es[m] == Tests(p, ss[n].pending[p])
    && forall x | m < x < n :: !ActsFor(es[x], p)
  }

  lemma {:induction false} PendingWasTested(ss: seq<State>, es: seq<Event>, n: nat, p: PlannerId) returns (m: nat)
    requires IsHistory(ss, es) && n <= |es| && p in ss[n].pending
    ensures TestedAt(ss, es, m, n, p)
  {
    assert n > 0;
    assert StepAt(ss, es, n - 1);
    if es[n - 1] == Tests(p, ss[n].pending[p]) {
      m := n - 1;
    } else {
      m := PendingWasTested(ss, es, n - 1, p);
    }
  }

  /** Event `c` inserted row `k`, after event `m` had tested for it. */
  ghost predicate CreatedBy(ss: seq<State>, es: seq<Event>, m: nat, c: nat, k: nat)
    requires |ss| == |es| + 1
  {
    c < |es| && es[c].Creates? && |ss[c].jobs| == k && TestedAt(ss, es, m, c, es[c].q)
  }

  lemma {:induction false} PlannedWasCreated(ss: seq<State>, es: seq<Event>, n: nat, k: nat) returns (c: nat)
    requires IsHistory(ss, es) && n <= |es| && k < |ss[n].jobs| && ss[n].jobs[k].origin.Planned?
    ensures c < n && es[c].Creates? && |ss[c].jobs| == k && es[c].q in ss[c].pending
    ensures ss[c + 1].jobs == ss[c].jobs + [NewRow(ss[c].pending[es[c].q], ss[c].now)]
  {
    assert n > 0;
    assert StepAt(ss, es, n - 1);
    if k < |ss[n - 1].jobs| {
      c := PlannedWasCreated(ss, es, n - 1, k);
    } else {
      c := n - 1;
    }
  }

  // ---------- spacing ----------

  /** Same case and recipe, and same debtor if the later row was planned per debtor. */
  predicate Competes(r: Row, later: Row) {
    later.origin.Planned? && r.caseId == later.caseId && r.recipe == later.recipe
    && (later.origin.perDebtor ==> r.debtor == later.debtor)
  }

  predicate WithinBase(r: Row, later: Row) {
    later.origin.Planned? && 0 <= later.created - r.created <= later.origin.base
  }

  predicate FailedIn(jobs: seq<Row>, i: nat) {
    i < |jobs| && jobs[i].status.Failed?
  }

  /** Cooldown over whole histories. Take two competing rows created at most the later
      one's base interval apart, and the test `m` and insertion `c` of the later one: the
      earlier one was FAILED in the table that test saw, exactly when it was in that table
      at all. In particular it was FAILED whenever no row was added between test and
      insertion. */
  lemma CooldownHolds(ss: seq<State>, es: seq<Event>, n: nat, i: nat, k: nat) returns (m: nat, c: nat)
    requires IsHistory(ss, es) && n <= |es| && i < k < |ss[n].jobs|
    requires Competes(ss[n].jobs[i], ss[n].jobs[k]) && WithinBase(ss[n].jobs[i], ss[n].jobs[k])
    ensures CreatedBy(ss, es, m, c, k) && c < n
    ensures FailedIn(ss[m].jobs, i) <==> i < |ss[m].jobs|
    ensures |ss[m].jobs| == k ==> FailedIn(ss[m].jobs, i)
  {
    c := PlannedWasCreated(ss, es, n, k);
    m := PendingWasTested(ss, es, c, es[c].q);
    HistoryKeeps(ss, es, c + 1, n);
    HistoryKeeps(ss, es, m, n);
    HistoryKeeps(ss, es, m, c);
    assert StepAt(ss, es, m);
    TestSawNothing(ss[m], es[m].slot, ss[n].jobs, i, k, ss[c].now);
  }

  lemma TestSawNothing(s: State, slot: Slot, later: seq<Row>, i: nat, k: nat, now: int)
    requires Fits(slot) && !RecentExists(s.jobs, slot, s.now - slot.interval) && s.now <= now
    requires Kept(s.jobs, later) && i < k < |later| && Competes(later[i], later[k]) && WithinBase(later[i], later[k])
    requires later[k] == NewRow(slot, now).(status := later[k].status, priority := later[k].priority)
    ensures i < |s.jobs| ==> s.jobs[i].status.Failed?
  {
    if i < |s.jobs| {
      assert later[i] == s.jobs[i].(status := later[i].status, priority := later[i].priority);
      assert !Recent(s.jobs[i], slot, s.now - slot.interval);
    }
  }

  /** Rows added in between escape the test: two planners that both test before either
      inserts create two competing QUEUED rows at the same moment. */
  lemma OverlappingPlannersCollide(slot: Slot, now: int) returns (ss: seq<State>, es: seq<Event>)
    requires Fits(slot) && slot.base >= 0
    ensures IsHistory(ss, es)
    ensures var jobs := ss[|es|].jobs;
            && |jobs| == 2 && jobs[0].status.Queued? && jobs[1].status.Queued?
            && Competes(jobs[0], jobs[1]) && WithinBase(jobs[0], jobs[1])
  {
    var row := NewRow(slot, now);
    var s0 := State([], map[], now);
    var s1 := State([], map[0 := slot], now);
    var s2 := State([], map[0 := slot, 1 := slot], now);
    var s3 := State([row], map[1 := slot], now);
    var s4 := State([row, row], map[], now);
    ss, es := [s0, s1, s2, s3, s4], [Tests(0, slot), Tests(1, slot), Creates(0), Creates(1)];
    assert StepAt(ss, es, 0) && StepAt(ss, es, 1);
    assert s2.pending - {0} == s3.pending && s3.pending - {1} == map[];
    assert StepAt(ss, es, 2) && StepAt(ss, es, 3);
  }

  // ---------- the planner's statements are such a history ----------

  ghost predicate Reaches(o: State, t: State) {
    exists ss, es :: IsHistory(ss, es) && ss[0] == o && ss[|es|] == t
  }

  lemma Go(o: State, s: State, e: Event) returns (t: State)
    requires Reaches(o, s) && Enabled(s, e)
    ensures Reaches(o, t) && t == Next(s, e)
  {
    var ss, es :| IsHistory(ss, es) && ss[0] == o && ss[|es|] == s;
    t := Next(s, e);
    var ss', es' := ss + [t], es + [e];
    forall i: nat | i < |es'| ensures StepAt(ss', es', i) {
      if i < |es| { assert StepAt(ss, es, i); }
    }
    assert IsHistory(ss', es') && ss'[0] == o && ss'[|es'|] == t;
  }

  /** A world in which nobody else plans and the clock does not go back. */
  ghost predicate OnlyOthers(w: World) {
    && (forall n: nat, jobs: seq<Row> :: OtherRows(jobs, w.others(n, jobs)))
    && forall n: nat :: w.clock(n) <= w.clock(n + 1)
  }

  /** The state a planner and the history agree on between two of the planner's statements. */
  ghost predicate Agrees(x: State, s: Db, w: World) {
    x.jobs == s.jobs && x.pending == map[] && x.now <= w.clock(s.step)
  }

  lemma LookGoes(o: State, x: State, s: Db, w: World) returns (y: State)
    requires Reaches(o, x) && x.jobs == s.jobs && x.now <= w.clock(s.step) && OnlyOthers(w)
    ensures Reaches(o, y) && y == State(Look(s, w).jobs, x.pending, w.clock(s.step)) && y.now <= w.clock(s.step + 1)
  {
    hide Reaches;
    y := Go(o, x, Passes(w.clock(s.step)));
    assert OtherRows(s.jobs, w.others(s.step, s.jobs));
    y := Go(o, y, OthersStep(Look(s, w).jobs));
  }

  lemma SlotGoes(o: State, x: State, s: Db, slot: Slot, w: World) returns (y: State)
    requires Reaches(o, x) && Agrees(x, s, w) && OnlyOthers(w) && Fits(slot)
    ensures Reaches(o, y) && Agrees(y, TrySlot(s, slot, w), w)
  {
    hide Reaches, OnlyOthers;
    y := LookGoes(o, x, s, w);
    if !RecentExists(Look(s, w).jobs, slot, w.clock(s.step) - slot.interval) {
      y := Go(o, y, Tests(0, slot));
      y := LookGoes(o, y, Look(s, w), w);
      y := Go(o, y, Creates(0));
      assert map[0 := slot] - {0} == map[];
    }
  }

  lemma {:induction false} DebtorsGo(o: State, x: State, s: Db, c: CaseInfo, n: nat, item: Item, base: int, interval: int, w: World)
    returns (y: State)
    requires Reaches(o, x) && Agrees(x, s, w) && OnlyOthers(w)
    requires item.Item? && item.recipe.Some? && n <= |c.debtors| && (base >= 0 ==> base <= interval)
    ensures Reaches(o, y) && Agrees(y, TryDebtors(s, c, n, item, base, interval, w), w)
  {
    hide Reaches, OnlyOthers, TrySlot;
    y := x;
    if n > 0 {
      y := DebtorsGo(o, x, s, c, n - 1, item, base, interval, w);
      y := SlotGoes(o, y, TryDebtors(s, c, n - 1, item, base, interval, w), SlotOf(c, Some(c.debtors[n - 1]), item, base, interval), w);
    }
  }

  lemma ItemGoes(o: State, x: State, s: Db, c: CaseInfo, item: Item, plan: Plan, w: World) returns (y: State)
    requires Reaches(o, x) && Agrees(x, s, w) && OnlyOthers(w)
    ensures Reaches(o, y) && Agrees(y, PlanItem(s, c, item, plan, w), w)
  {
    hide Reaches, OnlyOthers, TrySlot, TryDebtors;
    y := x;
    if item.Item? && item.recipe.Some? {
      IntervalCoversBase(s, item, plan, w);
      if plan.adaptive.enabled {
        y := LookGoes(o, x, s, w);
        y := LookGoes(o, y, Look(s, w), w);
      }
      var (b, interval) := Interval(s, item, plan, w);
      y := LookGoes(o, y, b, w);
      var a := Look(b, w);
      if item.recipe.value !in w.paused(b.step) {
        if item.perDebtor {
          y := DebtorsGo(o, y, a, c, |c.debtors|, item, BaseOf(item, plan), interval, w);
        } else {
          y := SlotGoes(o, y, a, SlotOf(c, None, item, BaseOf(item, plan), interval), w);
        }
      }
    }
  }

  /** Planning a case, as the method does it, is a stretch of such a history: so what holds
      over histories holds of every table the planner produces. */
  lemma {:induction false} PlanningIsAHistory(o: State, x: State, s: Db, c: CaseInfo, n: nat, plan: Plan, w: World) returns (y: State)
    requires Reaches(o, x) && Agrees(x, s, w) && OnlyOthers(w) && n <= |plan.items|
    ensures Reaches(o, y) && Agrees(y, PlanItems(s, c, n, plan, w), w)
  {
    hide Reaches, OnlyOthers, PlanItem;
    y := x;
    if n > 0 {
      y := PlanningIsAHistory(o, x, s, c, n - 1, plan, w);
      y := ItemGoes(o, y, PlanItems(s, c, n - 1, plan, w), c, plan.items[n - 1], plan, w);
    }
  }
}
