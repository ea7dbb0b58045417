/** `plan_for_case` with its cooldown test and adaptive intervals, statement by statement,
    while other processes change the table. */
module Planner {
  import opened BotTypes
  import opened JobTable
  import opened Numbers

  // ---------- adaptive intervals ----------

  function AdjustInterval(base: int, total: nat, failed: nat, soft: real, hard: real, minSamples: int): int {
    if total < minSamples then base
    else if FailRate(total, failed) >= hard then Truncate(base as real * 2.0)
    else if FailRate(total, failed) >= soft then Truncate(base as real * 1.5)
    else base
  }

  /** Adapting never shortens an interval and at most doubles it, whatever the
      thresholds; a negative base (which the plan does not forbid) stays negative. */
  lemma AdjustBounds(base: int, total: nat, failed: nat, soft: real, hard: real, minSamples: int)
    ensures var r := AdjustInterval(base, total, failed, soft, hard, minSamples);
            if base >= 0 then base <= r <= 2 * base else 2 * base <= r <= base
  {
    var b := base as real;
    assert (b * 2.0) == (2 * base) as real;
  }

  // ---------- the planner ----------

  datatype Adaptive = Adaptive(enabled: bool, windowSeconds: int, minSamples: int, soft: real, hard: real)

  /** A plan entry; `interval` 0 stands for a missing one (the cooldown is used). */
  datatype Item = NotADict | Item(recipe: Option<Id>, risk: RiskLevel, interval: int, perDebtor: bool, priority: int)

  datatype Plan = Plan(items: seq<Item>, cooldown: int, adaptive: Adaptive)

  datatype CaseInfo = CaseInfo(id: Id, debtors: seq<Id>)

  /** One cooldown test and the row it would create. */
  datatype Slot = Slot(caseId: Id, debtor: Option<Id>, recipe: Id, risk: RiskLevel, priority: int, base: int, interval: int)

  predicate Recent(r: Row, slot: Slot, since: int) {
    r.caseId == slot.caseId && r.recipe == slot.recipe && r.created >= since && !r.status.Failed?
    && (slot.debtor.Some? ==> r.debtor == slot.debtor)
  }

  predicate RecentExists(jobs: seq<Row>, slot: Slot, since: int) {
    exists k :: 0 <= k < |jobs| && Recent(jobs[k], slot, since)
  }

  function NewRow(slot: Slot, now: int): Row {
    Row(slot.caseId, slot.debtor, slot.recipe, slot.risk, slot.priority, Queued, now, Planned(slot.base, slot.debtor.Some?))
  }

  function SlotOf(c: CaseInfo, debtor: Option<Id>, item: Item, base: int, interval: int): Slot
    requires item.Item? && item.recipe.Some?
  {
    Slot(c.id, debtor, item.recipe.value, item.risk, item.priority, base, interval)
  }

  function BaseOf(item: Item, plan: Plan): int
    requires item.Item?
  {
    if item.interval != 0 then item.interval else plan.cooldown
  }

  predicate InWindow(r: Row, recipe: Id, since: int) {
    r.created >= since && r.recipe == recipe
  }

  function Runs(jobs: seq<Row>, recipe: Id, since: int): nat {
    Count(jobs, (r: Row) => InWindow(r, recipe, since))
  }

  function Failures(jobs: seq<Row>, recipe: Id, since: int): nat {
    Count(jobs, (r: Row) => InWindow(r, recipe, since) && r.status.Failed?)
  }

  /** The two statistics queries, which may see different tables. */
  function Interval(s: Db, item: Item, plan: Plan, w: World): (Db, int)
    requires item.Item? && item.recipe.Some?
  {
    var d := plan.adaptive;
    if !d.enabled then (s, BaseOf(item, plan))
    else
      var a := Look(s, w);
      var b := Look(a, w);
      var since := w.clock(s.step) - d.windowSeconds;
      (b, AdjustInterval(BaseOf(item, plan),
                         Runs(a.jobs, item.recipe.value, since), Failures(b.jobs, item.recipe.value, since),
                         d.soft, d.hard, d.minSamples))
  }

  /** The cooldown test and, if it finds nothing recent, the insertion: two statements. */
  function TrySlot(s: Db, slot: Slot, w: World): Db {
    var a := Look(s, w);
    if RecentExists(a.jobs, slot, w.clock(s.step) - slot.interval) then a
    else
      var b := Look(a, w);
      b.(jobs := b.jobs + [NewRow(slot, w.clock(a.step))])
  }

  function TryDebtors(s: Db, c: CaseInfo, n: nat, item: Item, base: int, interval: int, w: World): Db
    requires item.Item? && item.recipe.Some? && n <= |c.debtors|
  {
    if n == 0 then s
    else TrySlot(TryDebtors(s, c, n - 1, item, base, interval, w), SlotOf(c, Some(c.debtors[n - 1]), item, base, interval), w)
  }

  /** The intervals' queries, the query for a pause, and the slots to try. */
  function PlanItem(s: Db, c: CaseInfo, item: Item, plan: Plan, w: World): Db {
    if item.NotADict? || item.recipe.None? then s
    else
      var (a, interval) := Interval(s, item, plan, w);
      var b := Look(a, w);
      if item.recipe.value in w.paused(a.step) then b
      else if item.perDebtor then TryDebtors(b, c, |c.debtors|, item, BaseOf(item, plan), interval, w)
      else TrySlot(b, SlotOf(c, None, item, BaseOf(item, plan), interval), w)
  }

  function PlanItems(s: Db, c: CaseInfo, n: nat, plan: Plan, w: World): Db
    requires n <= |plan.items|
  {
    if n == 0 then s else PlanItem(PlanItems(s, c, n - 1, plan, w), c, plan.items[n - 1], plan, w)
  }

  function PlanCase(s: Db, c: CaseInfo, plan: Plan, w: World): Db {
    PlanItems(s, c, |plan.items|, plan, w)
  }

  class PlanningDb {
    var jobs: seq<Row>
    var step: nat

    function S(): Db
      reads this
    {
      Db(jobs, step)
    }

    /** Whatever other processes do before the next statement. */
    method OthersAct(w: World)
      modifies this
      ensures S() == Look(old(S()), w)
    {
      jobs, step := w.others(step, jobs), step + 1;
    }

    method FindRecent(slot: Slot, since: int) returns (recent: bool)
      ensures recent == RecentExists(jobs, slot, since)
    {
      recent := false;
      var k := 0;
      while k < |jobs|
        invariant 0 <= k <= |jobs|
        invariant recent <==> exists i :: 0 <= i < k && Recent(jobs[i], slot, since)
      {
        recent := recent || Recent(jobs[k], slot, since);
        k := k + 1;
      }
    }

    method CreateUnlessRecent(slot: Slot, w: World)
      modifies this
      ensures S() == TrySlot(old(S()), slot, w)
    {
      var now := w.clock(step);
      OthersAct(w);
      var recent := FindRecent(slot, now - slot.interval);
      if !recent {
        now := w.clock(step);
        OthersAct(w);
        jobs := jobs + [NewRow(slot, now)];
      }
    }

    method AdaptedInterval(item: Item, plan: Plan, w: World) returns (interval: int)
      requires item.Item? && item.recipe.Some?
      modifies this
      ensures (S(), interval) == Interval(old(S()), item, plan, w)
    {
      interval := BaseOf(item, plan);
      if plan.adaptive.enabled {
        var since := w.clock(step) - plan.adaptive.windowSeconds;
        OthersAct(w);
        var total := Runs(jobs, item.recipe.value, since);
        OthersAct(w);
        var failed := Failures(jobs, item.recipe.value, since);
        interval := AdjustInterval(interval, total, failed, plan.adaptive.soft, plan.adaptive.hard, plan.adaptive.minSamples);
      }
    }

    method IsPaused(recipe: Id, w: World) returns (paused: bool)
      modifies this
      ensures S() == Look(old(S()), w) && paused == (recipe in w.paused(old(step)))
    {
      paused := recipe in w.paused(step);
      OthersAct(w);
    }

    method PlanForCase(c: CaseInfo, plan: Plan, w: World)
      modifies this
      ensures S() == PlanCase(old(S()), c, plan, w)
    {
      hide Interval, TrySlot;
      var n := 0;
      while n < |plan.items|
        invariant 0 <= n <= |plan.items| && S() == PlanItems(old(S()), c, n, plan, w)
      {
        var item := plan.items[n];
        if item.Item? && item.recipe.Some? {
          var interval := AdaptedInterval(item, plan, w);
          var paused := IsPaused(item.recipe.value, w);
          if !paused {
            if item.perDebtor {
              TryAll(c, item, BaseOf(item, plan), interval, w);
            } else {
              CreateUnlessRecent(SlotOf(c, None, item, BaseOf(item, plan), interval), w);
            }
          }
        }
        n := n + 1;
      }
    }

    method TryAll(c: CaseInfo, item: Item, base: int, interval: int, w: World)
      requires item.Item? && item.recipe.Some?
      modifies this
      ensures S() == TryDebtors(old(S()), c, |c.debtors|, item, base, interval, w)
    {
      hide TrySlot;
      var d := 0;
      while d < |c.debtors|
        invariant 0 <= d <= |c.debtors|
        invariant S() == TryDebtors(old(S()), c, d, item, base, interval, w)
      {
        CreateUnlessRecent(SlotOf(c, Some(c.debtors[d]), item, base, interval), w);
        d := d + 1;
      }
    }
  }

  /** The interval a slot is tried with covers its base interval. */
  lemma IntervalCoversBase(s: Db, item: Item, plan: Plan, w: World)
    requires item.Item? && item.recipe.Some?
    ensures BaseOf(item, plan) >= 0 ==> BaseOf(item, plan) <= Interval(s, item, plan, w).1 <= 2 * BaseOf(item, plan)
  {
    if plan.adaptive.enabled {
      var d := plan.adaptive;
      var a := Look(s, w);
      var since := w.clock(s.step) - d.windowSeconds;
      AdjustBounds(BaseOf(item, plan),
                   Runs(a.jobs, item.recipe.value, since), Failures(Look(a, w).jobs, item.recipe.value, since),
                   d.soft, d.hard, d.minSamples);
    }
  }
}
