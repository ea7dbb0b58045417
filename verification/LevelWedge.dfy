/** The wedge of one risk level: a level at its cap, over any number of ticks that plan and
    send jobs of the other levels. */
module LevelWedge {
  import opened BotTypes
  import opened JobTable
  import opened Planner
  import opened Dispatcher

  /** Rows stay where they are, and no row leaves QUEUED and RUNNING. */
  ghost predicate Grows(jobs: seq<Row>, later: seq<Row>) {
    Kept(jobs, later) && KeepsActive(jobs, later)
  }

  ghost predicate Growing(w: World) {
    Lawful(w) && Steady(w)
  }

  lemma GrowsTwice(a: seq<Row>, b: seq<Row>, c: seq<Row>)
    requires Grows(a, b) && Grows(b, c)
    ensures Grows(a, c)
  {
    forall k | 0 <= k < |a| ensures c[k] == a[k].(status := c[k].status, priority := c[k].priority) {
      assert b[k] == a[k].(status := b[k].status, priority := b[k].priority);
    }
  }

  lemma LevelGrows(jobs: seq<Row>, later: seq<Row>, risk: RiskLevel)
    requires Grows(jobs, later)
    ensures CountClass(jobs, risk) <= CountClass(later, risk)
  {
    CountGrows(jobs, later, (r: Row) => ActiveIn(r, risk));
  }

  // ---------- a tick only adds rows ----------

  lemma LookGrows(s: Db, w: World)
    requires Growing(w)
    ensures Grows(s.jobs, Look(s, w).jobs)
  {
    assert Kept(s.jobs, w.others(s.step, s.jobs)) && KeepsActive(s.jobs, w.others(s.step, s.jobs));
  }

  lemma {:induction false} LooksGrow(s: Db, w: World, n: nat)
    requires Growing(w)
    ensures Grows(s.jobs, Looks(s, w, n).jobs)
  {
    if n > 0 {
      LooksGrow(s, w, n - 1);
      LookGrows(Looks(s, w, n - 1), w);
      GrowsTwice(s.jobs, Looks(s, w, n - 1).jobs, Looks(s, w, n).jobs);
    }
  }

  lemma SlotGrows(s: Db, slot: Slot, w: World)
    requires Growing(w)
    ensures Grows(s.jobs, TrySlot(s, slot, w).jobs)
  {
    var a := Look(s, w);
    var b := Look(a, w);
    LookGrows(s, w);
    LookGrows(a, w);
    GrowsTwice(s.jobs, a.jobs, b.jobs);
    assert Grows(b.jobs, b.jobs + [NewRow(slot, w.clock(a.step))]);
    GrowsTwice(s.jobs, b.jobs, b.jobs + [NewRow(slot, w.clock(a.step))]);
    hide Grows, Growing, RecentExists;
  }

  lemma {:induction false} DebtorsGrow(s: Db, c: CaseInfo, n: nat, item: Item, base: int, interval: int, w: World)
    requires Growing(w) && item.Item? && item.recipe.Some? && n <= |c.debtors|
    ensures Grows(s.jobs, TryDebtors(s, c, n, item, base, interval, w).jobs)
  {
    if n > 0 {
      var a := TryDebtors(s, c, n - 1, item, base, interval, w);
      DebtorsGrow(s, c, n - 1, item, base, interval, w);
      SlotGrows(a, SlotOf(c, Some(c.debtors[n - 1]), item, base, interval), w);
      GrowsTwice(s.jobs, a.jobs, TryDebtors(s, c, n, item, base, interval, w).jobs);
    }
  }

  lemma ItemGrows(s: Db, c: CaseInfo, item: Item, plan: Plan, w: World)
    requires Growing(w)
    ensures Grows(s.jobs, PlanItem(s, c, item, plan, w).jobs)
  {
    hide TrySlot, TryDebtors, Growing;
    if item.Item? && item.recipe.Some? {
      var (a, interval) := Interval(s, item, plan, w);
      var b := Look(a, w);
      LooksGrow(s, w, 2);
      assert plan.adaptive.enabled ==> a == Look(Look(s, w), w);
      LooksTwo(s, w);
      LookGrows(a, w);
      GrowsTwice(s.jobs, a.jobs, b.jobs);
      if item.recipe.value !in w.paused(a.step) {
        if item.perDebtor {
          DebtorsGrow(b, c, |c.debtors|, item, BaseOf(item, plan), interval, w);
        } else {
          SlotGrows(b, SlotOf(c, None, item, BaseOf(item, plan), interval), w);
        }
        GrowsTwice(s.jobs, b.jobs, PlanItem(s, c, item, plan, w).jobs);
      }
    }
  }

  lemma {:induction false} LooksTwo(s: Db, w: World)
    ensures Looks(s, w, 0) == s && Looks(s, w, 2) == Look(Look(s, w), w)
  {
    assert Looks(s, w, 1) == Look(Looks(s, w, 0), w);
  }

  lemma {:induction false} ItemsGrow(s: Db, c: CaseInfo, n: nat, plan: Plan, w: World)
    requires Growing(w) && n <= |plan.items|
    ensures Grows(s.jobs, PlanItems(s, c, n, plan, w).jobs)
  {
    hide PlanItem;
    if n > 0 {
      var a := PlanItems(s, c, n - 1, plan, w);
      ItemsGrow(s, c, n - 1, plan, w);
      ItemGrows(a, c, plan.items[n - 1], plan, w);
      GrowsTwice(s.jobs, a.jobs, PlanItems(s, c, n, plan, w).jobs);
    }
  }

  lemma CaseGrows(s: Db, c: CaseRow, policy: Policy, w: World)
    requires Growing(w)
    ensures Grows(s.jobs, PlanOne(s, c, policy, w).jobs)
  {
    var (b, ok) := Admits(s, c, policy, w);
    LookGrows(s, w);
    LooksTwo(s, w);
    LooksGrow(s, w, 2);
    assert b == s || b == Look(s, w) || b == Look(Look(s, w), w);
    hide Admits, Growing, Look;
    if ok {
      ItemsGrow(b, c.info, |c.plan.items|, c.plan, w);
      GrowsTwice(s.jobs, b.jobs, PlanCase(b, c.info, c.plan, w).jobs);
    }
  }

  lemma {:induction false} PassGrows(s: Db, t: Tick, w: World, n: nat)
    requires Growing(w) && n <= |t.cases|
    ensures Grows(s.jobs, PlanPass(s, t, w, n).jobs)
  {
    hide PlanOne;
    if n > 0 {
      var a := PlanPass(s, t, w, n - 1);
      PassGrows(s, t, w, n - 1);
      CaseGrows(a, t.cases[n - 1], t.policy, w);
      GrowsTwice(s.jobs, a.jobs, PlanPass(s, t, w, n).jobs);
    }
  }

  lemma ListedGrows(s: Db, t: Tick, w: World)
    requires Growing(w)
    ensures Grows(s.jobs, Listed(s, t, w).jobs)
  {
    var a := Look(s, w);
    var b := PlanPass(a, t, w, |t.cases|);
    LookGrows(s, w);
    PassGrows(a, t, w, |t.cases|);
    LookGrows(b, w);
    hide Grows, Look, PlanPass;
    GrowsTwice(s.jobs, a.jobs, b.jobs);
    GrowsTwice(s.jobs, b.jobs, Listed(s, t, w).jobs);
  }

  // ---------- the wedge ----------

  /** The jobs of `more` are rows of other levels. */
  ghost predicate OtherLevels(jobs: seq<Row>, more: seq<nat>, risk: RiskLevel) {
    forall i | 0 <= i < |more| :: more[i] < |jobs| && jobs[more[i]].risk != risk
  }

  lemma OtherLevelsStay(jobs: seq<Row>, later: seq<Row>, more: seq<nat>, risk: RiskLevel)
    requires OtherLevels(jobs, more, risk) && Grows(jobs, later)
    ensures OtherLevels(later, more, risk)
  {
    forall i | 0 <= i < |more| ensures more[i] < |later| && later[more[i]].risk != risk {
      assert later[more[i]] == jobs[more[i]].(status := later[more[i]].status, priority := later[more[i]].priority);
    }
  }

  /** A table with a level at its cap sends no job of the level. */
  lemma {:induction false} SendsOtherLevels(l: Db, queue: seq<nat>, policy: Policy, w: World, risk: RiskLevel)
    requires IsQueue(l.jobs, queue) && Growing(w) && CountClass(l.jobs, risk) >= CapFor(policy, risk)
    ensures OtherLevels(l.jobs, Sent(l, queue, policy, w, |queue|), risk)
  {
    var sent := Sent(l, queue, policy, w, |queue|);
    forall i | 0 <= i < |sent| ensures sent[i] < |l.jobs| && l.jobs[sent[i]].risk != risk {
      var at := Position(l, queue, policy, w, sent[i]);
      LooksGrow(l, w, 2 * at + 2);
      LevelGrows(l.jobs, ClassView(l, w, at), risk);
    }
  }

  /** One tick: the level count does not fall, and what is sent is of other levels. */
  lemma TickSendsOthers(s: Db, t: Tick, w: World, s': Db, broker: seq<nat>, broker': seq<nat>, risk: RiskLevel) returns (more: seq<nat>)
    requires Ticks(s, t, w, s', broker, broker') && Growing(w) && CountClass(s.jobs, risk) >= CapFor(t.policy, risk)
    ensures Grows(s.jobs, s'.jobs) && broker' == broker + more && OtherLevels(s'.jobs, more, risk)
  {
    var queue, looks :| TickDoes(s, t, w, queue, looks, s', broker, broker');
    if CountActive(Look(s, w).jobs) >= t.policy.globalCap {
      LookGrows(s, w);
      more := [];
    } else {
      var l := Listed(s, t, w);
      ListedGrows(s, t, w);
      LevelGrows(s.jobs, l.jobs, risk);
      hide Listed, CountClass, CapFor, CountActive, Growing, Grows;
      SendsOtherLevels(l, queue, t.policy, w, risk);
      more := Sent(l, queue, t.policy, w, |queue|);
      LooksGrow(l, w, looks);
      OtherLevelsStay(l.jobs, s'.jobs, more, risk);
      GrowsTwice(s.jobs, l.jobs, s'.jobs);
    }
  }

  /** Once a level has reached its cap and no process moves a row out of QUEUED or RUNNING,
      no later tick sends a job of the level, whatever it plans and sends of others. */
  lemma {:induction false} LevelWedgedForever(ss: seq<Db>, brokers: seq<seq<nat>>, ticks: seq<Tick>, ws: seq<World>, n: nat, risk: RiskLevel)
    returns (more: seq<nat>)
    requires TicksRun(ss, brokers, ticks, ws) && n <= |ticks|
    requires forall i | 0 <= i < |ticks| :: Growing(ws[i]) && CapFor(ticks[i].policy, risk) <= CountClass(ss[0].jobs, risk)
    ensures brokers[n] == brokers[0] + more && OtherLevels(ss[n].jobs, more, risk)
    ensures Grows(ss[0].jobs, ss[n].jobs) && CountClass(ss[n].jobs, risk) >= CountClass(ss[0].jobs, risk)
  {
    if n == 0 {
      more := [];
    } else {
      var front := LevelWedgedForever(ss, brokers, ticks, ws, n - 1, risk);
      assert TickAt(ss, brokers, ticks, ws, n - 1);
      hide Grows, Growing, CountClass, CapFor, Ticks;
      var last := TickSendsOthers(ss[n - 1], ticks[n - 1], ws[n - 1], ss[n], brokers[n - 1], brokers[n], risk);
      OtherLevelsStay(ss[n - 1].jobs, ss[n].jobs, front, risk);
      GrowsTwice(ss[0].jobs, ss[n - 1].jobs, ss[n].jobs);
      LevelGrows(ss[0].jobs, ss[n].jobs, risk);
      more := front + last;
    }
  }
}
