/** What the scheduler alone can set in motion when every process is idle and the broker is
    empty: which rows the two quota tests and the listing leave as they are for ever. */
module IdleSystem {
  import opened BotTypes
  import opened Collections
  import opened CaseLock
  import opened JobProtocol
  import opened LockSafety
  import D = Dispatcher

  /** A row's raw place in the listing: its priority and time of creation, which no event of
      the protocol changes. */
  type Order = JobId -> D.Key

  const LISTED := 500

  // ---------- what the scheduler tests ----------

  predicate IsActive(s: State, j: JobId) {
    j in s.jobs && (s.jobs[j].status.Queued? || s.jobs[j].status.Running?)
  }

  predicate QueuedIn(s: State, j: JobId) {
    j in s.jobs && s.jobs[j].status.Queued?
  }

  /** The rows `_count_running` counts. */
  function Active(s: State): set<JobId> {
    set j | j in s.jobs && IsActive(s, j)
  }

  function ActiveAt(s: State, risk: RiskLevel): set<JobId> {
    set j | j in s.jobs && IsActive(s, j) && s.jobs[j].risk == risk
  }

  /** Row `k` is listed strictly before row `j`. */
  predicate Before(k: JobId, j: JobId, order: Order) {
    !D.KeyLeq(order(j), order(k))
  }

  /** The QUEUED rows listed before `j`. */
  function Ahead(s: State, j: JobId, order: Order): set<JobId> {
    set k | k in s.jobs && QueuedIn(s, k) && Before(k, j, order)
  }

  predicate GlobalOpen(s: State, policy: D.Policy) {
    |Active(s)| < policy.globalCap
  }

  predicate LevelOpen(s: State, risk: RiskLevel, policy: D.Policy) {
    |ActiveAt(s, risk)| < D.CapFor(policy, risk)
  }

  /** A listing of the first 500 QUEUED rows can hold `j`. */
  predicate Listable(s: State, j: JobId, order: Order) {
    QueuedIn(s, j) && |Ahead(s, j, order)| < LISTED
  }

  // ---------- runs without an operator ----------

  /** Event `i` does not come from an operator, and if it dispatches a job, the job was
      listed, the global test passed and the test of its risk level passed, each at some
      earlier point of the run. */
  ghost predicate BySystem(ss: seq<State>, es: seq<Event>, i: nat, policy: D.Policy, order: Order)
    requires i < |es| && |ss| == |es| + 1
  {
    && (es[i].By? ==> !es[i].act.RetryReads? && !es[i].act.CancelReads?)
    && (es[i].Dispatch? ==>
          && es[i].d in ss[i].jobs
          && (exists m: nat :: m <= i && Listable(ss[m], es[i].d, order))
          && (exists m: nat :: m <= i && GlobalOpen(ss[m], policy))
          && (exists m: nat :: m <= i && LevelOpen(ss[m], ss[i].jobs[es[i].d].risk, policy)))
  }

  ghost predicate SystemRun(ss: seq<State>, es: seq<Event>, policy: D.Policy, order: Order) {
    IsRun(ss, es) && forall i: nat | i < |es| :: BySystem(ss, es, i, policy, order)
  }

  ghost predicate Resting(s: State) {
    Quiet(s) && s.broker == multiset{}
  }

  predicate RowKept(o: State, s: State, j: JobId) {
    j in o.jobs ==> j in s.jobs && s.jobs[j] == o.jobs[j]
  }

  ghost predicate RowStays(o: State, j: JobId, policy: D.Policy, order: Order) {
    forall ss, es | SystemRun(ss, es, policy, order) && ss[0] == o :: forall k: nat | k <= |es| :: RowKept(o, ss[k], j)
  }

  // ---------- rows that are fixed ----------

  /** QUEUED rows listed before `j` whose own levels are at their caps. */
  function FullAhead(s: State, j: JobId, policy: D.Policy, order: Order): set<JobId> {
    set k | k in s.jobs && QueuedIn(s, k) && Before(k, j, order) && !LevelOpen(s, s.jobs[k].risk, policy)
  }

  /** The global cap is reached, the row is not QUEUED, its level is at its cap, or a whole
      listing of rows of such levels is before it. */
  predicate Fixed(s: State, j: JobId, policy: D.Policy, order: Order) {
    j in s.jobs
    && (!GlobalOpen(s, policy) || !QueuedIn(s, j) || !LevelOpen(s, s.jobs[j].risk, policy)
        || |FullAhead(s, j, policy, order)| >= LISTED)
  }

  /** Row `j` is as it was, and neither the broker nor any process knows of it. */
  ghost predicate Untouched(o: State, s: State, j: JobId)
    requires j in o.jobs
  {
    && j in s.jobs && s.jobs[j] == o.jobs[j] && j !in s.broker
    && forall w | !At(s, w).Idle? :: At(s, w).c.job != j
  }

  ghost predicate FixedKept(o: State, s: State, policy: D.Policy, order: Order) {
    forall j | Fixed(o, j, policy, order) :: Untouched(o, s, j)
  }

  lemma UntouchedStep(o: State, s: State, e: Event, j: JobId)
    requires j in o.jobs && Untouched(o, s, j) && Enabled(s, e) && e != Dispatch(j)
    requires e.By? ==> !e.act.RetryReads? && !e.act.CancelReads?
    ensures Untouched(o, Next(s, e), j)
  {
    var t := Next(s, e);
    forall w | !At(t, w).Idle? ensures At(t, w).c.job != j {
      assert !e.By? || e.w != w ==> At(t, w) == At(s, w);
    }
  }

  /** A closed global test stays closed. */
  lemma GlobalStays(o: State, s: State, policy: D.Policy, order: Order)
    requires FixedKept(o, s, policy, order) && !GlobalOpen(o, policy)
    ensures !GlobalOpen(s, policy)
  {
    forall j | j in Active(o) ensures j in Active(s) {
      assert Fixed(o, j, policy, order);
    }
    SubsetSize(Active(o), Active(s));
  }

  /** So does a closed level, whose rows are all fixed. */
  lemma LevelStays(o: State, s: State, risk: RiskLevel, policy: D.Policy, order: Order)
    requires FixedKept(o, s, policy, order) && !LevelOpen(o, risk, policy)
    ensures !LevelOpen(s, risk, policy)
  {
    forall j | j in ActiveAt(o, risk) ensures j in ActiveAt(s, risk) {
      assert Fixed(o, j, policy, order);
    }
    SubsetSize(ActiveAt(o, risk), ActiveAt(s, risk));
  }

  /** And a listing of rows of closed levels. */
  lemma NeverListable(o: State, s: State, j: JobId, policy: D.Policy, order: Order)
    requires FixedKept(o, s, policy, order) && |FullAhead(o, j, policy, order)| >= LISTED
    ensures !Listable(s, j, order)
  {
    forall k | k in FullAhead(o, j, policy, order) ensures k in Ahead(s, j, order) {
      assert Fixed(o, k, policy, order);
    }
    SubsetSize(FullAhead(o, j, policy, order), Ahead(s, j, order));
  }

  /** So a fixed row is not dispatched, and at the global cap nothing is. */
  lemma NoDispatch(ss: seq<State>, es: seq<Event>, i: nat, policy: D.Policy, order: Order)
    requires |ss| == |es| + 1 && i < |es| && BySystem(ss, es, i, policy, order) && es[i].Dispatch?
    requires forall m: nat | m <= i :: FixedKept(ss[0], ss[m], policy, order)
    ensures GlobalOpen(ss[0], policy) && !Fixed(ss[0], es[i].d, policy, order)
  {
    var o, d, risk := ss[0], es[i].d, ss[i].jobs[es[i].d].risk;
    var l: nat :| l <= i && Listable(ss[l], d, order);
    var g: nat :| g <= i && GlobalOpen(ss[g], policy);
    var c: nat :| c <= i && LevelOpen(ss[c], risk, policy);
    assert FixedKept(o, ss[l], policy, order) && FixedKept(o, ss[g], policy, order) && FixedKept(o, ss[c], policy, order)
           && FixedKept(o, ss[i], policy, order);
    TestsPassed(o, ss[l], ss[g], ss[c], ss[i], d, policy, order);
  }

  lemma TestsPassed(o: State, l: State, g: State, c: State, s: State, d: JobId, policy: D.Policy, order: Order)
    requires FixedKept(o, l, policy, order) && FixedKept(o, g, policy, order) && FixedKept(o, c, policy, order) && FixedKept(o, s, policy, order)
    requires Listable(l, d, order) && GlobalOpen(g, policy) && d in s.jobs && LevelOpen(c, s.jobs[d].risk, policy)
    ensures GlobalOpen(o, policy) && !Fixed(o, d, policy, order)
  {
    if !GlobalOpen(o, policy) { GlobalStays(o, g, policy, order); }
    if Fixed(o, d, policy, order) {
      assert Untouched(o, l, d) && Untouched(o, s, d);
      if !LevelOpen(o, o.jobs[d].risk, policy) { LevelStays(o, c, o.jobs[d].risk, policy, order); }
      if |FullAhead(o, d, policy, order)| >= LISTED { NeverListable(o, l, d, policy, order); }
    }
  }

  lemma FixedStep(ss: seq<State>, es: seq<Event>, i: nat, policy: D.Policy, order: Order)
    requires |ss| == |es| + 1 && i < |es| && StepAt(ss, es, i) && BySystem(ss, es, i, policy, order)
    requires forall m: nat | m <= i :: FixedKept(ss[0], ss[m], policy, order)
    ensures FixedKept(ss[0], ss[i + 1], policy, order)
  {
    if es[i].Dispatch? { NoDispatch(ss, es, i, policy, order); }
    assert FixedKept(ss[0], ss[i], policy, order);
    forall j | Fixed(ss[0], j, policy, order) ensures Untouched(ss[0], ss[i + 1], j) {
      UntouchedStep(ss[0], ss[i], es[i], j);
    }
  }

  lemma {:induction false} FixedStays(ss: seq<State>, es: seq<Event>, k: nat, policy: D.Policy, order: Order)
    requires SystemRun(ss, es, policy, order) && k <= |es| && Resting(ss[0])
    ensures forall m: nat | m <= k :: FixedKept(ss[0], ss[m], policy, order)
  {
    if k > 0 {
      FixedStays(ss, es, k - 1, policy, order);
      assert StepAt(ss, es, k - 1) && BySystem(ss, es, k - 1, policy, order);
      FixedStep(ss, es, k - 1, policy, order);
    }
  }

  /** At the global cap a resting system wedges itself: whatever the planners create, no job
      is ever dispatched or taken without an operator, and every row stays as it is. */
  lemma {:induction false} WedgeKeepsItself(ss: seq<State>, es: seq<Event>, k: nat, policy: D.Policy, order: Order)
    requires SystemRun(ss, es, policy, order) && k <= |es| && Resting(ss[0]) && !GlobalOpen(ss[0], policy)
    ensures Resting(ss[k]) && !GlobalOpen(ss[k], policy) && ss[k].locks == ss[0].locks
    ensures forall j :: RowKept(ss[0], ss[k], j)
    ensures k < |es| ==> es[k].Create? || es[k].SetDegraded?
  {
    FixedStays(ss, es, k, policy, order);
    GlobalStays(ss[0], ss[k], policy, order);
    forall j ensures RowKept(ss[0], ss[k], j) {
      assert j in ss[0].jobs ==> Fixed(ss[0], j, policy, order);
    }
    if k > 0 {
      WedgeKeepsItself(ss, es, k - 1, policy, order);
      assert StepAt(ss, es, k - 1);
    }
    if k < |es| {
      assert StepAt(ss, es, k) && BySystem(ss, es, k, policy, order);
      if es[k].Dispatch? { NoDispatch(ss, es, k, policy, order); }
      RestingEvents(ss[k], es[k]);
    }
  }

  lemma RestingEvents(s: State, e: Event)
    requires Resting(s) && Enabled(s, e) && (e.By? ==> !e.act.RetryReads? && !e.act.CancelReads?)
    ensures e.Create? || e.SetDegraded? || e.Dispatch?
  {
    assert forall w :: At(s, w).Idle?;
  }

  // ---------- any other row is reached ----------

  ghost predicate SystemReaches(o: State, s: State, policy: D.Policy, order: Order) {
    exists ss, es :: SystemRun(ss, es, policy, order) && ss[0] == o && ss[|es|] == s
  }

  /** The event passes all tests now. */
  predicate Allowed(s: State, e: Event, policy: D.Policy, order: Order) {
    && (e.By? ==> !e.act.RetryReads? && !e.act.CancelReads?)
    && (e.Dispatch? ==> Listable(s, e.d, order) && GlobalOpen(s, policy) && LevelOpen(s, s.jobs[e.d].risk, policy))
  }

  lemma Go(o: State, s: State, e: Event, policy: D.Policy, order: Order) returns (t: State)
    requires SystemReaches(o, s, policy, order) && Enabled(s, e) && Allowed(s, e, policy, order)
    ensures SystemReaches(o, t, policy, order) && t == Next(s, e)
  {
    var ss, es :| SystemRun(ss, es, policy, order) && ss[0] == o && ss[|es|] == s;
    t := Next(s, e);
    var ss', es' := ss + [t], es + [e];
    forall i: nat | i < |es'| ensures StepAt(ss', es', i) && BySystem(ss', es', i, policy, order) {
      if i < |es| {
        assert StepAt(ss, es, i) && BySystem(ss, es, i, policy, order);
        EarlierStill(ss, es, t, e, i, policy, order);
      } else {
        assert ss'[i] == s;
      }
    }
    assert SystemRun(ss', es', policy, order) && ss'[0] == o && ss'[|es'|] == t;
  }

  lemma EarlierStill(ss: seq<State>, es: seq<Event>, t: State, e: Event, i: nat, policy: D.Policy, order: Order)
    requires |ss| == |es| + 1 && i < |es| && BySystem(ss, es, i, policy, order)
    ensures BySystem(ss + [t], es + [e], i, policy, order)
  {
    var ss' := ss + [t];
    assert forall m: nat | m <= i :: ss'[m] == ss[m];
    hide Listable, GlobalOpen, LevelOpen;
  }

  /** The system sends a job that passes the tests, a worker takes it and fails. */
  lemma OneFails(o: State, s: State, j: JobId, policy: D.Policy, order: Order) returns (t: State)
    requires SystemReaches(o, s, policy, order) && Resting(s)
    requires Listable(s, j, order) && GlobalOpen(s, policy) && LevelOpen(s, s.jobs[j].risk, policy)
    ensures SystemReaches(o, t, policy, order) && Resting(t)
    ensures t.jobs == s.jobs[j := s.jobs[j].(status := Failed)]
  {
    var w := FreshNumber(s.workers.Keys);
    t := Taken(o, s, j, w, policy, order);
    hide SystemReaches;
    t := Go(o, t, By(w, LoadFails), policy, order);
    t := Go(o, t, By(w, StoresFailed), policy, order);
  }

  lemma Taken(o: State, s: State, j: JobId, w: WorkerId, policy: D.Policy, order: Order) returns (t: State)
    requires SystemReaches(o, s, policy, order) && Resting(s) && w !in s.workers
    requires Listable(s, j, order) && GlobalOpen(s, policy) && LevelOpen(s, s.jobs[j].risk, policy)
    ensures SystemReaches(o, t, policy, order) && t.broker == multiset{} && t.jobs == s.jobs
    ensures t.workers == s.workers[w := Loaded(CopyOf(s, j))]
  {
    assert j in s.jobs;
    hide SystemReaches, Listable, GlobalOpen, LevelOpen;
    t := Go(o, s, Dispatch(j), policy, order);
    t := Go(o, t, By(w, Take(j)), policy, order);
  }

  /** `Before` orders rows, ties aside. */
  lemma BeforeOrders(i: JobId, k: JobId, m: JobId, order: Order)
    ensures !Before(k, k, order) && (Before(m, k, order) ==> !Before(k, m, order))
    ensures Before(i, k, order) ==> Before(i, m, order) || Before(m, k, order)
  {
  }

  /** The first, in the order, of some rows. */
  lemma {:induction false} First(rows: set<JobId>, order: Order) returns (k: JobId)
    requires rows != {}
    ensures k in rows && forall i | i in rows :: !Before(i, k, order)
    decreases |rows|
  {
    var x :| x in rows;
    k := x;
    var rest := rows - {x};
    if rest != {} {
      var m := First(rest, order);
      if Before(m, x, order) { k := m; }
      hide Before;
      forall i | i in rows ensures !Before(i, k, order) {
        BeforeOrders(i, x, m, order);
        assert i == x || i in rest;
      }
    } else {
      BeforeOrders(x, x, x, order);
      assert rows == {x};
    }
  }

  /** A row that is not fixed has its turn once the open rows before it have failed. */
  lemma {:induction false} HasItsTurn(o: State, s: State, j: JobId, policy: D.Policy, order: Order) returns (t: State)
    requires SystemReaches(o, s, policy, order) && Resting(s) && j in s.jobs && !Fixed(s, j, policy, order)
    ensures SystemReaches(o, t, policy, order) && j in t.jobs && t.jobs[j].status.Failed?
    decreases |Ahead(s, j, order)|
  {
    hide SystemReaches;
    if |Ahead(s, j, order)| < LISTED {
      t := OneFails(o, s, j, policy, order);
    } else {
      var k := FirstOpen(s, j, policy, order);
      var a := OneFails(o, s, k, policy, order);
      Drained(s, a, k, j, policy, order);
      t := HasItsTurn(o, a, j, policy, order);
    }
  }

  lemma FirstOpen(s: State, j: JobId, policy: D.Policy, order: Order) returns (k: JobId)
    requires |Ahead(s, j, order)| >= LISTED > |FullAhead(s, j, policy, order)|
    ensures k in Ahead(s, j, order) && Listable(s, k, order) && LevelOpen(s, s.jobs[k].risk, policy)
  {
    var open := Ahead(s, j, order) - FullAhead(s, j, policy, order);
    if open == {} {
      forall i | i in Ahead(s, j, order) ensures i in FullAhead(s, j, policy, order) { assert i !in open; }
      SubsetSize(Ahead(s, j, order), FullAhead(s, j, policy, order));
    }
    k := First(open, order);
    forall i | i in Ahead(s, k, order) ensures i in FullAhead(s, j, policy, order) {
      assert Before(i, k, order) && Before(k, j, order) && Before(i, j, order);
    }
    SubsetSize(Ahead(s, k, order), FullAhead(s, j, policy, order));
  }

  /** Failing another row opens no fewer tests and shortens the queue. */
  lemma Drained(s: State, t: State, k: JobId, j: JobId, policy: D.Policy, order: Order)
    requires k in Ahead(s, j, order) && j in s.jobs && !Fixed(s, j, policy, order)
    requires t.jobs == s.jobs[k := s.jobs[k].(status := Failed)]
    ensures j in t.jobs && !Fixed(t, j, policy, order) && |Ahead(t, j, order)| < |Ahead(s, j, order)|
  {
    assert Before(k, j, order);
    assert k != j;
    SubsetSize(Active(t), Active(s));
    forall risk ensures LevelOpen(s, risk, policy) ==> LevelOpen(t, risk, policy) {
      SubsetSize(ActiveAt(t, risk), ActiveAt(s, risk));
    }
    SubsetSize(FullAhead(t, j, policy, order), FullAhead(s, j, policy, order));
    assert k !in Ahead(t, j, order);
    SubsetSize(Ahead(t, j, order) + {k}, Ahead(s, j, order));
  }

  // ---------- main results ----------

  /** Exactly: without an operator no run ever touches a row of a resting system, if and only
      if the row is fixed. */
  lemma RowStaysExactly(s: State, j: JobId, policy: D.Policy, order: Order)
    requires Resting(s) && j in s.jobs
    ensures RowStays(s, j, policy, order) <==> Fixed(s, j, policy, order)
  {
    if Fixed(s, j, policy, order) {
      forall ss, es | SystemRun(ss, es, policy, order) && ss[0] == s ensures forall k: nat | k <= |es| :: RowKept(s, ss[k], j) {
        FixedStays(ss, es, |es|, policy, order);
        forall k: nat | k <= |es| ensures RowKept(s, ss[k], j) { assert FixedKept(s, ss[k], policy, order); }
      }
    } else {
      assert SystemRun([s], [], policy, order);
      assert SystemReaches(s, s, policy, order);
      var t := HasItsTurn(s, s, j, policy, order);
      var ss, es :| SystemRun(ss, es, policy, order) && ss[0] == s && ss[|es|] == t;
      assert !RowKept(s, ss[|es|], j);
    }
  }

  /** For global caps up to the length of a listing: a resting system is stuck, every row
      staying as it is, if and only if the global cap is reached or each QUEUED row's level
      is at its own cap. */
  lemma StuckExactly(s: State, policy: D.Policy, order: Order)
    requires Resting(s) && policy.globalCap <= LISTED
    ensures (forall j | j in s.jobs :: RowStays(s, j, policy, order))
            <==> !GlobalOpen(s, policy) || forall j | QueuedIn(s, j) :: !LevelOpen(s, s.jobs[j].risk, policy)
  {
    forall j | j in s.jobs
      ensures RowStays(s, j, policy, order)
              <==> !GlobalOpen(s, policy) || !QueuedIn(s, j) || !LevelOpen(s, s.jobs[j].risk, policy)
    {
      RowStaysExactly(s, j, policy, order);
      SubsetSize(FullAhead(s, j, policy, order), Active(s));
    }
    hide RowStays, GlobalOpen, LevelOpen;
  }
}
