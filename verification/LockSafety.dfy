/** Mutual exclusion, ownership, leaks and quiescence over every interleaving. */
module LockSafety {
  import opened BotTypes
  import opened CaseLock
  import opened JobProtocol

  /** What a process remembers about the columns nobody updates is right. */
  ghost predicate CopiesAgree(s: State) {
    forall w | w in s.workers && !s.workers[w].Idle? ::
      var c := s.workers[w].c;
      c.job in s.jobs && s.jobs[c.job].caseId == c.caseId && s.jobs[c.job].risk == c.risk
  }

  ghost predicate OwnersAreWriteJobs(s: State) {
    forall c | c in s.locks ::
      s.locks[c] in s.jobs && s.jobs[s.locks[c]].caseId == c && s.jobs[s.locks[c]].risk.IsWrite()
  }

  ghost predicate HoldersOwn(s: State) {
    forall w, c | Holds(s, w, c) :: c in s.locks && s.locks[c] == At(s, w).c.job && c !in s.leaked
  }

  ghost predicate OneHolder(s: State) {
    forall w, v, c | Holds(s, w, c) && Holds(s, v, c) :: w == v
  }

  ghost predicate LockedIsHeldOrLeaked(s: State) {
    && s.leaked <= s.locks.Keys
    && forall c | c in s.locks && c !in s.leaked :: exists w :: Holds(s, w, c)
  }

  ghost predicate LockInv(s: State) {
    CopiesAgree(s) && OwnersAreWriteJobs(s) && HoldersOwn(s) && OneHolder(s) && LockedIsHeldOrLeaked(s)
  }

  /** Jobs never disappear and keep their case and risk level. */
  lemma ColumnsStay(s: State, e: Event)
    requires Enabled(s, e)
    ensures s.jobs.Keys <= Next(s, e).jobs.Keys
    ensures forall j | j in s.jobs ::
              Next(s, e).jobs[j].caseId == s.jobs[j].caseId && Next(s, e).jobs[j].risk == s.jobs[j].risk
  {
  }

  /** Only the acting worker's program counter moves. */
  lemma OthersStay(s: State, e: Event, v: WorkerId)
    requires Enabled(s, e)
    requires e.By? ==> e.w != v
    ensures At(Next(s, e), v) == At(s, v)
  {
  }

  lemma CopiesAgreeStep(s: State, e: Event)
    requires CopiesAgree(s) && Enabled(s, e)
    ensures CopiesAgree(Next(s, e))
  {
    ColumnsStay(s, e);
  }

  lemma OwnersStep(s: State, e: Event)
    requires LockInv(s) && Enabled(s, e)
    ensures OwnersAreWriteJobs(Next(s, e))
  {
    ColumnsStay(s, e);
  }

  lemma HoldersOwnStep(s: State, e: Event)
    requires LockInv(s) && Enabled(s, e)
    ensures HoldersOwn(Next(s, e))
  {
    var t := Next(s, e);
    forall v, c | Holds(t, v, c)
      ensures c in t.locks && t.locks[c] == At(t, v).c.job && c !in t.leaked
    {
      if !e.By? || e.w != v {
        OthersStay(s, e, v);
        assert Holds(s, v, c);
        // the acting process is not in a write section of the same case
        assert e.By? ==> !Holds(s, e.w, c);
      } else if !e.act.AcquireOk? {
        assert Holds(s, v, c);
      }
    }
  }

  /** Whoever holds a case after a step held it before, or has just acquired it. */
  lemma HoldsCameFrom(s: State, e: Event, v: WorkerId, c: CaseId)
    requires Enabled(s, e) && Holds(Next(s, e), v, c)
    ensures Holds(s, v, c) || (e == By(v, AcquireOk) && c !in s.locks)
  {
    assert !e.By? || e.w != v ==> At(Next(s, e), v) == At(s, v);
  }

  lemma OneHolderStep(s: State, e: Event)
    requires LockInv(s) && Enabled(s, e)
    ensures OneHolder(Next(s, e))
  {
    var t := Next(s, e);
    forall v, u, c | Holds(t, v, c) && Holds(t, u, c)
      ensures v == u
    {
      HoldsCameFrom(s, e, v, c);
      HoldsCameFrom(s, e, u, c);
      hide Enabled, Next;
    }
  }

  lemma HeldOrLeakedStep(s: State, e: Event)
    requires LockInv(s) && Enabled(s, e)
    ensures LockedIsHeldOrLeaked(Next(s, e))
  {
    var t := Next(s, e);
    assert e.By? && e.act.AcquireOk? ==> Holds(t, e.w, At(s, e.w).c.caseId);
    forall c | c in t.locks && c !in t.leaked
      ensures exists w :: Holds(t, w, c)
    {
      if c in s.locks {
        var w :| Holds(s, w, c);
        if !e.By? || e.w != w { OthersStay(s, e, w); }
        assert Holds(t, w, c);
      }
    }
  }

  lemma LockInvStep(s: State, e: Event)
    requires LockInv(s) && Enabled(s, e)
    ensures LockInv(Next(s, e))
  {
    CopiesAgreeStep(s, e);
    OwnersStep(s, e);
    HoldersOwnStep(s, e);
    OneHolderStep(s, e);
    HeldOrLeakedStep(s, e);
  }

  lemma {:induction false} LockInvAlways(ss: seq<State>, es: seq<Event>, k: nat)
    requires IsRun(ss, es) && k <= |es| && LockInv(ss[0])
    ensures LockInv(ss[k])
  {
    if k > 0 {
      LockInvAlways(ss, es, k - 1);
      assert StepAt(ss, es, k - 1);
      LockInvStep(ss[k - 1], es[k - 1]);
    }
  }

  lemma LockInvReachable(s: State)
    requires Reachable(s)
    ensures LockInv(s)
  {
    var ss, es :| IsRun(ss, es) && ss[0] == INITIAL && ss[|es|] == s;
    LockInvAlways(ss, es, |es|);
  }

  /** Mutual exclusion: in every reachable state at most one process is between a
      successful acquire and its release for a case, even when the broker delivered
      the same job id twice. */
  lemma MutualExclusion(s: State, w: WorkerId, v: WorkerId, c: CaseId)
    requires Reachable(s) && Holds(s, w, c) && Holds(s, v, c)
    ensures w == v
  {
    LockInvReachable(s);
  }

  /** Ownership, both directions: a case that leaked nothing is locked by job `j`
      exactly when some process is in its section for `j` on that case. */
  lemma OwnershipExact(s: State, c: CaseId, j: JobId)
    requires Reachable(s) && c !in s.leaked
    ensures (c in s.locks && s.locks[c] == j) <==> exists w :: Holds(s, w, c) && At(s, w).c.job == j
  {
    LockInvReachable(s);
    if c in s.locks && s.locks[c] == j {
      var w :| Holds(s, w, c);
      assert At(s, w).c.job == j;
    }
  }

  /** A step frees a lock only if the acting process took it: it was in its section
      for that case and the lock named its job. In particular a read-only run, which
      also executes the release, never frees one. No step changes an owner. */
  lemma OnlyTheHolderFrees(s: State, e: Event, c: CaseId)
    requires Reachable(s) && Enabled(s, e) && c in s.locks
    ensures c !in Next(s, e).locks ==>
              && e.By? && e.act.Releases? && Holds(s, e.w, c) && s.locks[c] == At(s, e.w).c.job
              && Next(s, e).locks == s.locks - {c}
    ensures c in Next(s, e).locks ==> Next(s, e).locks[c] == s.locks[c]
  {
    LockInvReachable(s);
  }

  ghost predicate Quiet(s: State) {
    forall w | w in s.workers :: s.workers[w].Idle?
  }

  /** When every process is idle the locked cases are exactly those that leaked. */
  lemma Quiescence(s: State)
    requires Reachable(s) && Quiet(s)
    ensures s.locks.Keys == s.leaked
  {
    LockInvReachable(s);
    forall c | c in s.locks ensures c in s.leaked {
      assert forall w :: !Holds(s, w, c);
    }
  }

  /** The three ways to lose a lock: for a write process in its section, starting the UI
      worker fails after the acquire, the release itself fails, or the process dies. */
  predicate LosesLock(s: State, e: Event) {
    && e.By? && (e.act.UiStartFails? || e.act.ReleaseFails? || e.act.Crashes?)
    && InSection(At(s, e.w)) && At(s, e.w).c.risk.IsWrite()
  }

  lemma {:induction false} LeaksComeFrom(ss: seq<State>, es: seq<Event>, k: nat)
    requires IsRun(ss, es) && k <= |es| && ss[0].leaked == {}
    ensures ss[k].leaked == {} <==> forall i | 0 <= i < k :: !LosesLock(ss[i], es[i])
  {
    if k > 0 {
      LeaksComeFrom(ss, es, k - 1);
      assert StepAt(ss, es, k - 1);
      LeaksGrow(ss[k - 1], es[k - 1]);
    }
  }

  lemma LeaksGrow(s: State, e: Event)
    requires Enabled(s, e)
    ensures Next(s, e).leaked == if LosesLock(s, e) then s.leaked + {At(s, e.w).c.caseId} else s.leaked
  {
  }

  /** Over a run from the start that ends with all processes idle, all locks are free at
      the end exactly when none of those failures hit a write process in its section. */
  lemma AllFreeExactly(ss: seq<State>, es: seq<Event>)
    requires IsRun(ss, es) && ss[0] == INITIAL && Quiet(ss[|es|])
    ensures ss[|es|].locks == map[] <==> forall i | 0 <= i < |es| :: !LosesLock(ss[i], es[i])
  {
    LeaksComeFrom(ss, es, |es|);
    Quiescence(ss[|es|]);
    assert ss[|es|].locks == map[] <==> ss[|es|].locks.Keys == {};
  }

  lemma LeakStep(s: State, e: Event, c: CaseId)
    requires LockInv(s) && Enabled(s, e) && c in s.leaked
    ensures c in Next(s, e).leaked && c in Next(s, e).locks && Next(s, e).locks[c] == s.locks[c]
    ensures forall j | j in s.jobs && s.jobs[j].caseId == c && s.jobs[j].risk.IsWrite() ::
              Next(s, e).jobs[j].rows == s.jobs[j].rows && Next(s, e).jobs[j].starts == s.jobs[j].starts
  {
    if e.By? {
      assert !Holds(s, e.w, c);
    }
  }

  /** The write job `j` of case `c` has the same audit rows and start count in both states. */
  predicate Frozen(s: State, t: State, c: CaseId, j: JobId)
    requires j in s.jobs
  {
    s.jobs[j].caseId == c && s.jobs[j].risk.IsWrite() ==>
      j in t.jobs && t.jobs[j].rows == s.jobs[j].rows && t.jobs[j].starts == s.jobs[j].starts
  }

  /** A leak is for ever: at every later point of every run the case is still locked by
      the same job, nobody is in its section, and no write job of the case has started
      again or got another audit row. */
  lemma {:induction false} LeakIsForever(ss: seq<State>, es: seq<Event>, k: nat, c: CaseId)
    requires IsRun(ss, es) && k <= |es| && Reachable(ss[0]) && c in ss[0].leaked
    ensures var t := ss[k];
            && c in t.leaked && c in t.locks && c in ss[0].locks && t.locks[c] == ss[0].locks[c]
            && (forall w :: !Holds(t, w, c))
            && forall j | j in ss[0].jobs :: Frozen(ss[0], t, c, j)
  {
    LockInvReachable(ss[0]);
    LockInvAlways(ss, es, k);
    if k > 0 {
      LeakIsForever(ss, es, k - 1, c);
      LockInvAlways(ss, es, k - 1);
      assert StepAt(ss, es, k - 1);
      LeakStep(ss[k - 1], es[k - 1], c);
      ColumnsKept(ss, es, k - 1);
      forall j | j in ss[0].jobs ensures Frozen(ss[0], ss[k], c, j) {
        assert Frozen(ss[0], ss[k - 1], c, j);
      }
    }
  }

  lemma {:induction false} ColumnsKept(ss: seq<State>, es: seq<Event>, k: nat)
    requires IsRun(ss, es) && k <= |es|
    ensures forall j | j in ss[0].jobs ::
              j in ss[k].jobs && ss[k].jobs[j].caseId == ss[0].jobs[j].caseId && ss[k].jobs[j].risk == ss[0].jobs[j].risk
  {
    if k > 0 {
      ColumnsKept(ss, es, k - 1);
      assert StepAt(ss, es, k - 1);
      ColumnsStay(ss[k - 1], es[k - 1]);
    }
  }

  /** The leak happens: a write job whose UI worker cannot be started ends FAILED and its
      case stays locked although every process is idle. */
  lemma UiStartFailureLeaks() returns (s: State)
    ensures Reachable(s) && Quiet(s) && s.broker == multiset{}
    ensures 7 in s.jobs && s.jobs[7].status == Failed
    ensures s.locks == map[1 := 7] && s.leaked == {1}
  {
    hide Reachable, Reaches;
    s := FirstGated(ControlledWrite, 0);
    s := Then(s, By(0, AcquireOk));
    s := Then(s, By(0, UiStartFails));
    s := Then(s, By(0, StoresFailed));
  }

  /** A fresh job 7 of case 1, dispatched once and taken by process 0 through the gate. */
  lemma FirstGated(risk: RiskLevel, actions: nat) returns (s: State)
    ensures Reachable(s)
    ensures s == State(map[7 := Job(1, risk, Queued, 0, [], 0, 0)], map[], multiset{},
                       map[0 := Gated(Copy(7, 1, risk, 0, 0, actions))], false, {}, {}, {})
  {
    hide Reachable, Reaches;
    s := FirstTaken(risk);
    s := ThenMoves(s, 0, GatePasses(actions));
  }

  lemma FirstTaken(risk: RiskLevel) returns (s: State)
    ensures Reachable(s)
    ensures s == State(map[7 := Job(1, risk, Queued, 0, [], 0, 0)], map[], multiset{},
                       map[0 := Loaded(Copy(7, 1, risk, 0, 0, 0))], false, {}, {}, {})
  {
    hide Reachable, Reaches;
    s := FirstDispatched(risk);
    s := ThenMoves(s, 0, Take(7));
    LastDelivery(7);
  }

  lemma LastDelivery(j: JobId)
    ensures multiset{j} - multiset{j} == multiset{}
  {
  }

  lemma FirstDispatched(risk: RiskLevel) returns (s: State)
    ensures Reachable(s)
    ensures s == State(map[7 := Job(1, risk, Queued, 0, [], 0, 0)], map[], multiset{7}, map[], false, {}, {}, {})
  {
    LeadsToItself(INITIAL, ANY);
    s := Then(INITIAL, Create(7, 1, risk));
    s := Then(s, Dispatch(7));
  }

  /** A step that stores nothing and touches no lock only moves its process. */
  lemma ThenMoves(s: State, w: WorkerId, act: Act) returns (t: State)
    requires Reachable(s) && Enabled(s, By(w, act))
    requires act.Take? || act.GatePasses? || act.SkipsLock? || act.UiStarts?
    ensures Reachable(t)
    ensures t == s.(workers := s.workers[w := PcAfter(s, w, act)],
                    broker := if act.Take? then s.broker - multiset{act.j} else s.broker)
  {
    t := Then(s, By(w, act));
  }

  lemma Then(s: State, e: Event) returns (t: State)
    requires Reachable(s) && Enabled(s, e)
    ensures Reachable(t) && t == Next(s, e)
  {
    Extend(INITIAL, s, e, ANY);
    t := Next(s, e);
  }
}
