/** When `attempt` keeps counting the stored starts and retries of a job. */
module AttemptCounter {
  import opened BotTypes
  import opened CaseLock
  import opened Collections
  import opened JobProtocol
  import opened LockSafety
  import opened AuditTrail
  import opened CancelFinality

  /** A write job whose case leaked its lock: it can never start again. */
  predicate Barred(s: State, j: JobId) {
    j in s.jobs && s.jobs[j].risk.IsWrite() && s.jobs[j].caseId in s.leaked
  }

  /** A process that can still store `attempt` of the job. */
  predicate CanCount(s: State, p: Pc, j: JobId) {
    !p.Idle? && p.c.job == j
    && (p.Retrying? || (!Barred(s, j) && (p.Loaded? || p.Gated? || p.Entered? || p.Trying?)))
  }

  function Counters(s: State, j: JobId): set<WorkerId> {
    set w | w in s.workers && CanCount(s, s.workers[w], j)
  }

  /** Deliveries that can still start the job and processes that can still count. */
  function Pending(s: State, j: JobId): nat {
    (if Barred(s, j) then 0 else s.broker[j]) + |Counters(s, j)|
  }

  predicate Exact(s: State, j: JobId) {
    j in s.jobs && s.jobs[j].attempt == s.jobs[j].Version()
  }

  /** At most one store of `attempt` can follow, and none from an outdated copy. */
  ghost predicate CounterSafe(s: State, j: JobId) {
    Exact(s, j) && Pending(s, j) <= 1
    && forall w | CanCount(s, At(s, w), j) :: At(s, w).c.seen == s.jobs[j].Version()
  }

  ghost predicate StaysExact(s: State, j: JobId) {
    forall ss, es | RunOf(ss, es, Alone(j)) && ss[0] == s :: forall k: nat | k <= |es| :: Exact(ss[k], j)
  }

  // ---------- one store to come ----------

  lemma BarredStays(s: State, e: Event, j: JobId)
    requires Barred(s, j) && Enabled(s, e)
    ensures Barred(Next(s, e), j)
  {
  }

  lemma CounterCameFrom(s: State, e: Event, j: JobId, w: WorkerId)
    requires Enabled(s, e) && LeavesAlone(e, j) && j in s.jobs && CanCount(Next(s, e), At(Next(s, e), w), j)
    ensures (CanCount(s, At(s, w), j) && At(s, w).c.seen == At(Next(s, e), w).c.seen) || (e == By(w, Take(j)) && !Barred(s, j))
  {
    if Barred(s, j) { BarredStays(s, e, j); }
    assert !e.By? || e.w != w ==> At(Next(s, e), w) == At(s, w);
  }

  lemma IsCounter(s: State, j: JobId, w: WorkerId)
    ensures w in Counters(s, j) <==> CanCount(s, At(s, w), j)
  {
  }

  lemma BrokerStep(s: State, e: Event, j: JobId)
    requires Enabled(s, e) && LeavesAlone(e, j)
    ensures Next(s, e).broker[j] == s.broker[j] - (if e.By? && e.act == Take(j) then 1 else 0)
  {
  }

  /** Fewer can count after a step; the acting process no longer can if it has just counted. */
  lemma PendingStep(s: State, e: Event, j: JobId)
    requires Enabled(s, e) && LeavesAlone(e, j) && j in s.jobs
    ensures Pending(Next(s, e), j) <= Pending(s, j)
  {
    var t := Next(s, e);
    BrokerStep(s, e, j);
    if Barred(s, j) { BarredStays(s, e, j); }
    var joined: set<WorkerId> := if e.By? && e.act == Take(j) && !Barred(s, j) then {e.w} else {};
    forall w | w in Counters(t, j) ensures w in Counters(s, j) + joined {
      IsCounter(t, j, w);
      CounterCameFrom(s, e, j, w);
      IsCounter(s, j, w);
    }
    hide Enabled, Next, Counters, Barred;
    SubsetSize(Counters(t, j), Counters(s, j) + joined);
  }

  lemma OnlyOne(s: State, j: JobId, w: WorkerId, v: WorkerId)
    requires Pending(s, j) <= 1 && CanCount(s, At(s, w), j) && CanCount(s, At(s, v), j)
    ensures w == v
  {
    SubsetSize({w, v}, Counters(s, j));
  }

  predicate Counts(s: State, e: Event, j: JobId) {
    e.By? && (e.act.StoresRunning? || e.act.RetryStores?) && !At(s, e.w).Idle? && At(s, e.w).c.job == j
  }

  lemma CounterStays(s: State, e: Event, j: JobId)
    requires Enabled(s, e) && j in s.jobs && !Counts(s, e, j)
    ensures Next(s, e).jobs[j].attempt == s.jobs[j].attempt && Next(s, e).jobs[j].Version() == s.jobs[j].Version()
  {
  }

  /** A store of a fresh copy counts one up. */
  lemma FreshStore(s: State, e: Event, j: JobId)
    requires LockInv(s) && CountInv(s) && CounterSafe(s, j) && Enabled(s, e) && Counts(s, e, j)
    ensures CanCount(s, At(s, e.w), j) && Exact(Next(s, e), j) && !CanCount(Next(s, e), At(Next(s, e), e.w), j)
  {
    var p := At(s, e.w);
    assert p.Trying? && p.c.risk.IsWrite() ==> Holds(s, e.w, p.c.caseId);
    assert CopyCounts(s, p.c);
  }

  lemma SafeStep(s: State, e: Event, j: JobId)
    requires LockInv(s) && CountInv(s) && CounterSafe(s, j) && Enabled(s, e) && LeavesAlone(e, j)
    ensures CounterSafe(Next(s, e), j)
  {
    var t := Next(s, e);
    PendingStep(s, e, j);
    if Counts(s, e, j) {
      FreshStore(s, e, j);
      forall w | CanCount(t, At(t, w), j) ensures false {
        CounterCameFrom(s, e, j, w);
        OnlyOne(s, j, w, e.w);
      }
    } else {
      CounterStays(s, e, j);
      forall w | CanCount(t, At(t, w), j) ensures At(t, w).c.seen == t.jobs[j].Version() {
        CounterCameFrom(s, e, j, w);
      }
    }
  }

  lemma {:induction false} SafeStays(ss: seq<State>, es: seq<Event>, k: nat, j: JobId)
    requires RunOf(ss, es, Alone(j)) && k <= |es| && LockInv(ss[0]) && CountInv(ss[0]) && CounterSafe(ss[0], j)
    ensures CounterSafe(ss[k], j)
  {
    if k > 0 {
      SafeStays(ss, es, k - 1, j);
      LockInvAlways(ss, es, k - 1);
      CountInvAlways(ss, es, k - 1);
      assert StepAt(ss, es, k - 1) && LeavesAlone(es[k - 1], j);
      SafeStep(ss[k - 1], es[k - 1], j);
    }
  }

  // ---------- otherwise some run breaks it ----------

  /** A state some undisturbed run leads to, with the lock invariant. */
  ghost predicate Here(o: State, s: State, j: JobId) {
    LeadsTo(o, s, Alone(j)) && LockInv(s) && j in s.jobs
  }

  predicate Harmful(act: Act) { act.UiStartFails? || act.ReleaseFails? || act.Crashes? || act.RetryReads? }

  /** One step of a process that loses no lock. */
  lemma Move(o: State, s: State, w: WorkerId, act: Act, j: JobId) returns (t: State)
    requires Here(o, s, j) && Enabled(s, By(w, act)) && !Harmful(act)
    ensures Here(o, t, j)
    ensures At(t, w) == PcAfter(s, w, act) && t.jobs == JobsAfter(s, w, act) && t.locks == LocksAfter(s, w, act)
    ensures t.leaked == s.leaked && t.degraded == s.degraded
    ensures t.broker == if act.Take? then s.broker - multiset{act.j} else s.broker
    ensures forall v | v != w :: At(t, v) == At(s, v)
  {
    LockInvStep(s, By(w, act));
    Extend(o, s, By(w, act), Alone(j));
    t := Next(s, By(w, act));
    hide LeadsTo, LockInv, Enabled, PcAfter, JobsAfter, LocksAfter;
  }

  /** Everything but the acting process and the lock of a case is as before. */
  ghost predicate SameBut(s: State, t: State, w: WorkerId) {
    && t.jobs == s.jobs && t.leaked == s.leaked && forall v | v != w :: At(t, v) == At(s, v)
  }

  lemma Known(o: State, s: State, w: WorkerId, j: JobId)
    requires Here(o, s, j) && !At(s, w).Idle?
    ensures var c := At(s, w).c; c.job in s.jobs && s.jobs[c.job].caseId == c.caseId && s.jobs[c.job].risk == c.risk
    ensures InSection(At(s, w)) && At(s, w).c.risk.IsWrite() ==>
              At(s, w).c.caseId in s.locks && s.locks[At(s, w).c.caseId] == At(s, w).c.job && At(s, w).c.caseId !in s.leaked
  {
    var c := At(s, w).c;
    assert InSection(At(s, w)) && c.risk.IsWrite() ==> Holds(s, w, c.caseId);
  }

  /** Whoever is in its section can get to its release without storing anything. */
  lemma Finish(o: State, s: State, u: WorkerId, j: JobId) returns (t: State)
    requires Here(o, s, j) && InSection(At(s, u))
    ensures Here(o, t, j) && SameBut(s, t, u) && At(t, u).Finishing? && At(t, u).c == At(s, u).c
  {
    hide Here;
    t := s;
    if At(s, u).Entered? {
      t := Move(o, s, u, UiStarts, j);
    }
    if !At(s, u).Finishing? {
      t := Move(o, t, u, Raises, j);
    }
  }

  /** Whoever holds a case can leave without storing anything. */
  lemma Evict(o: State, s: State, u: WorkerId, c: CaseId, j: JobId) returns (t: State)
    requires Here(o, s, j) && Holds(s, u, c)
    ensures Here(o, t, j) && SameBut(s, t, u) && c !in t.locks
  {
    t := Finish(o, s, u, j);
    Known(o, t, u, j);
    hide Here;
    t := Move(o, t, u, Releases, j);
  }

  lemma FlagOff(o: State, s: State, j: JobId) returns (t: State)
    requires Here(o, s, j)
    ensures Here(o, t, j) && t == s.(degraded := false)
  {
    LockInvStep(s, SetDegraded(false));
    Extend(o, s, SetDegraded(false), Alone(j));
    t := Next(s, SetDegraded(false));
  }

  predicate Starting(p: Pc) { p.Loaded? || p.Gated? || p.Entered? || p.Trying? }

  /** A process past the lock gets to the point of storing RUNNING. */
  lemma Begin(o: State, s: State, w: WorkerId, j: JobId) returns (t: State)
    requires Here(o, s, j) && (At(s, w).Entered? || At(s, w).Trying?)
    ensures Here(o, t, j) && SameBut(s, t, w) && At(t, w) == Trying(At(s, w).c)
  {
    hide Here;
    t := s;
    if At(s, w).Entered? {
      t := Move(o, s, w, UiStarts, j);
    }
  }

  lemma Gate(o: State, s: State, w: WorkerId, j: JobId) returns (t: State)
    requires Here(o, s, j) && At(s, w).Loaded?
    ensures Here(o, t, j) && SameBut(s, t, w) && At(t, w) == Gated(At(s, w).c.(actions := 0)) && t.locks == s.locks
  {
    hide Here;
    t := FlagOff(o, s, j);
    t := Move(o, t, w, GatePasses(0), j);
  }

  /** So does any process that can start, given that it finds the case free. */
  lemma Start(o: State, s: State, w: WorkerId, j: JobId) returns (t: State)
    requires Here(o, s, j) && Starting(At(s, w)) && At(s, w).c.job == j
    requires s.jobs[j].risk.IsWrite() && (At(s, w).Loaded? || At(s, w).Gated?) ==> s.jobs[j].caseId !in s.locks
    ensures Here(o, t, j) && SameBut(s, t, w)
    ensures At(t, w).Trying? && At(t, w).c == At(s, w).c.(actions := At(t, w).c.actions)
  {
    Known(o, s, w, j);
    hide Here;
    t := s;
    if At(s, w).Loaded? {
      t := Gate(o, s, w, j);
    }
    if At(t, w).Gated? {
      t := Move(o, t, w, if At(t, w).c.risk.IsWrite() then AcquireOk else SkipsLock, j);
    }
    t := Begin(o, t, w, j);
  }

  /** The job's counters after a store from copy `c`. */
  predicate Stored(s: State, t: State, j: JobId, c: Copy) {
    && j in s.jobs && j in t.jobs && t.jobs[j].risk == s.jobs[j].risk && t.jobs[j].caseId == s.jobs[j].caseId
    && t.jobs[j].attempt == c.attempt + 1 && t.jobs[j].Version() == s.jobs[j].Version() + 1
  }

  /** Any process that can count stores its count, leaving `v` where it is if `v` does not
      hold the case, and holds nothing afterwards. */
  lemma Fire(o: State, s: State, w: WorkerId, v: WorkerId, j: JobId) returns (t: State)
    requires Here(o, s, j) && CanCount(s, At(s, w), j) && w != v && !Holds(s, v, s.jobs[j].caseId)
    ensures Here(o, t, j) && Stored(s, t, j, At(s, w).c) && t.leaked == s.leaked && At(t, v) == At(s, v)
    ensures !InSection(At(t, w))
  {
    assert j in s.jobs;
    hide Here;
    if At(s, w).Retrying? {
      t := Move(o, s, w, RetryStores, j);
    } else {
      var a := Clear(o, s, w, v, j);
      a := Start(o, a, w, j);
      t := Count(o, a, w, j);
      hide CanCount, Starting;
    }
  }

  lemma Count(o: State, s: State, w: WorkerId, j: JobId) returns (t: State)
    requires Here(o, s, j) && At(s, w).Trying? && At(s, w).c.job == j
    ensures Here(o, t, j) && Stored(s, t, j, At(s, w).c) && t.leaked == s.leaked && !InSection(At(t, w))
    ensures forall v | v != w :: At(t, v) == At(s, v)
  {
    assert j in s.jobs;
    hide Here;
    t := Move(o, s, w, StoresRunning, j);
    t := Move(o, t, w, Raises, j);
    t := Move(o, t, w, Releases, j);
  }

  /** Whoever else holds the case leaves. */
  lemma Clear(o: State, s: State, w: WorkerId, v: WorkerId, j: JobId) returns (t: State)
    requires Here(o, s, j) && CanCount(s, At(s, w), j) && Starting(At(s, w)) && w != v && !Holds(s, v, s.jobs[j].caseId)
    ensures Here(o, t, j) && t.jobs == s.jobs && t.leaked == s.leaked && At(t, v) == At(s, v) && At(t, w) == At(s, w)
    ensures s.jobs[j].risk.IsWrite() && (At(s, w).Loaded? || At(s, w).Gated?) ==> s.jobs[j].caseId !in t.locks
  {
    t := s;
    var c := s.jobs[j].caseId;
    if s.jobs[j].risk.IsWrite() && (At(s, w).Loaded? || At(s, w).Gated?) && c in s.locks {
      var u := Holder(o, s, c, j);
      hide Here;
      t := Evict(o, s, u, c, j);
    }
  }

  lemma Holder(o: State, s: State, c: CaseId, j: JobId) returns (u: WorkerId)
    requires Here(o, s, j) && c in s.locks && c !in s.leaked
    ensures Holds(s, u, c)
  {
    u :| Holds(s, u, c);
  }

  ghost predicate Breaks(o: State, j: JobId) {
    exists t :: LeadsTo(o, t, Alone(j)) && !Exact(t, j)
  }

  /** A count from an outdated copy breaks the counter. */
  lemma StaleBreaks(o: State, s: State, w: WorkerId, j: JobId)
    requires Here(o, s, j) && CountInv(s) && CanCount(s, At(s, w), j) && At(s, w).c.seen != s.jobs[j].Version()
    ensures Breaks(o, j)
  {
    assert CopyCounts(s, At(s, w).c);
    var v := FreshNumber(s.workers.Keys + {w});
    assert At(s, v).Idle?;
    var t := Fire(o, s, w, v, j);
    assert !Exact(t, j);
  }

  /** Of two processes that can count the second breaks the counter; the one that holds the
      case goes first. */
  lemma TwoBreak(o: State, s: State, w: WorkerId, v: WorkerId, j: JobId)
    requires Here(o, s, j) && CountInv(s) && w != v && CanCount(s, At(s, w), j) && CanCount(s, At(s, v), j)
    requires !Holds(s, v, s.jobs[j].caseId)
    ensures Breaks(o, j)
  {
    assert CopyCounts(s, At(s, v).c);
    hide CountInv;
    var t := Fire(o, s, w, v, j);
    var u := Fire(o, t, v, w, j);
    assert !Exact(u, j);
    hide LockInv;
  }

  lemma OneOutside(o: State, s: State, w: WorkerId, v: WorkerId, j: JobId)
    requires Here(o, s, j) && w != v
    ensures !Holds(s, v, s.jobs[j].caseId) || !Holds(s, w, s.jobs[j].caseId)
  {
  }

  lemma {:induction false} ManyBreak(o: State, s: State, j: JobId)
    requires Here(o, s, j) && CountInv(s) && Pending(s, j) >= 2
    ensures Breaks(o, j)
    decreases s.broker[j]
  {
    assert j in s.jobs;
    hide Here, Breaks, CountInv;
    if |Counters(s, j)| >= 2 {
      var w, v := TwoOf(Counters(s, j));
      IsCounter(s, j, w);
      IsCounter(s, j, v);
      OneOutside(o, s, w, v, j);
      if Holds(s, v, s.jobs[j].caseId) { TwoBreak(o, s, v, w, j); } else { TwoBreak(o, s, w, v, j); }
    } else {
      var t := OneMore(o, s, j);
      ManyBreak(o, t, j);
    }
  }

  /** A fresh process takes a delivery. */
  lemma OneMore(o: State, s: State, j: JobId) returns (t: State)
    requires Here(o, s, j) && CountInv(s) && !Barred(s, j) && j in s.broker
    ensures Here(o, t, j) && CountInv(t) && t.broker[j] == s.broker[j] - 1 && Pending(t, j) == Pending(s, j)
  {
    var w := FreshNumber(s.workers.Keys);
    assert At(s, w).Idle?;
    var e := By(w, Take(j));
    CountInvStep(s, e);
    LockInvStep(s, e);
    Extend(o, s, e, Alone(j));
    t := Next(s, e);
    TakenCounts(s, t, w, CopyOf(s, j));
    hide LockInv, CountInv, LeadsTo, Pending, Enabled;
  }

  lemma TakenCounts(s: State, t: State, w: WorkerId, c: Copy)
    requires w !in s.workers && c.job in s.jobs && c.job in s.broker && !Barred(s, c.job)
    requires t.jobs == s.jobs && t.leaked == s.leaked && t.workers == s.workers[w := Loaded(c)] && t.broker == s.broker - multiset{c.job}
    ensures t.broker[c.job] == s.broker[c.job] - 1 && Pending(t, c.job) == Pending(s, c.job)
  {
    assert Barred(t, c.job) == Barred(s, c.job);
    hide Barred;
    assert Counters(t, c.job) == Counters(s, c.job) + {w};
  }

  // ---------- main result ----------

  /** Exactly: `attempt` equals the stored starts plus retries at every point of every run
      in which nobody dispatches the job or asks for a retry, if and only if it does now, at
      most one delivery or process is left that can store it (for a write job of a case that
      leaked its lock only a retry can), and that process read the row in its present
      version. */
  lemma AttemptStaysExact(s: State, j: JobId)
    requires Reachable(s) && j in s.jobs
    ensures StaysExact(s, j) <==> CounterSafe(s, j)
  {
    LockInvReachable(s);
    CountInvReachable(s);
    if CounterSafe(s, j) {
      forall ss, es | RunOf(ss, es, Alone(j)) && ss[0] == s ensures forall k: nat | k <= |es| :: Exact(ss[k], j) {
        forall k: nat | k <= |es| ensures Exact(ss[k], j) { SafeStays(ss, es, k, j); }
      }
    } else {
      LeadsToItself(s, Alone(j));
      Unsafe(s, j);
      var t :| LeadsTo(s, t, Alone(j)) && !Exact(t, j);
      var ss, es :| RunOf(ss, es, Alone(j)) && ss[0] == s && ss[|es|] == t;
      assert !Exact(ss[|es|], j);
    }
  }

  lemma Unsafe(s: State, j: JobId)
    requires Here(s, s, j) && CountInv(s) && !CounterSafe(s, j)
    ensures Breaks(s, j)
  {
    if Exact(s, j) {
      if Pending(s, j) >= 2 {
        ManyBreak(s, s, j);
      } else {
        var w :| CanCount(s, At(s, w), j) && At(s, w).c.seen != s.jobs[j].Version();
        StaleBreaks(s, s, w, j);
      }
    } else {
      assert LeadsTo(s, s, Alone(j));
    }
  }
}
