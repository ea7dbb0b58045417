/** When the audit rows of a read-only job, which takes no lock, stay whole executions. */
module ReadOnlyTrail {
  import opened BotTypes
  import opened CaseLock
  import opened Collections
  import opened JobProtocol
  import opened LockSafety
  import opened AuditTrail

  /** A process that can still append a row of the job. */
  predicate CanAppend(p: Pc, j: JobId) {
    !p.Idle? && p.c.job == j
    && (p.Loaded? || p.Gated? || p.Entered? || p.Trying? || (p.Working? && p.next < 2 + p.c.actions))
  }

  function Appenders(s: State, j: JobId): set<WorkerId> {
    set w | w in s.workers && CanAppend(s.workers[w], j)
  }

  /** Deliveries of the job in the broker and processes that can still append. */
  function Pending(s: State, j: JobId): nat {
    s.broker[j] + |Appenders(s, j)|
  }

  /** Every process among its rows continues them. */
  ghost predicate AllContinue(s: State, j: JobId)
    requires j in s.jobs
  {
    forall w | CanAppend(At(s, w), j) && At(s, w).Working? :: Continues(s.jobs[j].rows, At(s, w).next)
  }

  ghost predicate TrailSafe(s: State, j: JobId) {
    j in s.jobs && GoodRows(s.jobs[j].rows) && Pending(s, j) <= 1 && AllContinue(s, j)
  }

  /** Everything but another dispatch of the job. */
  function NoDispatch(j: JobId): Event -> bool {
    (e: Event) => e != Dispatch(j)
  }

  ghost predicate Whole(s: State, j: JobId) {
    j in s.jobs && GoodRows(s.jobs[j].rows)
  }

  ghost predicate StaysWhole(s: State, j: JobId) {
    forall ss, es | RunOf(ss, es, NoDispatch(j)) && ss[0] == s :: forall k: nat | k <= |es| :: Whole(ss[k], j)
  }

  // ---------- one pending writer ----------

  /** Whoever can append after a step could before it, or has just taken a delivery. */
  lemma AppenderCameFrom(s: State, e: Event, j: JobId, w: WorkerId)
    requires Enabled(s, e) && CanAppend(At(Next(s, e), w), j)
    ensures CanAppend(At(s, w), j) || e == By(w, Take(j))
  {
    assert !e.By? || e.w != w ==> At(Next(s, e), w) == At(s, w);
  }

  lemma BrokerStep(s: State, e: Event, j: JobId)
    requires Enabled(s, e) && e != Dispatch(j)
    ensures Next(s, e).broker[j] == s.broker[j] - (if e.By? && e.act == Take(j) then 1 else 0)
  {
  }

  lemma IsAppender(s: State, j: JobId, w: WorkerId)
    ensures w in Appenders(s, j) <==> CanAppend(At(s, w), j)
  {
  }

  lemma PendingStep(s: State, e: Event, j: JobId)
    requires Enabled(s, e) && e != Dispatch(j)
    ensures Pending(Next(s, e), j) <= Pending(s, j)
  {
    var t := Next(s, e);
    BrokerStep(s, e, j);
    var joined: set<WorkerId> := if e.By? && e.act == Take(j) then {e.w} else {};
    forall w | w in Appenders(t, j) ensures w in Appenders(s, j) + joined {
      IsAppender(t, j, w);
      AppenderCameFrom(s, e, j, w);
      IsAppender(s, j, w);
    }
    hide Enabled, Next, Appenders;
    SubsetSize(Appenders(t, j), Appenders(s, j) + joined);
  }

  lemma OnlyOne(s: State, j: JobId, w: WorkerId, v: WorkerId)
    requires Pending(s, j) <= 1 && CanAppend(At(s, w), j) && CanAppend(At(s, v), j)
    ensures w == v
  {
    SubsetSize({w, v}, Appenders(s, j));
  }

  lemma SafeStep(s: State, e: Event, j: JobId)
    requires TrailSafe(s, j) && Enabled(s, e) && e != Dispatch(j)
    ensures TrailSafe(Next(s, e), j)
  {
    PendingStep(s, e, j);
    var t := Next(s, e);
    hide Pending;
    if e.By? && e.act.AppendsRow? && At(s, e.w).c.job == j {
      GoodRowsSnoc(s.jobs[j].rows, At(s, e.w).next, e.act.ok);
      forall w | CanAppend(At(t, w), j) && At(t, w).Working? ensures Continues(t.jobs[j].rows, At(t, w).next) {
        if w != e.w {
          OthersStay(s, e, w);
          OnlyOne(s, j, w, e.w);
        }
      }
    } else {
      assert t.jobs[j].rows == s.jobs[j].rows;
      forall w | CanAppend(At(t, w), j) && At(t, w).Working? ensures Continues(t.jobs[j].rows, At(t, w).next) {
        assert At(t, w) == At(s, w) || At(t, w).next == 0;
      }
    }
  }

  lemma {:induction false} SafeStays(ss: seq<State>, es: seq<Event>, k: nat, j: JobId)
    requires RunOf(ss, es, NoDispatch(j)) && k <= |es| && TrailSafe(ss[0], j)
    ensures TrailSafe(ss[k], j)
  {
    if k > 0 {
      SafeStays(ss, es, k - 1, j);
      assert StepAt(ss, es, k - 1);
      SafeStep(ss[k - 1], es[k - 1], j);
    }
  }

  // ---------- two pending writers ----------

  lemma Step(o: State, s: State, w: WorkerId, act: Act, j: JobId) returns (t: State)
    requires LeadsTo(o, s, NoDispatch(j)) && CopiesAgree(s) && Enabled(s, By(w, act))
    ensures LeadsTo(o, t, NoDispatch(j)) && CopiesAgree(t)
    ensures At(t, w) == PcAfter(s, w, act) && t.jobs == JobsAfter(s, w, act)
    ensures forall v | v != w :: At(t, v) == At(s, v)
    ensures t.broker == if act.Take? then s.broker - multiset{act.j} else s.broker
  {
    CopiesAgreeStep(s, By(w, act));
    Extend(o, s, By(w, act), NoDispatch(j));
    t := Next(s, By(w, act));
    hide LeadsTo, CopiesAgree, Enabled, PcAfter, JobsAfter, LocksAfter;
  }

  /** Some run breaks the trail. */
  ghost predicate Breaks(o: State, j: JobId) {
    exists t :: LeadsTo(o, t, NoDispatch(j)) && !Whole(t, j)
  }

  ghost predicate ReadOnlyJob(s: State, j: JobId) {
    j in s.jobs && s.jobs[j].risk.ReadOnly?
  }

  /** Process `w` is about to append number `n` of job `j`. */
  predicate About(s: State, w: WorkerId, j: JobId, n: nat) {
    At(s, w).Working? && At(s, w).c.job == j && At(s, w).next == n < 2 + At(s, w).c.actions
  }

  lemma Append(o: State, s: State, w: WorkerId, j: JobId, n: nat) returns (t: State)
    requires LeadsTo(o, s, NoDispatch(j)) && CopiesAgree(s) && ReadOnlyJob(s, j) && About(s, w, j, n)
    ensures LeadsTo(o, t, NoDispatch(j)) && CopiesAgree(t) && ReadOnlyJob(t, j)
    ensures t.jobs[j].rows == s.jobs[j].rows + [StepRow(n, true)]
    ensures n + 1 < 2 + At(s, w).c.actions ==> About(t, w, j, n + 1)
    ensures At(t, w).Working? && At(t, w).c == At(s, w).c
    ensures forall v | v != w :: At(t, v) == At(s, v)
  {
    hide LeadsTo, CopiesAgree;
    t := Step(o, s, w, AppendsRow(true), j);
  }

  lemma AppendBreaks(o: State, s: State, w: WorkerId, j: JobId, n: nat)
    requires LeadsTo(o, s, NoDispatch(j)) && CopiesAgree(s) && ReadOnlyJob(s, j) && About(s, w, j, n)
    requires !Continues(s.jobs[j].rows, n)
    ensures Breaks(o, j)
  {
    var t := Append(o, s, w, j, n);
    assert !GoodRow(t.jobs[j].rows, |s.jobs[j].rows|);
  }

  /** Any process that can append can get to a row without disturbing the others. */
  lemma {:induction false} Drive(o: State, s: State, w: WorkerId, j: JobId) returns (t: State)
    requires LeadsTo(o, s, NoDispatch(j)) && CopiesAgree(s) && ReadOnlyJob(s, j) && CanAppend(At(s, w), j)
    ensures LeadsTo(o, t, NoDispatch(j)) && CopiesAgree(t) && ReadOnlyJob(t, j) && t.jobs[j].rows == s.jobs[j].rows
    ensures At(t, w).Working? && About(t, w, j, At(t, w).next)
    ensures forall v | v != w :: At(t, v) == At(s, v)
    decreases match At(s, w) case Loaded(_) => 4 case Gated(_) => 3 case Entered(_) => 2 case Trying(_) => 1 case _ => 0
  {
    RiskKnown(s, w);
    hide LeadsTo, CopiesAgree;
    t := s;
    if !At(s, w).Working? {
      var act := match At(s, w) case Loaded(_) => GatePasses(0) case Gated(_) => SkipsLock case Entered(_) => UiStarts
                                case _ => StoresRunning;
      t := Step(o, s, w, act, j);
      t := Drive(o, t, w, j);
    }
  }

  lemma RiskKnown(s: State, w: WorkerId)
    requires CopiesAgree(s) && !At(s, w).Idle?
    ensures var c := At(s, w).c; c.job in s.jobs && c.risk == s.jobs[c.job].risk
  {
  }

  /** Two processes among the rows of one job break them. */
  lemma TwoWorkingBreak(o: State, s: State, w: WorkerId, v: WorkerId, j: JobId, n: nat, m: nat)
    requires LeadsTo(o, s, NoDispatch(j)) && CopiesAgree(s) && ReadOnlyJob(s, j)
    requires w != v && About(s, w, j, n) && About(s, v, j, m) && n <= m
    ensures Breaks(o, j)
  {
    hide LeadsTo, CopiesAgree, Breaks;
    if !Continues(s.jobs[j].rows, m) {
      AppendBreaks(o, s, v, j, m);
    } else {
      var a := Append(o, s, w, j, n);
      if !Continues(a.jobs[j].rows, m) {
        AppendBreaks(o, a, v, j, m);
      } else if m == 0 {
        ZerosBreak(o, a, w, v, j);
      } else {
        // `n` is 0 and `m` is 1, or `w` has not continued the rows
        LateBreak(o, s, a, w, v, j, n, m);
      }
    }
  }

  lemma LateBreak(o: State, s: State, a: State, w: WorkerId, v: WorkerId, j: JobId, n: nat, m: nat)
    requires LeadsTo(o, s, NoDispatch(j)) && CopiesAgree(s) && ReadOnlyJob(s, j) && About(s, w, j, n)
    requires LeadsTo(o, a, NoDispatch(j)) && CopiesAgree(a) && ReadOnlyJob(a, j) && w != v && About(a, v, j, m) && 0 < m
    requires a.jobs[j].rows == s.jobs[j].rows + [StepRow(n, true)]
    requires n + 1 < 2 + At(s, w).c.actions ==> About(a, w, j, n + 1)
    requires Continues(s.jobs[j].rows, m) && Continues(a.jobs[j].rows, m)
    ensures Breaks(o, j)
  {
    hide LeadsTo, CopiesAgree, Breaks;
    assert m == n + 1;
    if n == 0 {
      var b := Append(o, a, w, j, 1);
      AppendBreaks(o, b, v, j, 1);
    } else {
      AppendBreaks(o, s, w, j, n);
    }
  }

  lemma ZerosBreak(o: State, a: State, w: WorkerId, v: WorkerId, j: JobId)
    requires LeadsTo(o, a, NoDispatch(j)) && CopiesAgree(a) && ReadOnlyJob(a, j) && w != v && About(a, w, j, 1) && About(a, v, j, 0)
    ensures Breaks(o, j)
  {
    hide LeadsTo, CopiesAgree, Breaks;
    var b := Append(o, a, v, j, 0);
    var c := Append(o, b, w, j, 1);
    AppendBreaks(o, c, v, j, 1);
  }

  lemma TwoBreak(o: State, s: State, w: WorkerId, v: WorkerId, j: JobId)
    requires LeadsTo(o, s, NoDispatch(j)) && CopiesAgree(s) && ReadOnlyJob(s, j)
    requires w != v && CanAppend(At(s, w), j) && CanAppend(At(s, v), j)
    ensures Breaks(o, j)
  {
    hide LeadsTo, CopiesAgree, Breaks;
    var a := Drive(o, s, w, j);
    var b := Drive(o, a, v, j);
    if At(b, w).next <= At(b, v).next {
      TwoWorkingBreak(o, b, w, v, j, At(b, w).next, At(b, v).next);
    } else {
      TwoWorkingBreak(o, b, v, w, j, At(b, v).next, At(b, w).next);
    }
  }

  /** Deliveries are taken by fresh processes until two can append. */
  lemma {:induction false} ManyBreak(o: State, s: State, j: JobId)
    requires LeadsTo(o, s, NoDispatch(j)) && CopiesAgree(s) && ReadOnlyJob(s, j) && Pending(s, j) >= 2
    ensures Breaks(o, j)
    decreases s.broker[j]
  {
    hide LeadsTo, CopiesAgree, Breaks;
    if |Appenders(s, j)| >= 2 {
      var w, v := TwoOf(Appenders(s, j));
      TwoBreak(o, s, w, v, j);
    } else {
      var w := FreshNumber(s.workers.Keys);
      assert At(s, w).Idle? && j in s.broker;
      var t := Step(o, s, w, Take(j), j);
      forall v ensures v in Appenders(t, j) <==> v in Appenders(s, j) + {w} {
        assert v != w ==> At(t, v) == At(s, v);
        assert v in Appenders(t, j) <==> CanAppend(At(t, v), j);
        assert v in Appenders(s, j) <==> CanAppend(At(s, v), j);
      }
      assert Appenders(t, j) == Appenders(s, j) + {w};
      ManyBreak(o, t, j);
    }
  }

  // ---------- main results ----------

  /** Exactly: over every run in which nobody dispatches the read-only job again its audit
      rows stay whole executions laid end to end, if and only if they are so now, at most
      one delivery or process is left that can append a row, and that process, if it is
      among its rows, continues them. */
  lemma TrailStaysWhole(s: State, j: JobId)
    requires Reachable(s) && ReadOnlyJob(s, j)
    ensures StaysWhole(s, j) <==> TrailSafe(s, j)
  {
    LockInvReachable(s);
    if TrailSafe(s, j) {
      forall ss, es | RunOf(ss, es, NoDispatch(j)) && ss[0] == s ensures forall k: nat | k <= |es| :: Whole(ss[k], j) {
        forall k: nat | k <= |es| ensures Whole(ss[k], j) { SafeStays(ss, es, k, j); }
      }
    } else {
      LeadsToItself(s, NoDispatch(j));
      Unsafe(s, j);
      var t :| LeadsTo(s, t, NoDispatch(j)) && !Whole(t, j);
      var ss, es :| RunOf(ss, es, NoDispatch(j)) && ss[0] == s && ss[|es|] == t;
      assert !Whole(ss[|es|], j);
    }
  }

  lemma Unsafe(s: State, j: JobId)
    requires LeadsTo(s, s, NoDispatch(j)) && CopiesAgree(s) && ReadOnlyJob(s, j) && !TrailSafe(s, j)
    ensures Breaks(s, j)
  {
    if Whole(s, j) {
      if Pending(s, j) >= 2 {
        ManyBreak(s, s, j);
      } else {
        var w :| CanAppend(At(s, w), j) && At(s, w).Working? && !Continues(s.jobs[j].rows, At(s, w).next);
        AppendBreaks(s, s, w, j, At(s, w).next);
      }
    }
  }

  function Dispatches(es: seq<Event>, j: JobId): nat {
    if |es| == 0 then 0 else Dispatches(es[..|es| - 1], j) + (if es[|es| - 1] == Dispatch(j) then 1 else 0)
  }

  lemma {:induction false} FewDispatches(es: seq<Event>, k: nat, j: JobId)
    requires k <= |es|
    ensures Dispatches(es[..k], j) <= Dispatches(es, j)
    decreases |es|
  {
    if k < |es| {
      FewDispatches(es[..|es| - 1], k, j);
      assert es[..|es| - 1][..k] == es[..k];
    } else {
      assert es[..k] == es;
    }
  }

  /** What holds while a job was dispatched at most once. */
  ghost predicate OnceInv(s: State, j: JobId, dispatched: nat) {
    Pending(s, j) <= dispatched && (j !in s.jobs ==> dispatched == 0) && (j in s.jobs ==> TrailSafe(s, j))
  }

  lemma OnceStep(s: State, e: Event, j: JobId, dispatched: nat)
    requires OnceInv(s, j, dispatched) && Enabled(s, e)
    requires dispatched + (if e == Dispatch(j) then 1 else 0) <= 1
    ensures OnceInv(Next(s, e), j, dispatched + (if e == Dispatch(j) then 1 else 0))
  {
    var t := Next(s, e);
    if e == Dispatch(j) {
      assert Appenders(t, j) == Appenders(s, j) && t.broker[j] == s.broker[j] + 1;
      assert forall w :: At(t, w) == At(s, w);
    } else {
      PendingStep(s, e, j);
      if j in s.jobs {
        SafeStep(s, e, j);
      } else if j in t.jobs {
        forall w ensures !CanAppend(At(t, w), j) {
          assert CanAppend(At(t, w), j) ==> w in Appenders(t, j);
        }
      }
    }
  }

  lemma {:induction false} OnceAlways(ss: seq<State>, es: seq<Event>, k: nat, j: JobId)
    requires IsRun(ss, es) && k <= |es| && ss[0] == INITIAL && Dispatches(es, j) <= 1
    ensures OnceInv(ss[k], j, Dispatches(es[..k], j))
  {
    if k > 0 {
      OnceAlways(ss, es, k - 1, j);
      assert StepAt(ss, es, k - 1);
      assert es[..k][..k - 1] == es[..k - 1];
      FewDispatches(es, k, j);
      OnceStep(ss[k - 1], es[k - 1], j, Dispatches(es[..k - 1], j));
    }
  }

  /** From the start: a job of any risk level that is dispatched at most once has whole
      executions as its audit rows at every point of every run. */
  lemma {:induction false} DispatchedOnceStaysWhole(ss: seq<State>, es: seq<Event>, k: nat, j: JobId)
    requires IsRun(ss, es) && k <= |es| && ss[0] == INITIAL && Dispatches(es, j) <= 1 && j in ss[k].jobs
    ensures exists segs :: ss[k].jobs[j].rows == Flatten(segs) && forall seg | seg in segs :: IsSegment(seg)
  {
    OnceAlways(ss, es, k, j);
    GoodRowsAreSegments(ss[k].jobs[j].rows);
  }
}
