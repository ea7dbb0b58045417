/** When write jobs can still write although the degraded flag is on and stays on. */
module DegradedGate {
  import opened BotTypes
  import opened CaseLock
  import opened JobProtocol
  import opened LockSafety

  ghost predicate FreeOrHeld(s: State, c: CaseId) {
    c !in s.locks || exists v :: Holds(s, v, c)
  }

  /** A write process past the gate that is not done with its rows: in its section with rows
      to come, or waiting for a case that is free or will be freed by its holder. */
  ghost predicate MayWrite(s: State, w: WorkerId) {
    var p := At(s, w);
    !p.Idle? && p.c.risk.IsWrite()
    && (p.Entered? || p.Trying? || (p.Working? && p.next < 2 + p.c.actions) || (p.Gated? && FreeOrHeld(s, p.c.caseId)))
  }

  /** The event stores an audit row of a write job. */
  predicate WritesRow(s: State, e: Event) {
    e.By? && e.act.AppendsRow? && !At(s, e.w).Idle? && At(s, e.w).c.job in s.jobs && s.jobs[At(s, e.w).c.job].risk.IsWrite()
  }

  /** Everything but clearing the flag. */
  const KEEPING := (e: Event) => e != SetDegraded(false)

  ghost predicate WriteFollows(s: State) {
    exists t, e :: LeadsTo(s, t, KEEPING) && Enabled(t, e) && WritesRow(t, e)
  }

  // ---------- nobody may write: nobody does ----------

  ghost predicate Barred(s: State) {
    s.degraded && LockInv(s) && forall w :: !MayWrite(s, w)
  }

  /** A process waiting for a case that is neither free nor held waits for a leaked one. */
  lemma WaitsForLeaked(s: State, w: WorkerId)
    requires LockInv(s) && !MayWrite(s, w) && At(s, w).Gated? && At(s, w).c.risk.IsWrite()
    ensures At(s, w).c.caseId in s.leaked
  {
  }

  lemma LeakedBars(s: State, c: CaseId)
    requires LockInv(s) && c in s.leaked
    ensures !FreeOrHeld(s, c)
  {
  }

  lemma BarredStep(s: State, e: Event)
    requires Barred(s) && Enabled(s, e) && e != SetDegraded(false)
    ensures Barred(Next(s, e)) && !WritesRow(s, e)
  {
    LockInvStep(s, e);
    var t := Next(s, e);
    assert e.By? ==> !MayWrite(s, e.w);
    forall w ensures !MayWrite(t, w) {
      assert !MayWrite(s, w);
      if At(t, w).Gated? && At(t, w).c.risk.IsWrite() {
        BarredGated(s, e, w);
      } else if !e.By? || e.w != w {
        OthersStay(s, e, w);
      }
    }
  }

  lemma BarredGated(s: State, e: Event, w: WorkerId)
    requires Barred(s) && Enabled(s, e) && e != SetDegraded(false)
    requires At(Next(s, e), w).Gated? && At(Next(s, e), w).c.risk.IsWrite()
    ensures !MayWrite(Next(s, e), w)
  {
    assert At(s, w) == At(Next(s, e), w);
    assert !MayWrite(s, w);
    WaitsForLeaked(s, w);
    LeakStep(s, e, At(s, w).c.caseId);
    LockInvStep(s, e);
    LeakedBars(Next(s, e), At(s, w).c.caseId);
  }

  lemma {:induction false} BarredStays(ss: seq<State>, es: seq<Event>, k: nat)
    requires RunOf(ss, es, KEEPING) && k <= |es| && Barred(ss[0])
    ensures Barred(ss[k])
  {
    if k > 0 {
      BarredStays(ss, es, k - 1);
      assert StepAt(ss, es, k - 1);
      BarredStep(ss[k - 1], es[k - 1]);
    }
  }

  // ---------- somebody may write: some run does ----------

  /** One step of a process, with what the rest of the argument needs of it. */
  lemma Step(o: State, s: State, w: WorkerId, act: Act) returns (t: State)
    requires LeadsTo(o, s, KEEPING) && LockInv(s) && Enabled(s, By(w, act))
    ensures LeadsTo(o, t, KEEPING) && LockInv(t)
    ensures At(t, w) == PcAfter(s, w, act) && t.locks == LocksAfter(s, w, act)
    ensures forall v | v != w :: At(t, v) == At(s, v)
  {
    LockInvStep(s, By(w, act));
    Extend(o, s, By(w, act), KEEPING);
    t := Next(s, By(w, act));
    hide LeadsTo, LockInv, Enabled, PcAfter, JobsAfter, LocksAfter;
  }

  /** A write process in its section with rows to come can append one. */
  lemma {:induction false} SectionWrites(o: State, s: State, w: WorkerId)
    requires LeadsTo(o, s, KEEPING) && LockInv(s) && !At(s, w).Idle? && At(s, w).c.risk.IsWrite()
    requires At(s, w).Entered? || At(s, w).Trying? || (At(s, w).Working? && At(s, w).next < 2 + At(s, w).c.actions)
    ensures WriteFollows(o)
    decreases match At(s, w) case Entered(_) => 2 case Trying(_) => 1 case _ => 0
  {
    hide LeadsTo, LockInv;
    JobThere(s, w);
    match At(s, w)
    case Entered(c) => var t := Step(o, s, w, UiStarts); SectionWrites(o, t, w);
    case Trying(c) => var t := Step(o, s, w, StoresRunning); SectionWrites(o, t, w);
    case Working(c, n) => assert WritesRow(s, By(w, AppendsRow(true)));
  }

  lemma JobThere(s: State, w: WorkerId)
    requires LockInv(s) && !At(s, w).Idle?
    ensures var c := At(s, w).c; c.job in s.jobs && s.jobs[c.job].risk == c.risk
  {
  }

  lemma FreeWrites(o: State, s: State, w: WorkerId)
    requires LeadsTo(o, s, KEEPING) && LockInv(s) && At(s, w).Gated? && At(s, w).c.risk.IsWrite() && At(s, w).c.caseId !in s.locks
    ensures WriteFollows(o)
  {
    hide LeadsTo, LockInv, WriteFollows;
    var t := Step(o, s, w, AcquireOk);
    SectionWrites(o, t, w);
  }

  /** The holder of a case either has rows to come itself or leaves and frees the case. */
  lemma {:induction false} HeldWrites(o: State, s: State, w: WorkerId, v: WorkerId)
    requires LeadsTo(o, s, KEEPING) && LockInv(s) && At(s, w).Gated? && At(s, w).c.risk.IsWrite() && Holds(s, v, At(s, w).c.caseId)
    ensures WriteFollows(o)
  {
    var q := At(s, v);
    if q.Entered? || q.Trying? || (q.Working? && q.next < 2 + q.c.actions) {
      SectionWrites(o, s, v);
    } else {
      OwnsCase(s, v, At(s, w).c.caseId);
      hide LeadsTo, LockInv, WriteFollows;
      var t := s;
      if q.Working? {
        t := Step(o, s, v, Raises);
      }
      t := Step(o, t, v, Releases);
      FreeWrites(o, t, w);
    }
  }

  lemma OwnsCase(s: State, v: WorkerId, c: CaseId)
    requires LockInv(s) && Holds(s, v, c)
    ensures c in s.locks && s.locks[c] == At(s, v).c.job && At(s, v).c.caseId == c
  {
  }

  /** Exactly: in a reachable state with the flag on, some run that never clears the flag
      stores an audit row of a write job if and only if a write process is in its section
      with rows to come, or past the gate waiting for a case that is free or held. (A case
      that is locked and not held leaked, and bars whoever waits for it for ever.) */
  lemma WritesUnderTheFlag(s: State)
    requires Reachable(s) && s.degraded
    ensures WriteFollows(s) <==> exists w :: MayWrite(s, w)
  {
    LockInvReachable(s);
    hide LockInv, Reachable;
    if w :| MayWrite(s, w) {
      LeadsToItself(s, KEEPING);
      if At(s, w).Gated? {
        if At(s, w).c.caseId in s.locks {
          var v :| Holds(s, v, At(s, w).c.caseId);
          HeldWrites(s, s, w, v);
        } else {
          FreeWrites(s, s, w);
        }
      } else {
        SectionWrites(s, s, w);
      }
    } else {
      assert Barred(s);
      forall t, e | LeadsTo(s, t, KEEPING) && Enabled(t, e) ensures !WritesRow(t, e) {
        var ss, es :| RunOf(ss, es, KEEPING) && ss[0] == s && ss[|es|] == t;
        BarredStays(ss, es, |es|);
        if WritesRow(t, e) { BarredStep(t, e); }
      }
    }
  }
}
